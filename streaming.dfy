/**
 * `handle_streaming`: the upstream chunk stream becomes Anthropic server-sent events. The
 * generator's local variables are one `StreamState`; each step of the handler yields a list
 * of events and the state after it, a `Step`. The server-sent-event text (`event: …\ndata: …`)
 * is not modelled: an event is its datatype value.
 */
module Streaming {
  import opened Wrappers
  import opened Text
  import opened Json
  import CfpAdapter

  // ---------------------------------------------------------------- the upstream chunks

  datatype FunctionDelta = FunctionDelta(name: string, arguments: string)

  /** One `delta.tool_calls` entry; `callType` None is a `type` of None. */
  datatype ToolCallDelta = ToolCallDelta(index: nat, id: string, callType: Option<string>, func: Option<FunctionDelta>)

  datatype Delta = Delta(content: Option<string>, toolCalls: seq<ToolCallDelta>)

  datatype StreamChoice = StreamChoice(delta: Delta, finishReason: Option<string>)

  /** What `CFPStreamParser.parse_stream_chunk` yields for a piece of text. */
  datatype CfpEvent =
    | CallStart(id: string, name: string)
    | ArgsDelta(id: string, delta: string)
    | CallComplete(id: string)
    | TextPiece(content: string)
    | ResultPiece(result: Json)

  /**
   * One chunk: its `usage.completion_tokens` when it has a usage, its first choice, and the
   * parser's events for its text (None when the parser raises).
   */
  datatype Chunk = Chunk(completionTokens: Option<int>, choice: Option<StreamChoice>, cfpEvents: Option<seq<CfpEvent>>)

  // ---------------------------------------------------------------- the events

  /**
   * The events the handler yields. Every text block event the handler yields is at block
   * index 0, so the text events carry no index.
   */
  datatype Event =
    | MessageStart(id: string, model: string)
    | TextBlockStart
    | ToolUseStart(index: nat, id: string, name: string)
    | TextDelta(text: string)
    | InputJsonDelta(index: nat, partialJson: string)
    | BlockStop(index: nat)
    | MessageDelta(stopReason: string, outputTokens: int)
    | MessageStop
    | Done

  /** `message_delta`, `message_stop` and `data: [DONE]`. */
  function Tail(stopReason: string, outputTokens: int): seq<Event>
  {
    [MessageDelta(stopReason, outputTokens), MessageStop, Done]
  }

  /** The kinds of event the protocol properties count. */
  datatype Kind = MessageStarts | MessageDeltas | MessageStops | TextStarts | ToolStartsAt(index: nat)

  predicate Matches(e: Event, kind: Kind)
  {
    match kind
    case MessageStarts => e.MessageStart?
    case MessageDeltas => e.MessageDelta?
    case MessageStops => e.MessageStop?
    case TextStarts => e.TextBlockStart?
    case ToolStartsAt(k) => e.ToolUseStart? && e.index == k
  }

  /** How many events of a kind a sequence holds. */
  function Count(out: seq<Event>, kind: Kind): nat
  {
    if out == [] then 0 else Count(out[..|out| - 1], kind) + (if Matches(out[|out| - 1], kind) then 1 else 0)
  }

  lemma {:induction false} CountAppend(a: seq<Event>, b: seq<Event>, kind: Kind)
    ensures Count(a + b, kind) == Count(a, kind) + Count(b, kind)
    decreases |b|
  {
    if b != [] {
      var b' := b[..|b| - 1];
      assert (a + b)[..|a + b| - 1] == a + b';
      CountAppend(a, b', kind);
    } else {
      assert a + b == a;
    }
  }

  lemma CountOne(e: Event, kind: Kind)
    ensures Count([e], kind) == if Matches(e, kind) then 1 else 0
  {
    assert [e][..0] == [];
  }

  /** Block stops, deltas and `[DONE]` are not counted. */
  lemma Uncounted(e: Event, kind: Kind)
    requires e.BlockStop? || e.TextDelta? || e.InputJsonDelta? || e.Done?
    ensures Count([e], kind) == 0
  {
    CountOne(e, kind);
  }

  lemma StartCounted(index: nat, id: string, name: string, kind: Kind)
    ensures Count([ToolUseStart(index, id, name)], kind) == if kind == ToolStartsAt(index) then 1 else 0
  {
    CountOne(ToolUseStart(index, id, name), kind);
  }

  lemma UncountedAll(e: Event)
    requires e.BlockStop? || e.TextDelta? || e.InputJsonDelta? || e.Done?
    ensures Count([e], MessageStarts) == 0 && Count([e], MessageDeltas) == 0
    ensures Count([e], MessageStops) == 0 && Count([e], TextStarts) == 0
  {
    Uncounted(e, MessageStarts);
    Uncounted(e, MessageDeltas);
    Uncounted(e, MessageStops);
    Uncounted(e, TextStarts);
  }

  lemma CountTwo(e: Event, f: Event, kind: Kind)
    ensures Count([e, f], kind) == Count([e], kind) + Count([f], kind)
  {
    assert [e, f] == [e] + [f];
    CountAppend([e], [f], kind);
  }

  /** The counts of a closing `message_delta`, `message_stop`, `[DONE]`. */
  lemma ClosingCount(t: seq<Event>, kind: Kind)
    requires |t| == 3 && t[0].MessageDelta? && t[1..] == [MessageStop, Done]
    ensures Count(t, kind) == if kind == MessageDeltas || kind == MessageStops then 1 else 0
  {
    assert t == [t[0], t[1]] + [Done];
    CountAppend([t[0], t[1]], [Done], kind);
    CountTwo(t[0], t[1], kind);
    CountOne(t[0], kind);
    CountOne(t[1], kind);
    CountOne(Done, kind);
  }

  /** No message-level event: what the handler yields between `message_start` and the finish. */
  predicate Body(evs: seq<Event>)
  {
    Count(evs, MessageStarts) == 0 && Count(evs, MessageDeltas) == 0 && Count(evs, MessageStops) == 0
  }

  lemma BodyAppend(a: seq<Event>, b: seq<Event>)
    requires Body(a) && Body(b)
    ensures Body(a + b)
  {
    CountAppend(a, b, MessageStarts);
    CountAppend(a, b, MessageDeltas);
    CountAppend(a, b, MessageStops);
  }

  // ---------------------------------------------------------------- the handler's state

  /**
   * What the handler calls but does not compute itself: the JSON library, the supply standing
   * in for `uuid.uuid4()`, and the plain text `parse_cfp_response` returns for a text.
   */
  datatype Env = Env(codec: Codec, uuids: nat -> string, reply: string -> Option<string>)

  /**
   * Whether `env.reply` is the model of `parse_cfp_response`. The fact is triggered by
   * the parse itself, so that proofs that do not parse leave the parse folded.
   */
  ghost predicate RepliesAsCfp(env: Env)
  {
    forall text {:trigger CfpAdapter.CfpReply(env.codec, text)} :: env.reply(text) == CfpAdapter.CfpReply(env.codec, text).0
  }

  /** Any JSON library and uuid supply make such an environment. */
  lemma CfpEnvExists(codec: Codec, uuids: nat -> string)
    ensures var env := Env(codec, uuids, text => CfpAdapter.CfpReply(codec, text).0);
      RepliesAsCfp(env) && env.codec == codec && env.uuids == uuids
  {
  }

  /** One `tool_calls_in_progress` entry, keyed by the upstream tool index. */
  datatype ToolState = ToolState(index: nat, id: string, name: string, arguments: string, started: bool)

  /** One `cfp_active_calls` entry, keyed by the parser's call id. */
  datatype CfpCall = CfpCall(callId: string, index: nat, anthropicId: string, name: string, buffer: string)

  /**
   * The handler's variables. The dicts are lists in insertion order, as Python iterates them;
   * `drawn` counts the uuids drawn so far, the `uuids` supply of every operation standing in
   * for `uuid.uuid4()`.
   */
  datatype StreamState = StreamState(
    cfpUsed: bool,
    toolIndex: Option<nat>,
    accumulated: string,
    textSent: bool,
    textClosed: bool,
    textStarted: bool,
    outputTokens: int,
    stopSent: bool,
    tools: seq<ToolState>,
    cfpCalls: seq<CfpCall>,
    cfpCallIndex: nat,
    cfpHasToolCalls: bool,
    finish: Option<string>,
    drawn: nat)

  /** What a step of the handler yields, and the state after it. */
  datatype Step = Step(next: StreamState, events: seq<Event>)

  /** The state after `message_start` is yielded. */
  function Initial(cfpUsed: bool): StreamState
  {
    StreamState(cfpUsed, None, "", false, false, false, 0, false, [], [], 0, false, Some("stop"), 0)
  }

  /** The shift of tool block indices once the text block has started. */
  function Offset(s: StreamState): nat
  {
    if s.textStarted then 1 else 0
  }

  /** One step after another. */
  function Then(p: Step, q: Step): Step
  {
    Step(q.next, p.events + q.events)
  }

  /**
   * A step inside the message: it yields no message-level event, opens the text block exactly
   * when it starts it, never un-starts it, and leaves the mode and the stop flag alone.
   */
  predicate Advances(s: StreamState, st: Step)
  {
    && Body(st.events)
    && Count(st.events, TextStarts) == (if st.next.textStarted && !s.textStarted then 1 else 0)
    && (s.textStarted ==> st.next.textStarted)
    && st.next.cfpUsed == s.cfpUsed && st.next.stopSent == s.stopSent
  }

  lemma AdvancesThen(s: StreamState, p: Step, q: Step)
    requires Advances(s, p) && Advances(p.next, q)
    ensures Advances(s, Then(p, q))
  {
    BodyAppend(p.events, q.events);
    CountAppend(p.events, q.events, TextStarts);
  }

  // ---------------------------------------------------------------- the text block

  /** A text delta, opening the text block first if it has not started. */
  function SendText(s: StreamState, t: string): Step
  {
    Step(s.(textStarted := true, textSent := true),
         if s.textStarted then [TextDelta(t)] else [TextBlockStart, TextDelta(t)])
  }

  lemma SendTextAdvances(s: StreamState, t: string)
    ensures Advances(s, SendText(s, t))
  {
    forall kind: Kind
      ensures Count(SendText(s, t).events, kind) == (if kind == TextStarts && !s.textStarted then 1 else 0)
    {
      CountTwo(TextBlockStart, TextDelta(t), kind);
      CountOne(TextBlockStart, kind);
      CountOne(TextDelta(t), kind);
    }
  }

  // ---------------------------------------------------------------- upstream tool calls

  /** Where `tool_calls_in_progress` holds the tool index `k`. */
  function ToolPos(tools: seq<ToolState>, k: nat): (r: Option<nat>)
    ensures r.Some? ==> r.value < |tools| && tools[r.value].index == k
    ensures r.None? ==> forall j :: 0 <= j < |tools| ==> tools[j].index != k
    decreases |tools|
  {
    if tools == [] then None
    else if tools[0].index == k then Some(0)
    else match ToolPos(tools[1..], k)
      case None => None
      case Some(p) => Some(p + 1)
  }

  predicate HasTool(tools: seq<ToolState>, k: nat)
  {
    ToolPos(tools, k).Some?
  }

  predicate AllStarted(tools: seq<ToolState>)
  {
    forall j :: 0 <= j < |tools| ==> tools[j].started
  }

  /** A delta of type `function` that has a `function`: the only kind the handler acts on. */
  predicate IsFunctionCall(tc: ToolCallDelta)
  {
    tc.callType == Some("function") && tc.func.Some?
  }

  /**
   * The entry of tool index `k` after a delta: created with the delta's id and name when new,
   * named by the first non-empty name, its arguments extended by the fragment, and started.
   */
  function UpdateTool(tools: seq<ToolState>, k: nat, id: string, f: FunctionDelta): (r: seq<ToolState>)
    ensures |r| == |tools| + (if HasTool(tools, k) then 0 else 1)
    ensures forall j :: 0 <= j < |tools| && tools[j].index != k ==> r[j] == tools[j]
    ensures AllStarted(tools) ==> AllStarted(r)
  {
    var p := ToolPos(tools, k);
    var base := if p.Some? then tools[p.value] else ToolState(k, id, f.name, "", false);
    var st := base.(name := if f.name != "" && base.name == "" then f.name else base.name,
                    arguments := base.arguments + f.arguments, started := true);
    if p.Some? then tools[p.value := st] else tools + [st]
  }

  /** After a delta its tool index is tracked, started, and holds the fragment at the end of its arguments. */
  lemma UpdateToolEntry(tools: seq<ToolState>, k: nat, id: string, f: FunctionDelta)
    ensures var r := UpdateTool(tools, k, id, f);
      && ToolPos(r, k).Some? && r[ToolPos(r, k).value].started
      && r[ToolPos(r, k).value].arguments
         == (if HasTool(tools, k) then tools[ToolPos(tools, k).value].arguments else "") + f.arguments
  {
    var r := UpdateTool(tools, k, id, f);
    var p := ToolPos(tools, k);
    if p.Some? {
      ToolPosSameKeys(tools, r, k);
    } else {
      ToolPosSnoc(tools, r[|tools|], k);
      assert r == tools + [r[|tools|]];
    }
  }

  /** A delta adds its own tool index to those tracked, and no other. */
  lemma UpdateToolHas(tools: seq<ToolState>, k: nat, id: string, f: FunctionDelta, j: nat)
    ensures HasTool(UpdateTool(tools, k, id, f), j) <==> HasTool(tools, j) || j == k
  {
    var r := UpdateTool(tools, k, id, f);
    var p := ToolPos(tools, k);
    if p.Some? {
      ToolPosSameKeys(tools, r, j);
      ToolPosSameKeys(tools, r, k);
    } else {
      assert r == tools + [r[|tools|]];
      ToolPosSnoc(tools, r[|tools|], j);
    }
  }

  lemma {:induction false} ToolPosSameKeys(a: seq<ToolState>, b: seq<ToolState>, k: nat)
    requires |a| == |b| && forall j :: 0 <= j < |a| ==> a[j].index == b[j].index
    ensures ToolPos(a, k) == ToolPos(b, k)
    decreases |a|
  {
    if a != [] {
      ToolPosSameKeys(a[1..], b[1..], k);
    }
  }

  lemma {:induction false} ToolPosSnoc(a: seq<ToolState>, t: ToolState, k: nat)
    ensures ToolPos(a + [t], k) == if HasTool(a, k) then ToolPos(a, k) else if t.index == k then Some(|a|) else None
    decreases |a|
  {
    if a != [] {
      assert (a + [t])[1..] == a[1..] + [t];
      ToolPosSnoc(a[1..], t, k);
    }
  }

  /**
   * The opening of a `function` delta's block when its entry has not started: the text
   * block's stop when it is open, then the `tool_use` block start at the shifted index.
   */
  function ToolOpening(index: nat, toolId: string, name: string, wasStarted: bool, textOpen: bool): seq<Event>
  {
    if wasStarted then []
    else (if textOpen then [BlockStop(0)] else []) + [ToolUseStart(index, toolId, name)]
  }

  /** A non-empty argument fragment, forwarded verbatim. */
  function ToolArguments(index: nat, arguments: string): seq<Event>
  {
    if arguments != "" then [InputJsonDelta(index, arguments)] else []
  }

  /** The events of one `delta.tool_calls` entry; none unless it is a `function` delta. */
  function ToolDeltaEvents(tc: ToolCallDelta, toolId: string, wasStarted: bool, offset: nat, textOpen: bool)
    : seq<Event>
  {
    if !IsFunctionCall(tc) then []
    else ToolOpening(tc.index + offset, toolId, tc.func.value.name, wasStarted, textOpen)
         + ToolArguments(tc.index + offset, tc.func.value.arguments)
  }

  lemma ToolOpeningCount(index: nat, toolId: string, name: string, wasStarted: bool, textOpen: bool, kind: Kind)
    ensures Count(ToolOpening(index, toolId, name, wasStarted, textOpen), kind)
         == if !wasStarted && kind == ToolStartsAt(index) then 1 else 0
  {
    if !wasStarted {
      var close := if textOpen then [BlockStop(0)] else [];
      Uncounted(BlockStop(0), kind);
      StartCounted(index, toolId, name, kind);
      CountAppend(close, [ToolUseStart(index, toolId, name)], kind);
    }
  }

  lemma ToolArgumentsCount(index: nat, arguments: string, kind: Kind)
    ensures Count(ToolArguments(index, arguments), kind) == 0
  {
    Uncounted(InputJsonDelta(index, arguments), kind);
  }

  lemma OpeningArgumentsCount(index: nat, toolId: string, name: string, arguments: string, wasStarted: bool,
                              textOpen: bool, kind: Kind)
    ensures Count(ToolOpening(index, toolId, name, wasStarted, textOpen) + ToolArguments(index, arguments), kind)
         == if !wasStarted && kind == ToolStartsAt(index) then 1 else 0
  {
    ToolOpeningCount(index, toolId, name, wasStarted, textOpen, kind);
    ToolArgumentsCount(index, arguments, kind);
    CountAppend(ToolOpening(index, toolId, name, wasStarted, textOpen), ToolArguments(index, arguments), kind);
  }

  /** A tool delta yields one `tool_use` start, at its shifted index, exactly when its call is new, and no other counted event. */
  lemma ToolDeltaEventsCount(tc: ToolCallDelta, toolId: string, wasStarted: bool, offset: nat, textOpen: bool, kind: Kind)
    ensures Count(ToolDeltaEvents(tc, toolId, wasStarted, offset, textOpen), kind)
         == if IsFunctionCall(tc) && !wasStarted && kind == ToolStartsAt(tc.index + offset) then 1 else 0
  {
    var evs := ToolDeltaEvents(tc, toolId, wasStarted, offset, textOpen);
    if IsFunctionCall(tc) {
      var i := tc.index + offset;
      var f := tc.func.value;
      assert evs == ToolOpening(i, toolId, f.name, wasStarted, textOpen) + ToolArguments(i, f.arguments);
      OpeningArgumentsCount(i, toolId, f.name, f.arguments, wasStarted, textOpen, kind);
    } else {
      assert evs == [];
    }
  }

  /**
   * A new call's block opens right after the open text block is stopped, and the call's
   * argument fragment is the last event, verbatim.
   */
  lemma ToolDeltaEventsOrder(tc: ToolCallDelta, toolId: string, wasStarted: bool, offset: nat, textOpen: bool)
    requires IsFunctionCall(tc)
    ensures var evs := ToolDeltaEvents(tc, toolId, wasStarted, offset, textOpen);
      && (!wasStarted && textOpen ==>
            |evs| >= 2 && evs[..2] == [BlockStop(0), ToolUseStart(tc.index + offset, toolId, tc.func.value.name)])
      && (!wasStarted && !textOpen ==> |evs| >= 1 && evs[0] == ToolUseStart(tc.index + offset, toolId, tc.func.value.name))
      && (tc.func.value.arguments != "" ==>
            |evs| >= 1 && evs[|evs| - 1] == InputJsonDelta(tc.index + offset, tc.func.value.arguments))
      && (wasStarted && tc.func.value.arguments == "" ==> evs == [])
  {
  }

  /**
   * One entry of `delta.tool_calls` on the direct path: its id (a fresh one when it has none)
   * and the tool index become current; a `function` delta is tracked, its block is opened the
   * first time, after the text block is closed, and its argument fragment is forwarded.
   */
  function ToolDeltaStep(uuids: nat -> string, s: StreamState, tc: ToolCallDelta): Step
  {
    var toolId := if tc.id != "" then tc.id else uuids(s.drawn);
    var p := ToolPos(s.tools, tc.index);
    var wasStarted := p.Some? && s.tools[p.value].started;
    var textOpen := s.textStarted && !s.textClosed;
    Step(s.(drawn := if tc.id != "" then s.drawn else s.drawn + 1,
            toolIndex := Some(tc.index),
            tools := if IsFunctionCall(tc) then UpdateTool(s.tools, tc.index, toolId, tc.func.value) else s.tools,
            textClosed := if IsFunctionCall(tc) && !wasStarted && textOpen then true else s.textClosed),
         ToolDeltaEvents(tc, toolId, wasStarted, Offset(s), textOpen))
  }

  /**
   * A tool delta stays inside the message, leaves the text block's start and the finish
   * reason alone, makes its index current and keeps every entry started.
   */
  lemma ToolDeltaAdvances(uuids: nat -> string, s: StreamState, tc: ToolCallDelta)
    ensures var r := ToolDeltaStep(uuids, s, tc);
      && Advances(s, r) && r.next.textStarted == s.textStarted && r.next.finish == s.finish
      && r.next.toolIndex == Some(tc.index) && (AllStarted(s.tools) ==> AllStarted(r.next.tools))
  {
    var toolId := if tc.id != "" then tc.id else uuids(s.drawn);
    var p := ToolPos(s.tools, tc.index);
    var wasStarted := p.Some? && s.tools[p.value].started;
    var textOpen := s.textStarted && !s.textClosed;
    ToolDeltaEventsCount(tc, toolId, wasStarted, Offset(s), textOpen, MessageStarts);
    ToolDeltaEventsCount(tc, toolId, wasStarted, Offset(s), textOpen, MessageDeltas);
    ToolDeltaEventsCount(tc, toolId, wasStarted, Offset(s), textOpen, MessageStops);
    ToolDeltaEventsCount(tc, toolId, wasStarted, Offset(s), textOpen, TextStarts);
  }

  lemma ToolDeltaHas(uuids: nat -> string, s: StreamState, tc: ToolCallDelta, k: nat)
    ensures HasTool(ToolDeltaStep(uuids, s, tc).next.tools, k) <==> HasTool(s.tools, k) || (k == tc.index && IsFunctionCall(tc))
  {
    if IsFunctionCall(tc) {
      var toolId := if tc.id != "" then tc.id else uuids(s.drawn);
      UpdateToolHas(s.tools, tc.index, toolId, tc.func.value, k);
    }
  }

  /** Each entry of `delta.tool_calls` opens a `tool_use` block exactly when its index is new. */
  lemma ToolDeltaStarts(uuids: nat -> string, s: StreamState, tc: ToolCallDelta, k: nat)
    requires AllStarted(s.tools)
    ensures Count(ToolDeltaStep(uuids, s, tc).events, ToolStartsAt(k + Offset(s)))
         == if k == tc.index && IsFunctionCall(tc) && !HasTool(s.tools, k) then 1 else 0
  {
    var toolId := if tc.id != "" then tc.id else uuids(s.drawn);
    var p := ToolPos(s.tools, tc.index);
    var wasStarted := p.Some? && s.tools[p.value].started;
    var textOpen := s.textStarted && !s.textClosed;
    ToolDeltaEventsCount(tc, toolId, wasStarted, Offset(s), textOpen, ToolStartsAt(k + Offset(s)));
  }

  /** The loop over one chunk's `delta.tool_calls`. */
  function ToolDeltas(uuids: nat -> string, s: StreamState, tcs: seq<ToolCallDelta>): Step
    decreases |tcs|
  {
    if tcs == [] then Step(s, [])
    else
      var p := ToolDeltas(uuids, s, tcs[..|tcs| - 1]);
      Then(p, ToolDeltaStep(uuids, p.next, tcs[|tcs| - 1]))
  }

  lemma {:induction false} ToolDeltasAdvances(uuids: nat -> string, s: StreamState, tcs: seq<ToolCallDelta>)
    ensures var r := ToolDeltas(uuids, s, tcs);
      && Advances(s, r) && r.next.textStarted == s.textStarted && r.next.finish == s.finish
      && (AllStarted(s.tools) ==> AllStarted(r.next.tools))
    decreases |tcs|
  {
    if tcs != [] {
      var p := ToolDeltas(uuids, s, tcs[..|tcs| - 1]);
      ToolDeltasAdvances(uuids, s, tcs[..|tcs| - 1]);
      ToolDeltaAdvances(uuids, p.next, tcs[|tcs| - 1]);
      AdvancesThen(s, p, ToolDeltaStep(uuids, p.next, tcs[|tcs| - 1]));
    }
  }

  /** Whether some delta of a chunk is a `function` call at upstream index `k`. */
  predicate CallsAt(tcs: seq<ToolCallDelta>, k: nat)
  {
    exists j :: 0 <= j < |tcs| && tcs[j].index == k && IsFunctionCall(tcs[j])
  }

  /** The tool indices tracked after a chunk: those before, and those of its `function` deltas. */
  lemma {:induction false} ToolDeltasHas(uuids: nat -> string, s: StreamState, tcs: seq<ToolCallDelta>, k: nat)
    ensures HasTool(ToolDeltas(uuids, s, tcs).next.tools, k) <==>
      (HasTool(s.tools, k) || CallsAt(tcs, k))
    decreases |tcs|
  {
    if tcs != [] {
      var init := tcs[..|tcs| - 1];
      ToolDeltasHas(uuids, s, init, k);
      ToolDeltaHas(uuids, ToolDeltas(uuids, s, init).next, tcs[|tcs| - 1], k);
      assert forall j :: 0 <= j < |init| ==> init[j] == tcs[j];
    }
  }

  /**
   * Across one chunk's tool calls, every upstream tool index that becomes tracked gets exactly
   * one `tool_use` block start, at that index shifted past the text block, and no other index
   * gets one.
   */
  lemma {:induction false} ToolStartsOnce(uuids: nat -> string, s: StreamState, tcs: seq<ToolCallDelta>, k: nat)
    requires AllStarted(s.tools)
    ensures var r := ToolDeltas(uuids, s, tcs);
      Count(r.events, ToolStartsAt(k + Offset(s))) == if HasTool(r.next.tools, k) && !HasTool(s.tools, k) then 1 else 0
    decreases |tcs|
  {
    if tcs != [] {
      var init := tcs[..|tcs| - 1];
      var p := ToolDeltas(uuids, s, init);
      ToolStartsOnce(uuids, s, init, k);
      ToolDeltasHas(uuids, s, init, k);
      ToolDeltasAdvances(uuids, s, init);
      ToolStartsStep(uuids, s, p, tcs[|tcs| - 1], k);
    }
  }

  /** The step of `ToolStartsOnce`, over any prefix result `p`. */
  lemma ToolStartsStep(uuids: nat -> string, s: StreamState, p: Step, last: ToolCallDelta, k: nat)
    requires AllStarted(p.next.tools) && p.next.textStarted == s.textStarted
    requires Count(p.events, ToolStartsAt(k + Offset(s))) == if HasTool(p.next.tools, k) && !HasTool(s.tools, k) then 1 else 0
    requires HasTool(s.tools, k) ==> HasTool(p.next.tools, k)
    ensures var r := Then(p, ToolDeltaStep(uuids, p.next, last));
      Count(r.events, ToolStartsAt(k + Offset(s))) == if HasTool(r.next.tools, k) && !HasTool(s.tools, k) then 1 else 0
  {
    var q := ToolDeltaStep(uuids, p.next, last);
    ToolDeltaStarts(uuids, p.next, last, k);
    ToolDeltaHas(uuids, p.next, last, k);
    CountAppend(p.events, q.events, ToolStartsAt(k + Offset(s)));
    CountStep(Count(p.events, ToolStartsAt(k + Offset(s))), Count(q.events, ToolStartsAt(k + Offset(s))),
              HasTool(s.tools, k), HasTool(p.next.tools, k), HasTool(q.next.tools, k), k == last.index && IsFunctionCall(last));
  }

  /** The counting step of `ToolStartsOnce`, on its own. */
  lemma CountStep(a: nat, b: nat, hs: bool, hp: bool, hr: bool, here: bool)
    requires a == (if hp && !hs then 1 else 0)
    requires b == (if here && !hp then 1 else 0)
    requires hr <==> hp || here
    requires hs ==> hp
    ensures a + b == (if hr && !hs then 1 else 0)
  {
  }

  // ---------------------------------------------------------------- CFP events

  /** Where `cfp_active_calls` holds a call id. */
  function CallPos(calls: seq<CfpCall>, id: string): (r: Option<nat>)
    ensures r.Some? ==> r.value < |calls| && calls[r.value].callId == id
    ensures r.None? ==> forall j :: 0 <= j < |calls| ==> calls[j].callId != id
    decreases |calls|
  {
    if calls == [] then None
    else if calls[0].callId == id then Some(0)
    else match CallPos(calls[1..], id)
      case None => None
      case Some(p) => Some(p + 1)
  }

  /** `cfp_active_calls[c.callId] = c`: an existing entry is replaced where it stands, a new one goes last. */
  function PutCall(calls: seq<CfpCall>, c: CfpCall): seq<CfpCall>
  {
    match CallPos(calls, c.callId)
    case Some(p) => calls[p := c]
    case None => calls + [c]
  }

  /** `del cfp_active_calls[id]`. */
  function RemoveCall(calls: seq<CfpCall>, p: nat): seq<CfpCall>
    requires p < |calls|
  {
    calls[..p] + calls[p + 1..]
  }

  /** No call id is held twice, as in a dict. */
  predicate UniqueIds(calls: seq<CfpCall>)
  {
    forall i, j :: 0 <= i < j < |calls| ==> calls[i].callId != calls[j].callId
  }

  lemma {:induction false} CallPosFirst(calls: seq<CfpCall>, id: string, p: nat)
    requires p < |calls| && calls[p].callId == id && forall j :: 0 <= j < p ==> calls[j].callId != id
    ensures CallPos(calls, id) == Some(p)
    decreases p
  {
    if p > 0 {
      CallPosFirst(calls[1..], id, p - 1);
    }
  }

  /** After `PutCall` the id is held once, by the new entry. */
  lemma PutCallHolds(calls: seq<CfpCall>, c: CfpCall)
    requires UniqueIds(calls)
    ensures var r := PutCall(calls, c);
      UniqueIds(r) && CallPos(r, c.callId).Some? && r[CallPos(r, c.callId).value] == c
  {
    var r := PutCall(calls, c);
    match CallPos(calls, c.callId)
    case Some(p) =>
      CallPosFirst(r, c.callId, p);
    case None =>
      CallPosFirst(r, c.callId, |calls|);
  }

  /** After `RemoveCall` the id is no longer held. */
  lemma RemoveCallForgets(calls: seq<CfpCall>, p: nat)
    requires UniqueIds(calls) && p < |calls|
    ensures var r := RemoveCall(calls, p);
      UniqueIds(r) && CallPos(r, calls[p].callId).None? && |r| == |calls| - 1
  {
    var r := RemoveCall(calls, p);
    assert forall j :: 0 <= j < |r| ==> r[j] == (if j < p then calls[j] else calls[j + 1]);
    assert forall j :: 0 <= j < |r| ==> r[j].callId != calls[p].callId;
  }

  /**
   * One event of the CFP parser. `call_start` stops the open text block, opens a `tool_use`
   * block at the next CFP call index shifted past the text block, with a fresh id, and records
   * the call; `args_delta` and `call_complete` act only on a recorded call, forwarding the
   * fragment verbatim or stopping the call's block and forgetting it; `text` goes to the text
   * block unless a call has been seen; `result` goes to the text block as its JSON dump.
   */
  function CfpEventStep(env: Env, s: StreamState, ev: CfpEvent): Step
  {
    match ev
    case CallStart(id, name) =>
      var textOpen := s.textStarted && !s.textClosed;
      var index := s.cfpCallIndex + Offset(s);
      var aid := env.uuids(s.drawn);
      Step(s.(cfpHasToolCalls := true, textClosed := s.textClosed || textOpen,
              cfpCalls := PutCall(s.cfpCalls, CfpCall(id, index, aid, name, "")),
              cfpCallIndex := s.cfpCallIndex + 1, drawn := s.drawn + 1),
           ToolOpening(index, aid, name, false, textOpen))
    case ArgsDelta(id, d) =>
      (match CallPos(s.cfpCalls, id)
       case None => Step(s, [])
       case Some(p) =>
         Step(s.(cfpCalls := s.cfpCalls[p := s.cfpCalls[p].(buffer := s.cfpCalls[p].buffer + d)]),
              [InputJsonDelta(s.cfpCalls[p].index, d)]))
    case CallComplete(id) =>
      (match CallPos(s.cfpCalls, id)
       case None => Step(s, [])
       case Some(p) => Step(s.(cfpCalls := RemoveCall(s.cfpCalls, p)), [BlockStop(s.cfpCalls[p].index)]))
    case TextPiece(t) =>
      if t != "" && !s.cfpHasToolCalls then SendText(s, t) else Step(s, [])
    case ResultPiece(res) =>
      SendText(s, env.codec.dumps(res, NonAscii))
  }

  lemma CfpEventAdvances(env: Env, s: StreamState, ev: CfpEvent)
    ensures Advances(s, CfpEventStep(env, s, ev))
  {
    var r := CfpEventStep(env, s, ev);
    match ev
    case CallStart(id, name) =>
      var textOpen := s.textStarted && !s.textClosed;
      var index := s.cfpCallIndex + Offset(s);
      assert r.events == ToolOpening(index, env.uuids(s.drawn), name, false, textOpen);
      ToolOpeningCount(index, env.uuids(s.drawn), name, false, textOpen, MessageStarts);
      ToolOpeningCount(index, env.uuids(s.drawn), name, false, textOpen, MessageDeltas);
      ToolOpeningCount(index, env.uuids(s.drawn), name, false, textOpen, MessageStops);
      ToolOpeningCount(index, env.uuids(s.drawn), name, false, textOpen, TextStarts);
    case ArgsDelta(id, d) =>
      if CallPos(s.cfpCalls, id).Some? {
        var p := CallPos(s.cfpCalls, id).value;
        assert r.events == [InputJsonDelta(s.cfpCalls[p].index, d)];
        UncountedAll(InputJsonDelta(s.cfpCalls[p].index, d));
      }
    case CallComplete(id) =>
      if CallPos(s.cfpCalls, id).Some? {
        var p := CallPos(s.cfpCalls, id).value;
        assert r.events == [BlockStop(s.cfpCalls[p].index)];
        UncountedAll(BlockStop(s.cfpCalls[p].index));
      }
    case TextPiece(t) =>
      SendTextAdvances(s, t);
    case ResultPiece(res) =>
      SendTextAdvances(s, env.codec.dumps(res, NonAscii));
  }

  /** `cfp_active_calls` stays a dict: no call id is held twice. */
  lemma CfpEventUnique(env: Env, s: StreamState, ev: CfpEvent)
    requires UniqueIds(s.cfpCalls)
    ensures UniqueIds(CfpEventStep(env, s, ev).next.cfpCalls)
  {
    match ev
    case CallStart(id, name) =>
      PutCallHolds(s.cfpCalls, CfpCall(id, s.cfpCallIndex + Offset(s), env.uuids(s.drawn), name, ""));
    case CallComplete(id) =>
      if CallPos(s.cfpCalls, id).Some? {
        RemoveCallForgets(s.cfpCalls, CallPos(s.cfpCalls, id).value);
      }
    case _ =>
  }

  /** A completed call is forgotten: a later fragment or completion for it yields nothing. */
  lemma CompletedCallForgotten(env: Env, s: StreamState, id: string, later: CfpEvent)
    requires UniqueIds(s.cfpCalls) && CallPos(s.cfpCalls, id).Some?
    requires (later.ArgsDelta? && later.id == id) || later == CallComplete(id)
    ensures var r := CfpEventStep(env, s, CallComplete(id));
      CfpEventStep(env, r.next, later).events == []
  {
    RemoveCallForgets(s.cfpCalls, CallPos(s.cfpCalls, id).value);
  }

  /** The events of one chunk's text, in order. */
  function CfpEvents(env: Env, s: StreamState, evs: seq<CfpEvent>): Step
    decreases |evs|
  {
    if evs == [] then Step(s, [])
    else
      var p := CfpEvents(env, s, evs[..|evs| - 1]);
      Then(p, CfpEventStep(env, p.next, evs[|evs| - 1]))
  }

  lemma {:induction false} CfpEventsAdvances(env: Env, s: StreamState, evs: seq<CfpEvent>)
    ensures Advances(s, CfpEvents(env, s, evs))
    decreases |evs|
  {
    if evs != [] {
      var p := CfpEvents(env, s, evs[..|evs| - 1]);
      CfpEventsAdvances(env, s, evs[..|evs| - 1]);
      CfpEventAdvances(env, p.next, evs[|evs| - 1]);
      AdvancesThen(s, p, CfpEventStep(env, p.next, evs[|evs| - 1]));
    }
  }

  lemma {:induction false} CfpEventsUnique(env: Env, s: StreamState, evs: seq<CfpEvent>)
    requires UniqueIds(s.cfpCalls)
    ensures UniqueIds(CfpEvents(env, s, evs).next.cfpCalls)
    decreases |evs|
  {
    if evs != [] {
      var p := CfpEvents(env, s, evs[..|evs| - 1]);
      CfpEventsUnique(env, s, evs[..|evs| - 1]);
      CfpEventUnique(env, p.next, evs[|evs| - 1]);
    }
  }

  /**
   * A chunk with text in CFP mode: the text is accumulated, then the parser's events are
   * handled; when the parser raises, the text goes to the text block unless a call has been
   * seen.
   */
  function CfpChunk(env: Env, s: StreamState, content: string, parsed: Option<seq<CfpEvent>>)
    : Step
  {
    var s0 := s.(accumulated := s.accumulated + content);
    match parsed
    case Some(evs) => CfpEvents(env, s0, evs)
    case None => if !s0.cfpHasToolCalls then SendText(s0, content) else Step(s0, [])
  }

  /** A chunk with text in direct mode: accumulated, and sent while no tool index is current and the text block is not closed. */
  function PlainTextChunk(s: StreamState, content: string): Step
  {
    var s0 := s.(accumulated := s.accumulated + content);
    if s0.toolIndex.None? && !s0.textClosed then SendText(s0, content) else Step(s0, [])
  }

  // ---------------------------------------------------------------- the finish

  /** `content_block_stop` for every started entry of `tool_calls_in_progress`, in order. */
  function ToolStops(tools: seq<ToolState>, offset: nat): seq<Event>
    decreases |tools|
  {
    if tools == [] then []
    else
      var t := tools[|tools| - 1];
      ToolStops(tools[..|tools| - 1], offset) + (if t.started then [BlockStop(t.index + offset)] else [])
  }

  /** `content_block_stop` for every entry of `cfp_active_calls`, in order. */
  function CallStops(calls: seq<CfpCall>): seq<Event>
    decreases |calls|
  {
    if calls == [] then [] else CallStops(calls[..|calls| - 1]) + [BlockStop(calls[|calls| - 1].index)]
  }

  lemma {:induction false} ToolStopsCount(tools: seq<ToolState>, offset: nat, kind: Kind)
    ensures Count(ToolStops(tools, offset), kind) == 0
    decreases |tools|
  {
    if tools != [] {
      var t := tools[|tools| - 1];
      ToolStopsCount(tools[..|tools| - 1], offset, kind);
      Uncounted(BlockStop(t.index + offset), kind);
      CountAppend(ToolStops(tools[..|tools| - 1], offset), if t.started then [BlockStop(t.index + offset)] else [], kind);
    }
  }

  lemma {:induction false} CallStopsCount(calls: seq<CfpCall>, kind: Kind)
    ensures Count(CallStops(calls), kind) == 0
    decreases |calls|
  {
    if calls != [] {
      CallStopsCount(calls[..|calls| - 1], kind);
      Uncounted(BlockStop(calls[|calls| - 1].index), kind);
      CountAppend(CallStops(calls[..|calls| - 1]), [BlockStop(calls[|calls| - 1].index)], kind);
    }
  }

  /** Every started tool block is stopped, at its shifted index. */
  lemma {:induction false} ToolStopsCover(tools: seq<ToolState>, offset: nat, j: nat)
    requires j < |tools| && tools[j].started
    ensures BlockStop(tools[j].index + offset) in ToolStops(tools, offset)
    decreases |tools|
  {
    if j < |tools| - 1 {
      ToolStopsCover(tools[..|tools| - 1], offset, j);
    }
  }

  /** Every CFP call still recorded has its block stopped. */
  lemma {:induction false} CallStopsCover(calls: seq<CfpCall>, j: nat)
    requires j < |calls|
    ensures BlockStop(calls[j].index) in CallStops(calls)
    decreases |calls|
  {
    if j < |calls| - 1 {
      CallStopsCover(calls[..|calls| - 1], j);
    }
  }

  /** The stop reason of the finish and of the interrupted stream. */
  function StopReasonOf(finish: Option<string>, cfpHasToolCalls: bool, toolsInProgress: bool): string
  {
    if finish == Some("length") then "max_tokens"
    else if finish == Some("tool_calls") || cfpHasToolCalls || toolsInProgress then "tool_use"
    else "end_turn"
  }

  /**
   * The stop reason is one of the three Anthropic reasons: `max_tokens` exactly for `length`,
   * `tool_use` exactly for `tool_calls` or when a tool was seen, `end_turn` otherwise.
   */
  lemma StopReasonCases(finish: Option<string>, cfpHasToolCalls: bool, toolsInProgress: bool)
    ensures var r := StopReasonOf(finish, cfpHasToolCalls, toolsInProgress);
      && r in {"max_tokens", "tool_use", "end_turn"}
      && (r == "max_tokens" <==> finish == Some("length"))
      && (r == "tool_use" <==> finish != Some("length") && (finish == Some("tool_calls") || cfpHasToolCalls || toolsInProgress))
      && (r == "end_turn" <==> finish != Some("length") && finish != Some("tool_calls") && !cfpHasToolCalls && !toolsInProgress)
  {
  }

  /**
   * The plain text a CFP stream without calls sends at the finish: the reply
   * `parse_cfp_response` finds in the accumulated text, when it is not blank.
   */
  function FinishPlain(env: Env, s: StreamState): Option<string>
  {
    if s.cfpUsed && !s.cfpHasToolCalls && Strip(s.accumulated) != "" then
      match env.reply(s.accumulated)
      case Some(p) => if Strip(p) != "" then Some(p) else None
      case None => None
    else None
  }

  /** The stops of the open tool blocks and of the recorded CFP calls. */
  function Closes(s: StreamState): seq<Event>
  {
    ToolStops(s.tools, Offset(s)) + CallStops(s.cfpCalls)
  }

  /** The CFP plain text sent at the finish, if any. */
  function PlainStep(env: Env, s: StreamState): Step
  {
    match FinishPlain(env, s)
    case Some(p) => SendText(s, p)
    case None => Step(s, [])
  }

  /** The text block's stop, when text was sent and the block is not closed. */
  function CloseText(s: StreamState): Step
  {
    Step(s.(textClosed := s.textClosed || s.textSent), if s.textSent && !s.textClosed then [BlockStop(0)] else [])
  }

  /** The finish before the closing events: every open block is stopped, the CFP plain text is sent. */
  function FinishBody(env: Env, s: StreamState): Step
  {
    var t := PlainStep(env, s);
    Then(Then(Step(s, Closes(s)), t), CloseText(t.next))
  }

  /** The finish branch: the stop is sent, and `message_delta`, `message_stop` and `[DONE]` follow the body. */
  function FinishStream(env: Env, s: StreamState): Step
  {
    var b := FinishBody(env, s);
    Step(b.next.(stopSent := true),
         b.events + Tail(StopReasonOf(b.next.finish, b.next.cfpHasToolCalls, b.next.tools != []), b.next.outputTokens))
  }

  /**
   * A step that ends the message: the stop is sent, and the events are a body of block events
   * followed by one `message_delta`, `message_stop` and `[DONE]`.
   */
  predicate Ends(s: StreamState, st: Step)
  {
    && st.next.stopSent && st.next.cfpUsed == s.cfpUsed && (s.textStarted ==> st.next.textStarted)
    && |st.events| >= 3 && Body(st.events[..|st.events| - 3])
    && st.events[|st.events| - 3].MessageDelta? && st.events[|st.events| - 2..] == [MessageStop, Done]
    && Count(st.events, TextStarts) == (if st.next.textStarted && !s.textStarted then 1 else 0)
  }

  lemma AdvancesThenEnds(s: StreamState, p: Step, q: Step)
    requires Advances(s, p) && Ends(p.next, q)
    ensures Ends(s, Then(p, q))
  {
    var e := p.events + q.events;
    var n := |q.events|;
    assert e[..|e| - 3] == p.events + q.events[..n - 3];
    assert e[|e| - 3] == q.events[n - 3];
    assert e[|e| - 2..] == q.events[n - 2..];
    BodyAppend(p.events, q.events[..n - 3]);
    CountAppend(p.events, q.events, TextStarts);
  }

  lemma ClosesAdvance(s: StreamState)
    ensures Advances(s, Step(s, Closes(s)))
  {
    forall kind: Kind ensures Count(Closes(s), kind) == 0 {
      ToolStopsCount(s.tools, Offset(s), kind);
      CallStopsCount(s.cfpCalls, kind);
      CountAppend(ToolStops(s.tools, Offset(s)), CallStops(s.cfpCalls), kind);
    }
  }

  lemma PlainStepAdvances(env: Env, s: StreamState)
    ensures var t := PlainStep(env, s);
      && Advances(s, t) && t.next.finish == s.finish && t.next.cfpHasToolCalls == s.cfpHasToolCalls
      && t.next.tools == s.tools && t.next.outputTokens == s.outputTokens
  {
    if FinishPlain(env, s).Some? {
      SendTextAdvances(s, FinishPlain(env, s).value);
    }
  }

  lemma CloseTextAdvances(s: StreamState)
    ensures var c := CloseText(s);
      && Advances(s, c) && c.next.finish == s.finish && c.next.cfpHasToolCalls == s.cfpHasToolCalls
      && c.next.tools == s.tools && c.next.outputTokens == s.outputTokens && (c.next.textSent ==> c.next.textClosed)
  {
    UncountedAll(BlockStop(0));
  }

  lemma FinishBodyAdvances(env: Env, s: StreamState)
    ensures var b := FinishBody(env, s);
      && Advances(s, b) && b.next.finish == s.finish && b.next.cfpHasToolCalls == s.cfpHasToolCalls
      && b.next.tools == s.tools && b.next.outputTokens == s.outputTokens
      && (b.next.textSent ==> b.next.textClosed)
  {
    var t := PlainStep(env, s);
    ClosesAdvance(s);
    PlainStepAdvances(env, s);
    CloseTextAdvances(t.next);
    AdvancesThen(s, Step(s, Closes(s)), t);
    AdvancesThen(s, Then(Step(s, Closes(s)), t), CloseText(t.next));
  }

  /**
   * The finish ends the message with the stop reason of the finish reason, the calls seen and
   * the tools in progress, and the output tokens seen last.
   */
  lemma FinishEnds(env: Env, s: StreamState)
    ensures var r := FinishStream(env, s);
      && Ends(s, r)
      && r.events[|r.events| - 3] == MessageDelta(StopReasonOf(s.finish, s.cfpHasToolCalls, s.tools != []), s.outputTokens)
  {
    var b := FinishBody(env, s);
    var r := FinishStream(env, s);
    FinishBodyAdvances(env, s);
    var t := Tail(StopReasonOf(b.next.finish, b.next.cfpHasToolCalls, b.next.tools != []), b.next.outputTokens);
    assert r.events[..|r.events| - 3] == b.events;
    assert r.events[|r.events| - 3..] == t;
    ClosingCount(t, TextStarts);
    CountAppend(b.events, t, TextStarts);
  }

  /** The finish stops every started tool block, every recorded CFP call's block, and the sent text block. */
  lemma FinishCloses(env: Env, s: StreamState)
    ensures var r := FinishStream(env, s);
      && (forall j :: 0 <= j < |s.tools| && s.tools[j].started ==> BlockStop(s.tools[j].index + Offset(s)) in r.events)
      && (forall j :: 0 <= j < |s.cfpCalls| ==> BlockStop(s.cfpCalls[j].index) in r.events)
      && (r.next.textSent ==> r.next.textClosed)
  {
    var b := FinishBody(env, s);
    FinishBodyAdvances(env, s);
    var rest := b.events[|Closes(s)|..] + FinishStream(env, s).events[|b.events|..];
    ClosesPrefix(s, FinishStream(env, s).events, rest);
  }

  lemma ClosesPrefix(s: StreamState, out: seq<Event>, rest: seq<Event>)
    requires out == Closes(s) + rest
    ensures forall j :: 0 <= j < |s.tools| && s.tools[j].started ==> BlockStop(s.tools[j].index + Offset(s)) in out
    ensures forall j :: 0 <= j < |s.cfpCalls| ==> BlockStop(s.cfpCalls[j].index) in out
  {
    forall j | 0 <= j < |s.tools| && s.tools[j].started
      ensures BlockStop(s.tools[j].index + Offset(s)) in out
    {
      ToolStopsCover(s.tools, Offset(s), j);
    }
    forall j | 0 <= j < |s.cfpCalls|
      ensures BlockStop(s.cfpCalls[j].index) in out
    {
      CallStopsCover(s.cfpCalls, j);
    }
  }

  /** Text, tool stops and the closing events open no `tool_use` block. */
  lemma FinishNoToolStarts(env: Env, s: StreamState, k: Kind)
    requires k.ToolStartsAt?
    ensures Count(FinishStream(env, s).events, k) == 0
  {
    var t := PlainStep(env, s);
    var b := FinishBody(env, s);
    ToolStopsCount(s.tools, Offset(s), k);
    CallStopsCount(s.cfpCalls, k);
    CountAppend(ToolStops(s.tools, Offset(s)), CallStops(s.cfpCalls), k);
    if FinishPlain(env, s).Some? {
      CountTwo(TextBlockStart, TextDelta(FinishPlain(env, s).value), k);
      CountOne(TextBlockStart, k);
      CountOne(TextDelta(FinishPlain(env, s).value), k);
    }
    Uncounted(BlockStop(0), k);
    CountAppend(Closes(s), t.events, k);
    CountAppend(Closes(s) + t.events, CloseText(t.next).events, k);
    var tail := Tail(StopReasonOf(b.next.finish, b.next.cfpHasToolCalls, b.next.tools != []), b.next.outputTokens);
    ClosingCount(tail, k);
    CountAppend(b.events, tail, k);
  }

  /** In direct mode the finish sends no text, so the text block's start is left as it was. */
  lemma DirectFinishText(env: Env, s: StreamState)
    requires !s.cfpUsed
    ensures FinishStream(env, s).next.textStarted == s.textStarted
  {
  }

  // ---------------------------------------------------------------- chunks

  /** The three branches of a chunk with a choice, before its finish check. */
  function ChunkBody(env: Env, s: StreamState, d: Delta, parsed: Option<seq<CfpEvent>>): Step
  {
    if d.toolCalls != [] && !s.cfpUsed then
      var t := ToolDeltas(env.uuids, s, d.toolCalls);
      Step(t.next.(finish := Some("tool_use")), t.events)
    else if s.cfpUsed && d.content.Some? && d.content.value != "" then
      CfpChunk(env, s, d.content.value, parsed)
    else if !s.cfpUsed && d.content.Some? && d.content.value != "" && d.toolCalls == [] then
      PlainTextChunk(s, d.content.value)
    else Step(s, [])
  }

  /** Whether the finish branch runs: a non-empty finish reason and no stop sent yet. */
  predicate ShouldFinish(s: StreamState)
  {
    s.finish.Some? && s.finish.value != "" && !s.stopSent
  }

  /** The state as a chunk arrives: its usage sets the output tokens, its first choice the finish reason. */
  function Received(s: StreamState, chunk: Chunk): (r: StreamState)
    ensures r == s.(outputTokens := r.outputTokens, finish := r.finish)
    ensures r.outputTokens == if chunk.completionTokens.Some? then chunk.completionTokens.value else s.outputTokens
    ensures r.finish == if chunk.choice.Some? then chunk.choice.value.finishReason else s.finish
  {
    var s0 := if chunk.completionTokens.Some? then s.(outputTokens := chunk.completionTokens.value) else s;
    if chunk.choice.Some? then s0.(finish := chunk.choice.value.finishReason) else s0
  }

  /**
   * One chunk: the state it arrives in goes through one branch of its first choice, and the
   * finish branch runs when the finish reason is set.
   */
  function ChunkStep(env: Env, s: StreamState, chunk: Chunk): Step
  {
    var s1 := Received(s, chunk);
    match chunk.choice
    case None => Step(s1, [])
    case Some(choice) =>
      var b := ChunkBody(env, s1, choice.delta, chunk.cfpEvents);
      if ShouldFinish(b.next) then Then(b, FinishStream(env, b.next)) else b
  }

  lemma CfpChunkAdvances(env: Env, s: StreamState, content: string, parsed: Option<seq<CfpEvent>>)
    ensures Advances(s, CfpChunk(env, s, content, parsed))
  {
    var s0 := s.(accumulated := s.accumulated + content);
    match parsed
    case Some(evs) => CfpEventsAdvances(env, s0, evs);
    case None => SendTextAdvances(s0, content);
  }

  lemma ChunkBodyAdvances(env: Env, s: StreamState, d: Delta, parsed: Option<seq<CfpEvent>>)
    ensures Advances(s, ChunkBody(env, s, d, parsed))
  {
    if d.toolCalls != [] && !s.cfpUsed {
      ToolDeltasAdvances(env.uuids, s, d.toolCalls);
    } else if s.cfpUsed && d.content.Some? && d.content.value != "" {
      CfpChunkAdvances(env, s, d.content.value, parsed);
    } else if !s.cfpUsed && d.content.Some? && d.content.value != "" && d.toolCalls == [] {
      SendTextAdvances(s.(accumulated := s.accumulated + d.content.value), d.content.value);
    }
  }

  /** Before the stop a chunk either stays inside the message or ends it. */
  predicate RunShape(s: StreamState, r: Step)
  {
    (r.next.stopSent ==> Ends(s, r)) && (!r.next.stopSent ==> Advances(s, r))
  }

  lemma ChunkShape(env: Env, s: StreamState, chunk: Chunk)
    requires !s.stopSent
    ensures RunShape(s, ChunkStep(env, s, chunk))
  {
    var s1 := Received(s, chunk);
    if chunk.choice.Some? {
      var b := ChunkBody(env, s1, chunk.choice.value.delta, chunk.cfpEvents);
      ChunkBodyAdvances(env, s1, chunk.choice.value.delta, chunk.cfpEvents);
      if ShouldFinish(b.next) {
        FinishEnds(env, b.next);
        AdvancesThenEnds(s, b, FinishStream(env, b.next));
      }
    }
  }

  // ---------------------------------------------------------------- the stream

  /** The chunks in order; once the stop is sent the handler has returned and reads no more. */
  function Run(env: Env, s: StreamState, chunks: seq<Chunk>): Step
    decreases |chunks|
  {
    if chunks == [] then Step(s, [])
    else
      var p := Run(env, s, chunks[..|chunks| - 1]);
      if p.next.stopSent then p else Then(p, ChunkStep(env, p.next, chunks[|chunks| - 1]))
  }

  lemma RunStep(env: Env, s: StreamState, p: Step, chunk: Chunk)
    requires !s.stopSent && RunShape(s, p)
    ensures RunShape(s, if p.next.stopSent then p else Then(p, ChunkStep(env, p.next, chunk)))
  {
    if !p.next.stopSent {
      var q := ChunkStep(env, p.next, chunk);
      ChunkShape(env, p.next, chunk);
      if q.next.stopSent {
        AdvancesThenEnds(s, p, q);
      } else {
        AdvancesThen(s, p, q);
      }
    }
  }

  lemma {:induction false} RunShapes(env: Env, s: StreamState, chunks: seq<Chunk>)
    requires !s.stopSent
    ensures RunShape(s, Run(env, s, chunks))
    decreases |chunks|
  {
    if chunks != [] {
      RunShapes(env, s, chunks[..|chunks| - 1]);
      RunStep(env, s, Run(env, s, chunks[..|chunks| - 1]), chunks[|chunks| - 1]);
    }
  }

  /** Once the stop is sent, later chunks change nothing. */
  lemma {:induction false} RunAfterStop(env: Env, s: StreamState, chunks: seq<Chunk>, more: seq<Chunk>)
    requires Run(env, s, chunks).next.stopSent
    ensures Run(env, s, chunks + more) == Run(env, s, chunks)
    decreases |more|
  {
    if more == [] {
      assert chunks + more == chunks;
    } else {
      var m := more[..|more| - 1];
      RunAfterStop(env, s, chunks, m);
      assert (chunks + more)[..|chunks + more| - 1] == chunks + m;
    }
  }

  /**
   * The events of the whole response: `message_start`, the chunks, and, when the stream ends
   * without the finish branch, the closing events: those of an `error` when the upstream
   * raised, else those of the last finish reason.
   */
  function Stream(env: Env, cfpUsed: bool, messageId: string, model: string,
                  chunks: seq<Chunk>, upstreamFails: bool): seq<Event>
  {
    var r := Run(env, Initial(cfpUsed), chunks);
    [MessageStart(messageId, model)] + r.events
      + (if r.next.stopSent then []
         else if upstreamFails then Tail("error", 0)
         else Tail(StopReasonOf(r.next.finish, r.next.cfpHasToolCalls, r.next.tools != []), r.next.outputTokens))
  }

  lemma Framed(m: Event, body: seq<Event>, t: seq<Event>)
    requires m.MessageStart? && Body(body) && Count(body, TextStarts) <= 1
    requires |t| == 3 && t[0].MessageDelta? && t[1..] == [MessageStop, Done]
    ensures var out := [m] + body + t;
      && |out| >= 4 && out[0] == m && out[|out| - 3] == t[0] && out[|out| - 2..] == [MessageStop, Done]
      && Count(out, MessageStarts) == 1 && Count(out, MessageDeltas) == 1 && Count(out, MessageStops) == 1
      && Count(out, TextStarts) <= 1
  {
    var out := [m] + body + t;
    assert out[|out| - 2..] == t[1..];
    forall kind: Kind
      ensures Count(out, kind) == Count([m], kind) + Count(body, kind) + Count(t, kind)
    {
      CountAppend([m] + body, t, kind);
      CountAppend([m], body, kind);
    }
    CountOne(m, MessageStarts);
    CountOne(m, MessageDeltas);
    CountOne(m, MessageStops);
    CountOne(m, TextStarts);
    ClosingCount(t, MessageStarts);
    ClosingCount(t, MessageDeltas);
    ClosingCount(t, MessageStops);
    ClosingCount(t, TextStarts);
  }

  /**
   * The protocol of every response: `message_start` first, exactly one `message_start`,
   * `message_delta` and `message_stop`, the last three events `message_delta`,
   * `message_stop`, `[DONE]`, and the text block opened at most once.
   */
  lemma StreamProtocol(env: Env, cfpUsed: bool, messageId: string, model: string,
                       chunks: seq<Chunk>, upstreamFails: bool)
    ensures var out := Stream(env, cfpUsed, messageId, model, chunks, upstreamFails);
      && |out| >= 4 && out[0] == MessageStart(messageId, model)
      && Count(out, MessageStarts) == 1 && Count(out, MessageDeltas) == 1 && Count(out, MessageStops) == 1
      && out[|out| - 3].MessageDelta? && out[|out| - 2..] == [MessageStop, Done]
      && Count(out, TextStarts) <= 1
  {
    var s := Initial(cfpUsed);
    var r := Run(env, s, chunks);
    RunShapes(env, s, chunks);
    var t := if upstreamFails then Tail("error", 0)
             else Tail(StopReasonOf(r.next.finish, r.next.cfpHasToolCalls, r.next.tools != []), r.next.outputTokens);
    var out := Stream(env, cfpUsed, messageId, model, chunks, upstreamFails);
    assert out == [MessageStart(messageId, model)] + r.events + (if r.next.stopSent then [] else t);
    FramedRun(MessageStart(messageId, model), s, r, t, out);
  }

  /** The framing of a run that has the shape of the chunks: `message_start`, the run, and the closing events unless it ended. */
  lemma FramedRun(m: Event, s: StreamState, r: Step, t: seq<Event>, out: seq<Event>)
    requires m.MessageStart? && !s.textStarted && RunShape(s, r)
    requires |t| == 3 && t[0].MessageDelta? && t[1..] == [MessageStop, Done]
    requires out == [m] + r.events + (if r.next.stopSent then [] else t)
    ensures && |out| >= 4 && out[0] == m
            && Count(out, MessageStarts) == 1 && Count(out, MessageDeltas) == 1 && Count(out, MessageStops) == 1
            && out[|out| - 3].MessageDelta? && out[|out| - 2..] == [MessageStop, Done]
            && Count(out, TextStarts) <= 1
  {
    if r.next.stopSent {
      assert out == [m] + r.events;
      FramedEnded(m, r.events);
    } else {
      assert out == [m] + r.events + t;
      Framed(m, r.events, t);
    }
  }

  /** `message_start` before the events of a run that ended. */
  lemma FramedEnded(m: Event, evs: seq<Event>)
    requires m.MessageStart? && |evs| >= 3 && Body(evs[..|evs| - 3]) && Count(evs, TextStarts) <= 1
    requires evs[|evs| - 3].MessageDelta? && evs[|evs| - 2..] == [MessageStop, Done]
    ensures var out := [m] + evs;
      && |out| >= 4 && out[0] == m
      && Count(out, MessageStarts) == 1 && Count(out, MessageDeltas) == 1 && Count(out, MessageStops) == 1
      && out[|out| - 3].MessageDelta? && out[|out| - 2..] == [MessageStop, Done]
      && Count(out, TextStarts) <= 1
  {
    var n := |evs|;
    var body := evs[..n - 3];
    var last := evs[n - 3..];
    assert evs == body + last;
    assert [m] + evs == [m] + body + last;
    CountAppend(body, last, TextStarts);
    Framed(m, body, last);
  }

  /** Chunks after the one that sends the stop are never read, and an upstream failure after it changes nothing. */
  lemma StreamIgnoresRest(env: Env, cfpUsed: bool, messageId: string, model: string,
                          chunks: seq<Chunk>, more: seq<Chunk>, upstreamFails: bool)
    requires Run(env, Initial(cfpUsed), chunks).next.stopSent
    ensures Stream(env, cfpUsed, messageId, model, chunks + more, upstreamFails)
         == Stream(env, cfpUsed, messageId, model, chunks, false)
  {
    RunAfterStop(env, Initial(cfpUsed), chunks, more);
  }

  // ---------------------------------------------------------------- early finish and interruption

  /** The body of a direct-mode chunk with tool calls: its deltas, and the finish reason `tool_use`. */
  lemma ToolChunkBody(env: Env, s: StreamState, d: Delta, parsed: Option<seq<CfpEvent>>)
    requires !s.stopSent && !s.cfpUsed && d.toolCalls != []
    ensures var t := ToolDeltas(env.uuids, s, d.toolCalls);
      var b := ChunkBody(env, s, d, parsed);
      && b == Step(t.next.(finish := Some("tool_use")), t.events)
      && ShouldFinish(b.next) && Advances(s, b) && b.next.textStarted == s.textStarted
  {
    ToolDeltasAdvances(env.uuids, s, d.toolCalls);
  }

  /**
   * A direct-mode chunk with tool calls ends the message on that chunk: the finish reason
   * becomes `tool_use`, so the finish branch runs, opening no text block, and its stop reason is
   * `tool_use` when some delta is a `function` call.
   */
  lemma ToolChunkEndsMessage(env: Env, s: StreamState, chunk: Chunk)
    requires !s.stopSent && !s.cfpUsed && chunk.choice.Some? && chunk.choice.value.delta.toolCalls != []
    ensures var r := ChunkStep(env, s, chunk);
      var tcs := chunk.choice.value.delta.toolCalls;
      && Ends(s, r) && r.next.textStarted == s.textStarted && Count(r.events, TextStarts) == 0
      && ((exists j :: 0 <= j < |tcs| && IsFunctionCall(tcs[j])) ==> r.events[|r.events| - 3].stopReason == "tool_use")
  {
    var s1 := Received(s, chunk);
    var d := chunk.choice.value.delta;
    var b := ChunkBody(env, s1, d, chunk.cfpEvents);
    ToolChunkBody(env, s1, d, chunk.cfpEvents);
    var f := FinishStream(env, b.next);
    FinishEnds(env, b.next);
    DirectFinishText(env, b.next);
    AdvancesThenEnds(s, b, f);
    var r := Then(b, f);
    assert r.events[|r.events| - 3] == f.events[|f.events| - 3];
    if exists j :: 0 <= j < |d.toolCalls| && IsFunctionCall(d.toolCalls[j]) {
      var j :| 0 <= j < |d.toolCalls| && IsFunctionCall(d.toolCalls[j]);
      ToolDeltasHas(env.uuids, s1, d.toolCalls, d.toolCalls[j].index);
    }
  }

  /** A direct-mode chunk with tool calls is its deltas, the finish reason `tool_use`, and the finish. */
  lemma ToolChunkStep(env: Env, s: StreamState, chunk: Chunk)
    requires !s.stopSent && !s.cfpUsed && chunk.choice.Some? && chunk.choice.value.delta.toolCalls != []
    ensures var t := ToolDeltas(env.uuids, Received(s, chunk), chunk.choice.value.delta.toolCalls);
      var b := Step(t.next.(finish := Some("tool_use")), t.events);
      ChunkStep(env, s, chunk) == Then(b, FinishStream(env, b.next))
  {
    ToolChunkBody(env, Received(s, chunk), chunk.choice.value.delta, chunk.cfpEvents);
  }

  /** The counting half of `ToolChunkStarts`, over any result `t` of the deltas from tools `tools`. */
  lemma ToolChunkStartsOf(env: Env, tools: seq<ToolState>, t: Step, kind: Kind, k: nat, added: bool)
    requires kind.ToolStartsAt?
    requires Count(t.events, kind) == if HasTool(t.next.tools, k) && !HasTool(tools, k) then 1 else 0
    requires HasTool(t.next.tools, k) <==> HasTool(tools, k) || added
    ensures var b := Step(t.next.(finish := Some("tool_use")), t.events);
      Count(Then(b, FinishStream(env, b.next)).events, kind) == if added && !HasTool(tools, k) then 1 else 0
  {
    var b := Step(t.next.(finish := Some("tool_use")), t.events);
    var f := FinishStream(env, b.next);
    FinishNoToolStarts(env, b.next, kind);
    assert Then(b, f).events == b.events + f.events;
    CountAppend(b.events, f.events, kind);
  }

  /**
   * In that chunk every upstream tool index of a `function` delta that was not tracked gets
   * exactly one `tool_use` block start, at the index shifted past the text block, and no
   * other index gets one.
   */
  lemma ToolChunkStarts(env: Env, s: StreamState, chunk: Chunk, k: nat)
    requires !s.stopSent && !s.cfpUsed && chunk.choice.Some? && chunk.choice.value.delta.toolCalls != []
    requires AllStarted(s.tools)
    ensures var tcs := chunk.choice.value.delta.toolCalls;
      Count(ChunkStep(env, s, chunk).events, ToolStartsAt(k + Offset(s)))
      == if CallsAt(tcs, k) && !HasTool(s.tools, k) then 1 else 0
  {
    var tcs := chunk.choice.value.delta.toolCalls;
    var s1 := Received(s, chunk);
    assert Offset(s1) == Offset(s) && s1.tools == s.tools;
    var t := ToolDeltas(env.uuids, s1, tcs);
    var kind := ToolStartsAt(k + Offset(s1));
    ToolStartsOnce(env.uuids, s1, tcs, k);
    ToolDeltasHas(env.uuids, s1, tcs, k);
    ToolChunkStartsOf(env, s1.tools, t, kind, k, CallsAt(tcs, k));
    var b := Step(t.next.(finish := Some("tool_use")), t.events);
    ToolChunkStep(env, s, chunk);
    assert ChunkStep(env, s, chunk) == Then(b, FinishStream(env, b.next));
  }

  /** No `content_block_stop` among the events. */
  predicate NoBlockStops(evs: seq<Event>)
  {
    forall i :: 0 <= i < |evs| ==> !evs[i].BlockStop?
  }

  /** The closing events open no text block. */
  lemma TailTextStarts(stopReason: string, outputTokens: int)
    ensures Count(Tail(stopReason, outputTokens), TextStarts) == 0
  {
    var t := Tail(stopReason, outputTokens);
    assert t == [t[0]] + [MessageStop, Done];
    CountAppend([t[0]], [MessageStop, Done], TextStarts);
    CountOne(t[0], TextStarts);
    CountTwo(MessageStop, Done, TextStarts);
    CountOne(MessageStop, TextStarts);
    CountOne(Done, TextStarts);
  }

  /** `message_start`, a body and the closing events: only the body opens or stops blocks. */
  lemma Interrupted(m: Event, body: seq<Event>, tail: seq<Event>)
    requires m.MessageStart? && Count(tail, TextStarts) == 0 && NoBlockStops(tail)
    ensures Count([m] + body + tail, TextStarts) == Count(body, TextStarts)
    ensures NoBlockStops(body) ==> NoBlockStops([m] + body + tail)
  {
    CountOne(m, TextStarts);
    CountAppend([m], body, TextStarts);
    CountAppend([m] + body, tail, TextStarts);
  }

  /**
   * In direct mode a chunk that does not end the message neither stops a block nor closes the
   * text: a chunk with tool calls always sets the finish reason `tool_use` and ends it.
   */
  lemma DirectChunkKeepsTextOpen(env: Env, s: StreamState, chunk: Chunk)
    requires !s.stopSent && !s.cfpUsed && !s.textClosed
    requires !ChunkStep(env, s, chunk).next.stopSent
    ensures NoBlockStops(ChunkStep(env, s, chunk).events) && !ChunkStep(env, s, chunk).next.textClosed
  {
    var s1 := Received(s, chunk);
    if chunk.choice.Some? {
      var d := chunk.choice.value.delta;
      var b := ChunkBody(env, s1, d, chunk.cfpEvents);
      ChunkBodyAdvances(env, s1, d, chunk.cfpEvents);
      if ShouldFinish(b.next) {
        assert false;
      } else if d.toolCalls != [] {
        assert false;
      }
    }
  }

  /** Until the stop, a direct-mode stream has stopped no block and has not closed its text. */
  lemma {:induction false} DirectRunKeepsTextOpen(env: Env, s: StreamState, chunks: seq<Chunk>)
    requires !s.stopSent && !s.cfpUsed && !s.textClosed
    requires !Run(env, s, chunks).next.stopSent
    ensures NoBlockStops(Run(env, s, chunks).events) && !Run(env, s, chunks).next.textClosed
    decreases |chunks|
  {
    if chunks != [] {
      var init := chunks[..|chunks| - 1];
      var p := Run(env, s, init);
      var q := ChunkStep(env, p.next, chunks[|chunks| - 1]);
      assert !p.next.stopSent;
      DirectRunKeepsTextOpen(env, s, init);
      RunShapes(env, s, init);
      DirectChunkKeepsTextOpen(env, p.next, chunks[|chunks| - 1]);
      assert Run(env, s, chunks).events == p.events + q.events;
    }
  }

  /**
   * A stream that ends without the finish branch gets the closing events only, with no
   * `content_block_stop`: the text block is opened exactly when text was sent, and in direct
   * mode no block is ever stopped, so an opened text block stays open.
   */
  lemma InterruptedLeavesTextOpen(env: Env, cfpUsed: bool, messageId: string, model: string,
                                  chunks: seq<Chunk>, upstreamFails: bool)
    requires !Run(env, Initial(cfpUsed), chunks).next.stopSent
    ensures var r := Run(env, Initial(cfpUsed), chunks);
      var out := Stream(env, cfpUsed, messageId, model, chunks, upstreamFails);
      var tail := if upstreamFails then Tail("error", 0)
                  else Tail(StopReasonOf(r.next.finish, r.next.cfpHasToolCalls, r.next.tools != []), r.next.outputTokens);
      && out == [MessageStart(messageId, model)] + r.events + tail
      && NoBlockStops(tail)
      && Count(out, TextStarts) == (if r.next.textStarted then 1 else 0)
      && (!cfpUsed ==> !r.next.textClosed && NoBlockStops(out))
  {
    var s := Initial(cfpUsed);
    var r := Run(env, s, chunks);
    var tail := if upstreamFails then Tail("error", 0)
                else Tail(StopReasonOf(r.next.finish, r.next.cfpHasToolCalls, r.next.tools != []), r.next.outputTokens);
    assert Stream(env, cfpUsed, messageId, model, chunks, upstreamFails)
        == [MessageStart(messageId, model)] + r.events + tail;
    RunShapes(env, s, chunks);
    TailTextStarts(tail[0].stopReason, tail[0].outputTokens);
    Interrupted(MessageStart(messageId, model), r.events, tail);
    if !cfpUsed {
      DirectRunKeepsTextOpen(env, s, chunks);
    }
  }

  /** One text chunk and no finish reason: the text block is started and never stopped. */
  lemma InterruptedTextExample(env: Env)
    ensures var hi := Chunk(None, Some(StreamChoice(Delta(Some("Hi"), []), None)), None);
      Stream(env, false, "msg_1", "m", [hi], false)
      == [MessageStart("msg_1", "m"), TextBlockStart, TextDelta("Hi"), MessageDelta("end_turn", 0), MessageStop, Done]
  {
    var hi := Chunk(None, Some(StreamChoice(Delta(Some("Hi"), []), None)), None);
    var s1 := Initial(false).(finish := None);
    assert ChunkBody(env, s1, Delta(Some("Hi"), []), None) == SendText(s1.(accumulated := "Hi"), "Hi");
    assert [hi][..0] == [];
  }

  /**
   * In CFP mode a call that starts before any text takes block index 0, and a later result
   * opens the text block, also at index 0.
   */
  lemma CfpTextAfterCallSharesIndex(env: Env, id: string, name: string, result: Json)
    ensures CfpEvents(env, Initial(true), [CallStart(id, name), ResultPiece(result)]).events
         == [ToolUseStart(0, env.uuids(0), name), TextBlockStart, TextDelta(env.codec.dumps(result, NonAscii))]
  {
    var evs := [CallStart(id, name), ResultPiece(result)];
    var s0 := Initial(true);
    assert evs[..1] == [CallStart(id, name)];
    assert evs[..1][..0] == [];
    var e1 := CfpEventStep(env, s0, CallStart(id, name));
    assert ToolOpening(0, env.uuids(0), name, false, false) == [ToolUseStart(0, env.uuids(0), name)];
    assert e1.events == [ToolUseStart(0, env.uuids(0), name)] && !e1.next.textStarted;
    assert CfpEvents(env, s0, []) == Step(s0, []);
    var a := CfpEvents(env, s0, evs[..1]);
    assert a == Then(Step(s0, []), e1);
    var e2 := CfpEventStep(env, e1.next, ResultPiece(result));
    assert e2.events == [TextBlockStart, TextDelta(env.codec.dumps(result, NonAscii))];
    assert CfpEvents(env, s0, evs) == Then(a, e2);
  }
}
