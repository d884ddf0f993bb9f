/**
 * The Chat-Function-Protocol adapter. For a model that cannot call functions itself, the
 * request's tools are described in one system message, function calls and results in the
 * history become `<cfp>` blocks, and `<cfp>` call blocks in the reply become tool calls.
 */
module CfpAdapter {
  import opened Wrappers
  import opened Text
  import opened Json
  import opened ApiTypes
  import opened CfpCodec

  // ---------------------------------------------------------------- model names

  /** `CFP_ENABLED_SUFFIXES`, in the order they are tried. */
  const CfpSuffixes: seq<string> := ["-textonly", "-cfp", "-text"]

  /** The position of the first suffix, from the `i`-th on, that `name` ends with. */
  function FirstSuffix(name: string, i: nat): (r: Option<nat>)
    requires i <= |CfpSuffixes|
    ensures r.Some? ==> i <= r.value < |CfpSuffixes| && EndsWith(name, CfpSuffixes[r.value])
    ensures r.Some? ==> forall j :: i <= j < r.value ==> !EndsWith(name, CfpSuffixes[j])
    ensures r.None? ==> forall j :: i <= j < |CfpSuffixes| ==> !EndsWith(name, CfpSuffixes[j])
    decreases |CfpSuffixes| - i
  {
    if i == |CfpSuffixes| then None
    else if EndsWith(name, CfpSuffixes[i]) then Some(i)
    else FirstSuffix(name, i + 1)
  }

  /** `should_use_cfp(model_name)`: the name ends with one of the three suffixes. */
  function ShouldUseCfp(name: string): (r: bool)
    ensures r <==> EndsWith(name, "-textonly") || EndsWith(name, "-cfp") || EndsWith(name, "-text")
    ensures name == "" ==> !r
  {
    if name == "" then false else FirstSuffix(name, 0).Some?
  }

  /**
   * `normalize_model_name(model_name)`: the name without the first suffix, in list order,
   * that it ends with; a name with none of them is returned as it is.
   */
  function NormalizeModelName(name: string): (r: string)
    ensures StartsWith(name, r)
    ensures |r| < |name| <==> ShouldUseCfp(name)
    ensures !ShouldUseCfp(name) ==> r == name
    ensures ShouldUseCfp(name) ==> r + CfpSuffixes[FirstSuffix(name, 0).value] == name
  {
    if name == "" then name
    else
      match FirstSuffix(name, 0)
      case Some(k) =>
        assert name[..|name| - |CfpSuffixes[k]|] + CfpSuffixes[k] == name;
        name[..|name| - |CfpSuffixes[k]|]
      case None => name
  }

  // ---------------------------------------------------------------- the tools prompt

  /** `CFP_GUIDE`. */
  const CfpGuide: string :=
    "You follow the Chat-Function-Protocol (CFP).\nWhen a tool is required, output ONLY:\n"
    + "<cfp>{\"role\":\"call\",\"id\":\"$UUID\",\"name\":\"$FUNC\",\"args\":$ARGS}</cfp>\n"
    + "After you receive a role=\"result\" CFP block, think and reply normally.\n"

  /** The heading line of the tools prompt. */
  const PromptHeading: string := "Available functions:\n"

  /**
   * The four lines of one tool: `fn = t.get("function", t)` must be a dict with a `name`;
   * the description defaults to `""`, the schema to `parameters`, then `input_schema`, then `{}`.
   */
  function ToolEntryLines(codec: Codec, t: Json): (r: Result<seq<string>>)
    ensures r.Ok? ==> |r.value| == 4 && r.value[3] == ""
    ensures r.Ok? ==> StartsWith(r.value[0], "**") && EndsWith(r.value[0], "**")
    ensures r.Ok? ==> StartsWith(r.value[1], "Description: ") && StartsWith(r.value[2], "Parameters: ")
    ensures r.Err? <==> !t.JObj? || !GetOr(t.fields, "function", t).JObj?
                        || !HasKey(GetOr(t.fields, "function", t).fields, "name")
  {
    if !t.JObj? then Err("AttributeError: object has no attribute 'get'")
    else
      var fn := GetOr(t.fields, "function", t);
      if !fn.JObj? then Err("TypeError: object is not subscriptable")
      else
        match Get(fn.fields, "name")
        case None => Err("KeyError: 'name'")
        case Some(name) =>
          var desc := GetOr(fn.fields, "description", JStr(""));
          var schema := GetOr(fn.fields, "parameters", GetOr(fn.fields, "input_schema", EmptyObj));
          var first := "**" + PyStr(codec, name) + "**";
          assert first[..2] == "**" && first[|first| - 2..] == "**";
          Ok([first, "Description: " + PyStr(codec, desc),
              "Parameters: " + codec.dumps(schema, Indent2NonAscii), ""])
  }

  /**
   * The lines of a tool that has a name: the name in bold, its description or nothing, and
   * its schema dumped with `indent=2`: `parameters` when present, else `input_schema`, else `{}`.
   */
  lemma ToolEntryContents(codec: Codec, t: Json)
    requires t.JObj? && GetOr(t.fields, "function", t).JObj? && HasKey(GetOr(t.fields, "function", t).fields, "name")
    ensures var fn := GetOr(t.fields, "function", t).fields;
      var r := ToolEntryLines(codec, t);
      && r.Ok?
      && r.value[0] == "**" + PyStr(codec, Get(fn, "name").value) + "**"
      && (!HasKey(fn, "description") ==> r.value[1] == "Description: ")
      && (HasKey(fn, "description") ==> r.value[1] == "Description: " + PyStr(codec, Get(fn, "description").value))
      && (HasKey(fn, "parameters") ==>
            r.value[2] == "Parameters: " + codec.dumps(Get(fn, "parameters").value, Indent2NonAscii))
      && (!HasKey(fn, "parameters") && HasKey(fn, "input_schema") ==>
            r.value[2] == "Parameters: " + codec.dumps(Get(fn, "input_schema").value, Indent2NonAscii))
      && (!HasKey(fn, "parameters") && !HasKey(fn, "input_schema") ==>
            r.value[2] == "Parameters: " + codec.dumps(EmptyObj, Indent2NonAscii))
  {
    assert "Description: " + PyStr(codec, JStr("")) == "Description: ";
  }

  function ToolLines(codec: Codec, tools: seq<Json>): seq<Result<seq<string>>>
  {
    seq(|tools|, i requires 0 <= i < |tools| => ToolEntryLines(codec, tools[i]))
  }

  /** The prompt's lines: the heading, then each tool's four lines. */
  function PromptLines(codec: Codec, tools: seq<Json>): Result<seq<string>>
  {
    match Collect(ToolLines(codec, tools))
    case Err(e) => Err(e)
    case Ok(entries) => Ok([PromptHeading] + Flatten(entries))
  }

  /** `tools_to_system_prompt(tools)`: the lines joined with newlines. */
  function ToolsToSystemPrompt(codec: Codec, tools: seq<Json>): Result<string>
  {
    match PromptLines(codec, tools)
    case Err(e) => Err(e)
    case Ok(lines) => Ok(Join("\n", lines))
  }

  /** The loop of `tools_to_system_prompt`, appending four lines per tool. */
  method BuildToolsPrompt(codec: Codec, tools: seq<Json>) returns (r: Result<string>)
    ensures r == ToolsToSystemPrompt(codec, tools)
  {
    var lines := [PromptHeading];
    ghost var entries: seq<seq<string>> := [];
    var i := 0;
    while i < |tools|
      invariant 0 <= i <= |tools|
      invariant Prompted(codec, tools, i, entries, lines)
    {
      var entry := ToolEntryLines(codec, tools[i]);
      PromptStep(codec, tools, i, entries, lines);
      if entry.Err? {
        return Err(entry.error);
      }
      lines := lines + entry.value;
      entries := entries + [entry.value];
      i := i + 1;
    }
    PromptDone(codec, tools, entries, lines);
    return Ok(Join("\n", lines));
  }

  /** The loop's state after `i` tools: their entries, and the heading followed by their lines. */
  ghost predicate Prompted(codec: Codec, tools: seq<Json>, i: nat, entries: seq<seq<string>>, lines: seq<string>)
  {
    i <= |tools| && Collect(ToolLines(codec, tools)[..i]) == Ok(entries) && lines == [PromptHeading] + Flatten(entries)
  }

  /** One more tool: its lines are appended, or its error is the prompt's. */
  lemma PromptStep(codec: Codec, tools: seq<Json>, i: nat, entries: seq<seq<string>>, lines: seq<string>)
    requires i < |tools| && Prompted(codec, tools, i, entries, lines)
    ensures var entry := ToolEntryLines(codec, tools[i]);
      && (entry.Err? ==> ToolsToSystemPrompt(codec, tools) == Err(entry.error))
      && (entry.Ok? ==> Prompted(codec, tools, i + 1, entries + [entry.value], lines + entry.value))
  {
    var rs := ToolLines(codec, tools);
    var entry := ToolEntryLines(codec, tools[i]);
    assert entry == rs[i];
    CollectStep(rs, i, entries);
    if entry.Ok? {
      FlattenSnoc(entries, entry.value);
      AppendAssoc([PromptHeading], Flatten(entries), entry.value);
    }
  }

  /** After the last tool the lines are the prompt's. */
  lemma PromptDone(codec: Codec, tools: seq<Json>, entries: seq<seq<string>>, lines: seq<string>)
    requires Prompted(codec, tools, |tools|, entries, lines)
    ensures ToolsToSystemPrompt(codec, tools) == Ok(Join("\n", lines))
  {
    var rs := ToolLines(codec, tools);
    assert rs[..|tools|] == rs;
  }

  /**
   * The prompt starts with the heading, and tool `i`'s four lines are lines `4i+1` to `4i+4`:
   * one entry per tool, in input order.
   */
  lemma PromptShape(codec: Codec, tools: seq<Json>)
    requires PromptLines(codec, tools).Ok?
    ensures var lines := PromptLines(codec, tools).value;
      && |lines| == 1 + 4 * |tools|
      && lines[0] == PromptHeading
      && forall i :: 0 <= i < |tools| ==>
           ToolEntryLines(codec, tools[i]).Ok? && lines[4 * i + 1..4 * i + 5] == ToolEntryLines(codec, tools[i]).value
    ensures StartsWith(ToolsToSystemPrompt(codec, tools).value, PromptHeading)
  {
    var entries := Collect(ToolLines(codec, tools)).value;
    ToolEntries(codec, tools);
    HeadedFours(PromptHeading, entries);
    assert PromptLines(codec, tools).value == [PromptHeading] + Flatten(entries);
    JoinPrefix("\n", PromptHeading, Flatten(entries));
  }

  /** When every tool has its lines, entry `i` is tool `i`'s four lines. */
  lemma ToolEntries(codec: Codec, tools: seq<Json>)
    requires Collect(ToolLines(codec, tools)).Ok?
    ensures var entries := Collect(ToolLines(codec, tools)).value;
      && |entries| == |tools|
      && forall i :: 0 <= i < |tools| ==> ToolEntryLines(codec, tools[i]) == Ok(entries[i]) && |entries[i]| == 4
  {
    var rs := ToolLines(codec, tools);
    var entries := Collect(rs).value;
    forall i | 0 <= i < |tools|
      ensures ToolEntryLines(codec, tools[i]) == Ok(entries[i]) && |entries[i]| == 4
    {
      assert rs[i] == Ok(entries[i]);
    }
  }

  // ---------------------------------------------------------------- build_cfp_messages

  /** `for x in v`: a list gives its items, a dict its keys, a string its characters; anything else raises. */
  function Iterate(v: Json): (r: Result<seq<Json>>)
    ensures r.Ok? <==> v.JArr? || v.JObj? || v.JStr?
    ensures v.JArr? ==> r == Ok(v.items)
  {
    match v
    case JArr(items) => Ok(items)
    case JObj(fs) => Ok(seq(|fs|, i requires 0 <= i < |fs| => JStr(fs[i].0)))
    case JStr(s) => Ok(seq(|s|, i requires 0 <= i < |s| => JStr([s[i]])))
    case _ => Err("TypeError: object is not iterable")
  }

  /** `m["role"]`: a message that is not a dict, or has no role, raises. */
  function RoleOf(m: Json): (r: Result<Json>)
    ensures r.Ok? <==> m.JObj? && HasKey(m.fields, "role")
    ensures r.Ok? ==> Get(m.fields, "role") == Some(r.value)
  {
    if !m.JObj? then Err("TypeError: indices must be integers")
    else
      match Get(m.fields, "role")
      case None => Err("KeyError: 'role'")
      case Some(role) => Ok(role)
  }

  predicate IsSystem(m: Json)
  {
    RoleOf(m) == Ok(JStr("system"))
  }

  /** The first loop, on one message: a system message's `content`, nothing for another. */
  function SystemContentOf(m: Json): (r: Result<seq<Json>>)
    ensures r.Ok? ==> |r.value| == if IsSystem(m) then 1 else 0
  {
    match RoleOf(m)
    case Err(e) => Err(e)
    case Ok(role) =>
      if role != JStr("system") then Ok([])
      else
        match Get(m.fields, "content")
        case None => Err("KeyError: 'content'")
        case Some(c) => Ok([c])
  }

  function SystemContentSteps(messages: seq<Json>): seq<Result<seq<Json>>>
  {
    seq(|messages|, i requires 0 <= i < |messages| => SystemContentOf(messages[i]))
  }

  /** The contents of the system messages, in order. */
  function SystemContents(messages: seq<Json>): Result<seq<Json>>
  {
    match Collect(SystemContentSteps(messages))
    case Err(e) => Err(e)
    case Ok(parts) => Ok(Flatten(parts))
  }

  /** `"\n\n".join(parts)` needs strings: a part that is not one raises. */
  function Texts(parts: seq<Json>): (r: Result<seq<string>>)
    ensures r.Ok? <==> forall i :: 0 <= i < |parts| ==> parts[i].JStr?
    ensures r.Ok? ==> |r.value| == |parts| && forall i :: 0 <= i < |parts| ==> parts[i] == JStr(r.value[i])
  {
    var rs := seq(|parts|, i requires 0 <= i < |parts| =>
      if parts[i].JStr? then Ok(parts[i].s) else Err("TypeError: sequence item: expected str instance"));
    assert forall i :: 0 <= i < |parts| ==> (rs[i].Ok? <==> parts[i].JStr?);
    Collect(rs)
  }

  /** `if tools: system_parts.append(tools_to_system_prompt(tools))`. */
  function PromptPart(codec: Codec, tools: Json): (r: Result<seq<Json>>)
    ensures r.Ok? ==> |r.value| == if Truthy(tools) then 1 else 0
  {
    if !Truthy(tools) then Ok([])
    else
      match Iterate(tools)
      case Err(e) => Err(e)
      case Ok(ts) =>
        match ToolsToSystemPrompt(codec, ts)
        case Err(e) => Err(e)
        case Ok(p) => Ok([JStr(p)])
  }

  /** The stripped guide, always the last system part. */
  function GuidePart(): string
  {
    Strip(CfpGuide)
  }

  /** The combined system message: the system contents, the tools prompt, the guide. */
  function SystemMessage(codec: Codec, messages: seq<Json>, tools: Json): Result<Dict>
  {
    match SystemContents(messages)
    case Err(e) => Err(e)
    case Ok(existing) =>
      match PromptPart(codec, tools)
      case Err(e) => Err(e)
      case Ok(prompt) =>
        match Texts(existing + prompt + [JStr(GuidePart())])
        case Err(e) => Err(e)
        case Ok(parts) => Ok([("role", JStr("system")), ("content", JStr(Join("\n\n", parts)))])
  }

  /** `f"<cfp>{json.dumps(doc, ensure_ascii=False)}</cfp>"`. */
  function CfpBlock(codec: Codec, doc: Dict): (r: string)
    ensures StartsWith(r, TagOpen) && EndsWith(r, TagClose)
  {
    var r := TagOpen + codec.dumps(JObj(doc), NonAscii) + TagClose;
    assert r[..|TagOpen|] == TagOpen && r[|r| - |TagClose|..] == TagClose;
    r
  }

  /** `json.loads(v)`: a value that is not a string, or text that is not JSON, raises. */
  function LoadsJson(codec: Codec, v: Json): (r: Result<Json>)
    ensures r.Ok? <==> v.JStr? && codec.loads(v.s).Some?
  {
    match v
    case JStr(s) =>
      (match codec.loads(s)
       case Some(j) => Ok(j)
       case None => Err("JSONDecodeError"))
    case _ => Err("TypeError: the JSON object must be str")
  }

  /** The call document written into the history for an assistant's `function_call`. */
  function CallDoc(callId: string, name: Json, args: Json): Dict
  {
    [("role", JStr("call")), ("id", JStr(callId)), ("name", name), ("args", args)]
  }

  function ResultDoc(callId: string, result: Json): Dict
  {
    [("role", JStr("result")), ("id", JStr(callId)), ("result", result)]
  }

  /**
   * The second loop, on message `i`: nothing for a system message, one message for any other.
   * `newId(i)` is the `new_call_id()` drawn for message `i`.
   */
  function CfpMessage(codec: Codec, newId: nat -> string, i: nat, m: Json): (r: Result<seq<Dict>>)
    ensures r.Ok? ==> |r.value| == if IsSystem(m) then 0 else 1
    ensures r.Ok? && !IsSystem(m) ==> Get(r.value[0], "role") != Some(JStr("system"))
  {
    match RoleOf(m)
    case Err(e) => Err(e)
    case Ok(role) =>
      var fs := m.fields;
      if role == JStr("system") then Ok([])
      else if role.JArr? || role.JObj? then Err("TypeError: unhashable type")
      else if (role == JStr("user") || role == JStr("assistant")) && !HasKey(fs, "function_call") then
        (match Get(fs, "content")
         case None => Err("KeyError: 'content'")
         case Some(c) => Ok([[("role", role), ("content", c)]]))
      else if role == JStr("assistant") && Truthy(GetOr(fs, "function_call", JNull)) then
        var call := GetOr(fs, "function_call", JNull);
        if !call.JObj? then Err("TypeError: object is not subscriptable")
        else
          (match (Get(call.fields, "name"), Get(call.fields, "arguments"))
           case (None, _) => Err("KeyError: 'name'")
           case (_, None) => Err("KeyError: 'arguments'")
           case (Some(name), Some(arguments)) =>
             (match LoadsJson(codec, arguments)
              case Err(e) => Err(e)
              case Ok(args) =>
                Ok([[("role", JStr("assistant")), ("content", JStr(CfpBlock(codec, CallDoc(newId(i), name, args))))]])))
      else if role == JStr("function") then
        var c := GetOr(fs, "content", JNull);
        (match LoadsJson(codec, if Truthy(c) then c else JStr("{}"))
         case Err(e) => Err(e)
         case Ok(res) => Ok([[("role", JStr("user")), ("content", JStr(CfpBlock(codec, ResultDoc(newId(i), res))))]]))
      else Ok([[("role", role), ("content", GetOr(fs, "content", JStr("")))]])
  }

  function MessageOuts(codec: Codec, newId: nat -> string, messages: seq<Json>): seq<Result<seq<Dict>>>
  {
    seq(|messages|, i requires 0 <= i < |messages| => CfpMessage(codec, newId, i, messages[i]))
  }

  /** The second loop's messages, in order. */
  function ConvertedMessages(codec: Codec, newId: nat -> string, messages: seq<Json>): Result<seq<Dict>>
  {
    match Collect(MessageOuts(codec, newId, messages))
    case Err(e) => Err(e)
    case Ok(outs) => Ok(Flatten(outs))
  }

  /** `build_cfp_messages(messages, tools)`: the system message, then one message per other one. */
  function CfpMessages(codec: Codec, newId: nat -> string, messages: seq<Json>, tools: Json): Result<seq<Dict>>
  {
    match SystemMessage(codec, messages, tools)
    case Err(e) => Err(e)
    case Ok(sys) =>
      match ConvertedMessages(codec, newId, messages)
      case Err(e) => Err(e)
      case Ok(rest) => Ok([sys] + rest)
  }

  /** The first loop of `build_cfp_messages`, gathering the system contents. */
  method GatherSystemContents(messages: seq<Json>) returns (r: Result<seq<Json>>)
    ensures r == SystemContents(messages)
  {
    var existing: seq<Json> := [];
    ghost var found: seq<seq<Json>> := [];
    var i := 0;
    while i < |messages|
      invariant 0 <= i <= |messages|
      invariant Gathered(messages, i, found) && existing == Flatten(found)
    {
      var step := SystemContentOf(messages[i]);
      GatherStep(messages, i, found);
      if step.Err? {
        return Err(step.error);
      }
      FlattenSnoc(found, step.value);
      existing := existing + step.value;
      found := found + [step.value];
      i := i + 1;
    }
    GatherDone(messages, found);
    return Ok(existing);
  }

  /** The first `i` messages gave the contents `found` without raising. */
  ghost predicate Gathered(messages: seq<Json>, i: nat, found: seq<seq<Json>>)
    requires i <= |messages|
  {
    Collect(SystemContentSteps(messages)[..i]) == Ok(found)
  }

  /** One more message: the loop raises what it raises, or gathers its contents. */
  lemma GatherStep(messages: seq<Json>, i: nat, found: seq<seq<Json>>)
    requires i < |messages| && Gathered(messages, i, found)
    ensures SystemContentOf(messages[i]).Err? ==> SystemContents(messages) == Err(SystemContentOf(messages[i]).error)
    ensures SystemContentOf(messages[i]).Ok? ==> Gathered(messages, i + 1, found + [SystemContentOf(messages[i]).value])
  {
    var steps := SystemContentSteps(messages);
    assert steps[i] == SystemContentOf(messages[i]);
    CollectStep(steps, i, found);
  }

  /** Every message read: the contents gathered, one after another. */
  lemma GatherDone(messages: seq<Json>, found: seq<seq<Json>>)
    requires Gathered(messages, |messages|, found)
    ensures SystemContents(messages) == Ok(Flatten(found))
  {
    assert SystemContentSteps(messages)[..|messages|] == SystemContentSteps(messages);
  }

  /** The second loop of `build_cfp_messages`, converting every message but the system ones. */
  method ConvertNonSystem(codec: Codec, newId: nat -> string, messages: seq<Json>) returns (r: Result<seq<Dict>>)
    ensures r == ConvertedMessages(codec, newId, messages)
  {
    var out: seq<Dict> := [];
    ghost var outs: seq<seq<Dict>> := [];
    var k := 0;
    while k < |messages|
      invariant 0 <= k <= |messages|
      invariant Collect(MessageOuts(codec, newId, messages)[..k]) == Ok(outs)
      invariant out == Flatten(outs)
    {
      var step := CfpMessage(codec, newId, k, messages[k]);
      CollectStep(MessageOuts(codec, newId, messages), k, outs);
      if step.Err? {
        return Err(step.error);
      }
      FlattenSnoc(outs, step.value);
      out := out + step.value;
      outs := outs + [step.value];
      k := k + 1;
    }
    assert MessageOuts(codec, newId, messages)[..k] == MessageOuts(codec, newId, messages);
    return Ok(out);
  }

  /** The combined system message of `build_cfp_messages`, from its first loop and the tools prompt. */
  method BuildSystemMessage(codec: Codec, messages: seq<Json>, tools: Json) returns (r: Result<Dict>)
    ensures r == SystemMessage(codec, messages, tools)
  {
    var existing := GatherSystemContents(messages);
    if existing.Err? {
      return Err(existing.error);
    }
    var prompt: seq<Json> := [];
    if Truthy(tools) {
      var ts := Iterate(tools);
      if ts.Err? {
        return Err(ts.error);
      }
      var p := BuildToolsPrompt(codec, ts.value);
      if p.Err? {
        return Err(p.error);
      }
      prompt := [JStr(p.value)];
    }
    assert Ok(prompt) == PromptPart(codec, tools);
    var parts := Texts(existing.value + prompt + [JStr(GuidePart())]);
    if parts.Err? {
      return Err(parts.error);
    }
    return Ok([("role", JStr("system")), ("content", JStr(Join("\n\n", parts.value)))]);
  }

  /** `build_cfp_messages(messages, tools)`: the system message, then the second loop. */
  method BuildCfpMessages(codec: Codec, newId: nat -> string, messages: seq<Json>, tools: Json)
    returns (r: Result<seq<Dict>>)
    ensures r == CfpMessages(codec, newId, messages, tools)
  {
    var sys := BuildSystemMessage(codec, messages, tools);
    if sys.Err? {
      return Err(sys.error);
    }
    var rest := ConvertNonSystem(codec, newId, messages);
    if rest.Err? {
      return Err(rest.error);
    }
    return Ok([sys.value] + rest.value);
  }

  /** The number of messages that are not system messages. */
  function NonSystemCount(messages: seq<Json>): nat
    decreases |messages|
  {
    if messages == [] then 0
    else NonSystemCount(messages[..|messages| - 1]) + if IsSystem(messages[|messages| - 1]) then 0 else 1
  }

  /** The second loop's output, up to message `n`: one message per non-system message, none of them a system one. */
  lemma {:induction false} OutsShape(codec: Codec, newId: nat -> string, messages: seq<Json>, n: nat, outs: seq<seq<Dict>>)
    requires n <= |messages| && Collect(MessageOuts(codec, newId, messages)[..n]) == Ok(outs)
    ensures |Flatten(outs)| == NonSystemCount(messages[..n])
    ensures forall d :: d in Flatten(outs) ==> Get(d, "role") != Some(JStr("system"))
    decreases n
  {
    var rs := MessageOuts(codec, newId, messages);
    if n > 0 {
      CollectInit(rs, n, outs);
      var init := outs[..n - 1];
      var last := outs[n - 1];
      OutsShape(codec, newId, messages, n - 1, init);
      FlattenSnoc(init, last);
      assert rs[n - 1] == CfpMessage(codec, newId, n - 1, messages[n - 1]);
      CfpMessageShape(codec, newId, n - 1, messages[n - 1], last);
      NonSystemCountSnoc(messages, n);
    } else {
      assert outs == [];
    }
  }

  /** One more message adds one to the count unless it is a system message. */
  lemma NonSystemCountSnoc(messages: seq<Json>, n: nat)
    requires 0 < n <= |messages|
    ensures NonSystemCount(messages[..n]) == NonSystemCount(messages[..n - 1]) + if IsSystem(messages[n - 1]) then 0 else 1
  {
    var pre := messages[..n];
    assert pre[..n - 1] == messages[..n - 1] && pre[n - 1] == messages[n - 1];
  }

  lemma CfpMessageShape(codec: Codec, newId: nat -> string, i: nat, m: Json, out: seq<Dict>)
    requires CfpMessage(codec, newId, i, m) == Ok(out)
    ensures |out| == if IsSystem(m) then 0 else 1
    ensures forall d :: d in out ==> Get(d, "role") != Some(JStr("system"))
  {
  }

  /** The converted messages: one per non-system message, none of them a system message. */
  lemma ConvertedShape(codec: Codec, newId: nat -> string, messages: seq<Json>)
    requires ConvertedMessages(codec, newId, messages).Ok?
    ensures var rest := ConvertedMessages(codec, newId, messages).value;
      && |rest| == NonSystemCount(messages)
      && forall k :: 0 <= k < |rest| ==> Get(rest[k], "role") != Some(JStr("system"))
  {
    var rs := MessageOuts(codec, newId, messages);
    var outs := Collect(rs).value;
    assert rs[..|messages|] == rs;
    assert messages[..|messages|] == messages;
    OutsShape(codec, newId, messages, |messages|, outs);
    var rest := Flatten(outs);
    forall k | 0 <= k < |rest|
      ensures Get(rest[k], "role") != Some(JStr("system"))
    {
      assert rest[k] in rest;
    }
  }

  /** The combined system message: role `system`, content ending with the stripped guide. */
  lemma SystemMessageShape(codec: Codec, messages: seq<Json>, tools: Json)
    requires SystemMessage(codec, messages, tools).Ok?
    ensures var sys := SystemMessage(codec, messages, tools).value;
      && Get(sys, "role") == Some(JStr("system"))
      && Get(sys, "content").Some? && Get(sys, "content").value.JStr?
      && EndsWith(Get(sys, "content").value.s, GuidePart())
  {
    var existing := SystemContents(messages).value;
    var prompt := PromptPart(codec, tools).value;
    var parts := Texts(existing + prompt + [JStr(GuidePart())]).value;
    TextsLast(existing + prompt, GuidePart(), parts);
    JoinSuffix("\n\n", parts[..|parts| - 1], GuidePart());
    RoleContent("system", Join("\n\n", parts));
  }

  /** The texts of parts ending with a string end with that string. */
  lemma TextsLast(init: seq<Json>, last: string, parts: seq<string>)
    requires Texts(init + [JStr(last)]) == Ok(parts)
    ensures parts == parts[..|parts| - 1] + [last]
  {
    assert (init + [JStr(last)])[|init|] == JStr(last);
  }

  /** The two keys of a `{"role": ..., "content": ...}` message. */
  lemma RoleContent(role: string, content: string)
    ensures Get([("role", JStr(role)), ("content", JStr(content))], "role") == Some(JStr(role))
    ensures Get([("role", JStr(role)), ("content", JStr(content))], "content") == Some(JStr(content))
  {
  }

  /**
   * The output of `build_cfp_messages`: a leading system message, the only one, whose content
   * ends with the stripped guide; then one message for each non-system message.
   */
  lemma CfpMessagesShape(codec: Codec, newId: nat -> string, messages: seq<Json>, tools: Json)
    requires CfpMessages(codec, newId, messages, tools).Ok?
    ensures var out := CfpMessages(codec, newId, messages, tools).value;
      && |out| == 1 + NonSystemCount(messages)
      && Get(out[0], "role") == Some(JStr("system"))
      && (forall k :: 1 <= k < |out| ==> Get(out[k], "role") != Some(JStr("system")))
      && Get(out[0], "content").Some? && Get(out[0], "content").value.JStr?
      && EndsWith(Get(out[0], "content").value.s, GuidePart())
  {
    var sys := SystemMessage(codec, messages, tools).value;
    var rest := ConvertedMessages(codec, newId, messages).value;
    SystemMessageShape(codec, messages, tools);
    ConvertedShape(codec, newId, messages);
    ConsIndex(sys, rest);
  }

  // ---------------------------------------------------------------- adapt_request_for_cfp

  /** `normalize_model_name` on the request's `model`: a falsy value is kept, a non-string raises. */
  function AdaptedModel(model: Json): (r: Result<Json>)
    ensures r.Ok? <==> !Truthy(model) || model.JStr?
    ensures model.JStr? ==> r == Ok(JStr(NormalizeModelName(model.s)))
  {
    if !Truthy(model) then Ok(model)
    else
      match model
      case JStr(s) => Ok(JStr(NormalizeModelName(s)))
      case _ => Err("AttributeError: object has no attribute 'endswith'")
  }

  function MessagesJson(ms: seq<Dict>): Json
  {
    JArr(seq(|ms|, i requires 0 <= i < |ms| => JObj(ms[i])))
  }

  /**
   * `adapt_request_for_cfp(req, cfp_enabled)`: unchanged with `False` unless CFP is enabled and
   * the request has tools; otherwise a copy with the CFP messages, the normalised model, no
   * `tools` and a `None` tool choice, with `True`.
   */
  function AdaptRequestForCfp(codec: Codec, newId: nat -> string, req: Dict, cfpEnabled: bool)
    : (r: Result<(Dict, bool)>)
    ensures !cfpEnabled || !Truthy(GetOr(req, "tools", JNull)) ==> r == Ok((req, false))
    ensures r.Ok? ==> (r.value.1 <==> cfpEnabled && Truthy(GetOr(req, "tools", JNull)))
  {
    if !cfpEnabled || !Truthy(GetOr(req, "tools", JNull)) then Ok((req, false))
    else
      match Get(req, "messages")
      case None => Err("KeyError: 'messages'")
      case Some(msgs) =>
        match Iterate(msgs)
        case Err(e) => Err(e)
        case Ok(ms) =>
          match CfpMessages(codec, newId, ms, GetOr(req, "tools", JNull))
          case Err(e) => Err(e)
          case Ok(newMsgs) =>
            match AdaptedModel(GetOr(req, "model", JStr("")))
            case Err(e) => Err(e)
            case Ok(model) => Ok((CfpRequest(req, MessagesJson(newMsgs), model), true))
  }

  /** `new_req = req.copy()` with the new messages and model, `tools` popped and `tool_choice` set to `None`. */
  function CfpRequest(req: Dict, messages: Json, model: Json): Dict
  {
    Set(Remove(Set(Set(req, "messages", messages), "model", model), "tools"), "tool_choice", JNull)
  }

  /** The keys of the CFP request: the four that are written, and every other one as it was. */
  lemma CfpRequestKeys(req: Dict, messages: Json, model: Json)
    ensures var nr := CfpRequest(req, messages, model);
      && Get(nr, "tools").None?
      && Get(nr, "tool_choice") == Some(JNull)
      && Get(nr, "model") == Some(model)
      && Get(nr, "messages") == Some(messages)
      && (forall k :: k !in ["tools", "tool_choice", "model", "messages"] ==> Get(nr, k) == Get(req, k))
  {
    assert |"tools"| == 5 && |"tool_choice"| == 11 && |"model"| == 5 && |"messages"| == 8;
    assert "tools"[0] != "model"[0];
    UpdateKeys(req, "messages", messages, "model", model, "tools", "tool_choice");
  }

  /** Two sets, a pop and a set, on four different keys. */
  lemma UpdateKeys(req: Dict, a: string, va: Json, b: string, vb: Json, c: string, d: string)
    requires a != b && a != c && a != d && b != c && b != d && c != d
    ensures var nr := Set(Remove(Set(Set(req, a, va), b, vb), c), d, JNull);
      && Get(nr, c).None?
      && Get(nr, d) == Some(JNull)
      && Get(nr, b) == Some(vb)
      && Get(nr, a) == Some(va)
      && (forall k :: k != a && k != b && k != c && k != d ==> Get(nr, k) == Get(req, k))
  {
    var withA := Set(req, a, va);
    var withB := Set(withA, b, vb);
    var withoutC := Remove(withB, c);
    SetGet(req, a, va);
    SetGet(withA, b, vb);
    RemoveGet(withB, c);
    SetGet(withoutC, d, JNull);
  }

  /**
   * The adapted request: the messages are the CFP messages, the model is normalised (a missing
   * model becomes `""`), `tools` is gone, `tool_choice` is `None`, every other key is as it was.
   */
  lemma AdaptedRequestKeys(codec: Codec, newId: nat -> string, req: Dict, cfpEnabled: bool)
    requires AdaptRequestForCfp(codec, newId, req, cfpEnabled).Ok?
    requires AdaptRequestForCfp(codec, newId, req, cfpEnabled).value.1
    ensures var nr := AdaptRequestForCfp(codec, newId, req, cfpEnabled).value.0;
      && Get(nr, "tools").None?
      && Get(nr, "tool_choice") == Some(JNull)
      && Get(nr, "model") == Some(AdaptedModel(GetOr(req, "model", JStr(""))).value)
      && Get(nr, "messages") == Some(MessagesJson(CfpMessages(codec, newId, Iterate(Get(req, "messages").value).value,
                                                              GetOr(req, "tools", JNull)).value))
      && (forall k :: k !in ["tools", "tool_choice", "model", "messages"] ==> Get(nr, k) == Get(req, k))
  {
    var ms := Iterate(Get(req, "messages").value).value;
    var newMsgs := CfpMessages(codec, newId, ms, GetOr(req, "tools", JNull)).value;
    var model := AdaptedModel(GetOr(req, "model", JStr(""))).value;
    assert AdaptRequestForCfp(codec, newId, req, cfpEnabled).value.0 == CfpRequest(req, MessagesJson(newMsgs), model);
    CfpRequestKeys(req, MessagesJson(newMsgs), model);
  }

  // ---------------------------------------------------------------- parse_cfp_response

  /** What one block does to the scan: a call, a final text, nothing, or an exception. */
  datatype BlockOutcome = CallBlock(call: ToolCall) | ReplyBlock(text: string) | OtherBlock | BadBlock

  /**
   * One block, parsed: a `call` needs `id`, `name` and `args`; a `result` returns its `result`
   * as JSON text; an `error` returns `"[CFP error] "` and its `error` (default `Unknown error`).
   * A block that does not parse to a dict with a `role` raises.
   */
  function Outcome(codec: Codec, raw: string): BlockOutcome
  {
    match ParseBlock(codec, raw)
    case Some(JObj(fs)) => DocOutcome(codec, fs)
    case _ => BadBlock
  }

  /** The outcome of a block that parsed to a dict. */
  function DocOutcome(codec: Codec, fs: Dict): BlockOutcome
  {
    match Get(fs, "role")
    case None => BadBlock
    case Some(role) =>
      if role == JStr("call") then
        (match (Get(fs, "id"), Get(fs, "name"), Get(fs, "args"))
         case (Some(id), Some(name), Some(args)) => CallBlock(ToolCall(id, name, codec.dumps(args, NonAscii)))
         case _ => BadBlock)
      else if role == JStr("result") then
        (match Get(fs, "result")
         case Some(res) => ReplyBlock(codec.dumps(res, NonAscii))
         case None => BadBlock)
      else if role == JStr("error") then
        ReplyBlock("[CFP error] " + PyStr(codec, GetOr(fs, "error", JStr("Unknown error"))))
      else OtherBlock
  }

  function Outcomes(codec: Codec, blocks: seq<string>): seq<BlockOutcome>
  {
    seq(|blocks|, i requires 0 <= i < |blocks| => Outcome(codec, blocks[i]))
  }

  /**
   * The scan over the blocks' outcomes with `calls` gathered so far: a reply or an exception
   * ends it with that text (the stripped input for an exception); at the end the calls, if
   * any, else the stripped input. Exactly one of the two results is present.
   */
  function Scan(stripped: string, outs: seq<BlockOutcome>, calls: seq<ToolCall>)
    : (r: (Option<string>, Option<seq<ToolCall>>))
    ensures r.0.Some? != r.1.Some?
    ensures r.1.Some? ==> r.1.value != [] && calls <= r.1.value
    decreases |outs|
  {
    if outs == [] then (if calls != [] then (None, Some(calls)) else (Some(stripped), None))
    else
      match outs[0]
      case CallBlock(c) => Scan(stripped, outs[1..], calls + [c])
      case ReplyBlock(t) => (Some(t), None)
      case OtherBlock => Scan(stripped, outs[1..], calls)
      case BadBlock => (Some(stripped), None)
  }

  /** `parse_cfp_response(text)`. */
  function CfpReply(codec: Codec, text: string): (Option<string>, Option<seq<ToolCall>>)
  {
    Scan(Strip(text), Outcomes(codec, ExtractBlocks(text)), [])
  }

  /** The loop of `parse_cfp_response`, with its early returns. */
  method ParseCfpResponse(codec: Codec, text: string) returns (plain: Option<string>, calls: Option<seq<ToolCall>>)
    ensures (plain, calls) == CfpReply(codec, text)
  {
    var blocks := ExtractBlocks(text);
    var stripped := Strip(text);
    if blocks == [] {
      ScanNothing(stripped, Outcomes(codec, blocks));
      return Some(stripped), None;
    }
    plain, calls := ScanBlocks(codec, blocks, stripped);
  }

  /** The `for block in blocks` loop and what follows it: the reply is `Scan` over the blocks' outcomes. */
  method ScanBlocks(codec: Codec, blocks: seq<string>, stripped: string)
    returns (plain: Option<string>, calls: Option<seq<ToolCall>>)
    ensures (plain, calls) == Scan(stripped, Outcomes(codec, blocks), [])
  {
    ghost var outs := Outcomes(codec, blocks);
    ghost var reply := Scan(stripped, outs, []);
    var toolCalls: seq<ToolCall> := [];
    var i := 0;
    while i < |blocks|
      invariant 0 <= i <= |blocks|
      invariant reply == Scan(stripped, outs[i..], toolCalls)
    {
      var o := Outcome(codec, blocks[i]);
      assert o == outs[i];
      ScanAt(stripped, outs, i, toolCalls);
      match o {
        case CallBlock(c) =>
          toolCalls := toolCalls + [c];
        case ReplyBlock(t) =>
          return Some(t), None;
        case BadBlock =>
          return Some(stripped), None;
        case OtherBlock =>
      }
      i := i + 1;
    }
    assert outs[i..] == [];
    if |toolCalls| > 0 {
      return None, Some(toolCalls);
    }
    return Some(stripped), None;
  }

  /** The calls among the outcomes, in order. */
  function CallsOf(outs: seq<BlockOutcome>): seq<ToolCall>
    decreases |outs|
  {
    if outs == [] then []
    else (if outs[0].CallBlock? then [outs[0].call] else []) + CallsOf(outs[1..])
  }

  predicate Continues(o: BlockOutcome)
  {
    o.CallBlock? || o.OtherBlock?
  }

  /** The reply once every block has been read: the calls gathered, or the stripped text without any. */
  function EndReply(stripped: string, calls: seq<ToolCall>): (Option<string>, Option<seq<ToolCall>>)
  {
    if calls != [] then (None, Some(calls)) else (Some(stripped), None)
  }

  /** A block that continues the scan hands its call, if any, to the rest of the scan. */
  lemma ScanContinues(stripped: string, outs: seq<BlockOutcome>, calls: seq<ToolCall>)
    requires outs != [] && Continues(outs[0])
    ensures Scan(stripped, outs, calls)
         == Scan(stripped, outs[1..], calls + (if outs[0].CallBlock? then [outs[0].call] else []))
  {
    if !outs[0].CallBlock? {
      assert calls + [] == calls;
    }
  }

  /** When no block replies or raises, the result is every call, in block order. */
  lemma {:induction false} ScanAllCalls(stripped: string, outs: seq<BlockOutcome>, calls: seq<ToolCall>)
    requires forall i :: 0 <= i < |outs| ==> Continues(outs[i])
    ensures Scan(stripped, outs, calls) == EndReply(stripped, calls + CallsOf(outs))
    decreases |outs|
  {
    if outs != [] {
      var rest := outs[1..];
      assert forall i :: 0 <= i < |rest| ==> Continues(rest[i]) by {
        forall i | 0 <= i < |rest| ensures Continues(rest[i]) { assert rest[i] == outs[i + 1]; }
      }
      var here := if outs[0].CallBlock? then [outs[0].call] else [];
      ScanContinues(stripped, outs, calls);
      ScanAllCalls(stripped, rest, calls + here);
      assert CallsOf(outs) == here + CallsOf(rest);
      AppendAssoc(calls, here, CallsOf(rest));
    } else {
      assert calls + CallsOf(outs) == calls;
    }
  }

  /** The scan from block `i`: a call or another block hands on to block `i + 1`, a reply or a failure ends it. */
  lemma ScanAt(stripped: string, outs: seq<BlockOutcome>, i: nat, calls: seq<ToolCall>)
    requires i < |outs|
    ensures outs[i].CallBlock? ==> Scan(stripped, outs[i..], calls) == Scan(stripped, outs[i + 1..], calls + [outs[i].call])
    ensures outs[i].OtherBlock? ==> Scan(stripped, outs[i..], calls) == Scan(stripped, outs[i + 1..], calls)
    ensures outs[i].ReplyBlock? ==> Scan(stripped, outs[i..], calls) == (Some(outs[i].text), None)
    ensures outs[i].BadBlock? ==> Scan(stripped, outs[i..], calls) == (Some(stripped), None)
  {
    assert outs[i..][0] == outs[i];
    assert outs[i..][1..] == outs[i + 1..];
    if Continues(outs[i]) {
      ScanContinues(stripped, outs[i..], calls);
      assert calls + [] == calls;
    } else {
      ScanStops(stripped, outs[i..], calls, 0);
    }
  }

  /**
   * The first block that replies or raises decides the result, whatever calls came before
   * it: its text, or the stripped input.
   */
  lemma {:induction false} ScanStops(stripped: string, outs: seq<BlockOutcome>, calls: seq<ToolCall>, k: nat)
    requires k < |outs| && (outs[k].ReplyBlock? || outs[k].BadBlock?)
    requires forall i :: 0 <= i < k ==> Continues(outs[i])
    ensures Scan(stripped, outs, calls) == (Some(if outs[k].ReplyBlock? then outs[k].text else stripped), None)
    decreases k
  {
    if k > 0 {
      var next := if outs[0].CallBlock? then calls + [outs[0].call] else calls;
      ScanStops(stripped, outs[1..], next, k - 1);
    }
  }

  /** Text without a `<cfp>` tag comes back stripped, with no calls. */
  lemma PlainTextReply(codec: Codec, text: string)
    requires !Contains(text, TagOpen)
    ensures CfpReply(codec, text) == (Some(Strip(text)), None)
  {
    NoBlocksWithoutOpenTag(text);
    var outs := Outcomes(codec, ExtractBlocks(text));
    assert |outs| == 0;
    ScanNothing(Strip(text), outs);
  }

  /** With no blocks and no calls gathered the reply is the stripped text. */
  lemma ScanNothing(stripped: string, outs: seq<BlockOutcome>)
    requires |outs| == 0
    ensures Scan(stripped, outs, []) == (Some(stripped), None)
  {
  }

  /**
   * Round trip with `encode`: a call block written by the codec, read back by a parser that
   * inverts the serialiser, gives back that one call.
   */
  lemma EncodedCallReply(codec: Codec, callId: string, name: string, args: Json, result: Json, err: Json,
                         version: int, doc: Dict)
    requires EncodeDoc("call", callId, Some(name), args, result, err, version) == Ok(doc)
    requires var p := codec.dumps(JObj(doc), Compact);
      p != [] && p[0] == '{' && p[|p| - 1] == '}' && !Contains(p, TagClose)
    requires codec.repairLoads(codec.dumps(JObj(doc), Compact)) == Some(JObj(doc))
    ensures Encode(codec, "call", callId, Some(name), args, result, err, version).Ok?
    ensures CfpReply(codec, Encode(codec, "call", callId, Some(name), args, result, err, version).value)
         == (None, Some([ToolCall(JStr(callId), JStr(name), codec.dumps(OrEmpty(args), NonAscii))]))
  {
    EncodeThenExtract(codec, "call", callId, Some(name), args, result, err, version, doc);
    var text := Encode(codec, "call", callId, Some(name), args, result, err, version).value;
    var raw := codec.dumps(JObj(doc), Compact);
    assert doc == [("v", JInt(version)), ("role", JStr("call")), ("id", JStr(callId)),
                   ("name", JStr(name)), ("args", OrEmpty(args))];
    CallDocOutcome(codec, raw, JInt(version), JStr(callId), JStr(name), OrEmpty(args));
    var call := ToolCall(JStr(callId), JStr(name), codec.dumps(OrEmpty(args), NonAscii));
    assert Outcomes(codec, ExtractBlocks(text)) == [CallBlock(call)];
    ScanOneCall(Strip(text), call);
  }

  lemma ScanOneCall(stripped: string, call: ToolCall)
    ensures Scan(stripped, [CallBlock(call)], []) == (None, Some([call]))
  {
    assert [CallBlock(call)][1..] == [];
    assert [] + [call] == [call];
    assert Scan(stripped, [], [call]) == (None, Some([call]));
  }

  /** A block that parses to an encoded call document is that call. */
  lemma CallDocOutcome(codec: Codec, raw: string, v: Json, id: Json, name: Json, args: Json)
    requires ParseBlock(codec, raw) == Some(JObj([("v", v), ("role", JStr("call")), ("id", id), ("name", name), ("args", args)]))
    ensures Outcome(codec, raw) == CallBlock(ToolCall(id, name, codec.dumps(args, NonAscii)))
  {
    var fs := [("v", v), ("role", JStr("call")), ("id", id), ("name", name), ("args", args)];
    assert "role"[0] == 'r' && "name"[0] == 'n' && "args"[0] == 'a';
    GetFive(fs, "v", "role", "id", "name", "args");
    CallFields(codec, fs, id, name, args);
  }

  /** A dict of five fields with different keys reads each of the last four. */
  lemma GetFive(fs: Dict, k0: string, k1: string, k2: string, k3: string, k4: string)
    requires |fs| == 5 && fs[0].0 == k0 && fs[1].0 == k1 && fs[2].0 == k2 && fs[3].0 == k3 && fs[4].0 == k4
    requires k0 != k1 && k0 != k2 && k0 != k3 && k0 != k4
    requires k1 != k2 && k1 != k3 && k1 != k4 && k2 != k3 && k2 != k4 && k3 != k4
    ensures Get(fs, k1) == Some(fs[1].1) && Get(fs, k2) == Some(fs[2].1)
    ensures Get(fs, k3) == Some(fs[3].1) && Get(fs, k4) == Some(fs[4].1)
  {
    assert fs[1..][1..] == fs[2..] && fs[2..][1..] == fs[3..] && fs[3..][1..] == fs[4..];
  }

  lemma CallFields(codec: Codec, fs: Dict, id: Json, name: Json, args: Json)
    requires Get(fs, "role") == Some(JStr("call"))
    requires Get(fs, "id") == Some(id) && Get(fs, "name") == Some(name) && Get(fs, "args") == Some(args)
    ensures DocOutcome(codec, fs) == CallBlock(ToolCall(id, name, codec.dumps(args, NonAscii)))
  {
  }

  // ---------------------------------------------------------------- adapt_response_from_cfp

  /**
   * The first choice after adaptation: with calls, the calls, no content and finish
   * `tool_calls`; otherwise the plain text as content (`None` content reads as `""`).
   */
  function AdaptedChoice(codec: Codec, c: Choice): (r: Choice)
  {
    var reply := CfpReply(codec, if c.message.content.Some? then c.message.content.value else "");
    if reply.1.Some? then Choice(ChoiceMessage(None, reply.1.value), Some("tool_calls"))
    else Choice(ChoiceMessage(reply.0, c.message.toolCalls), c.finishReason)
  }

  /**
   * Adaptation leaves exactly one of the two: either tool calls with no content and finish
   * `tool_calls`, or a content with the tool calls and finish reason as they were.
   */
  lemma AdaptedChoiceShape(codec: Codec, c: Choice)
    ensures var r := AdaptedChoice(codec, c);
      || (r.message.content.None? && r.message.toolCalls != [] && r.finishReason == Some("tool_calls"))
      || (r.message.content.Some? && r.message.toolCalls == c.message.toolCalls && r.finishReason == c.finishReason)
    ensures c.message.content.Some? && !Contains(c.message.content.value, TagOpen) ==>
      AdaptedChoice(codec, c) == Choice(ChoiceMessage(Some(Strip(c.message.content.value)), c.message.toolCalls), c.finishReason)
  {
    if c.message.content.Some? && !Contains(c.message.content.value, TagOpen) {
      PlainTextReply(codec, c.message.content.value);
    }
  }

  /**
   * `adapt_response_from_cfp(resp, cfp_used)`, updating `resp` in place. `ok` is false for the
   * `IndexError` of a response with no choices.
   */
  method AdaptResponseFromCfp(codec: Codec, resp: ModelResponse, cfpUsed: bool) returns (ok: bool)
    modifies resp
    ensures ok <==> !cfpUsed || old(resp.choices) != []
    ensures resp.id == old(resp.id) && resp.usage == old(resp.usage)
    ensures !ok || !cfpUsed ==> resp.choices == old(resp.choices) && resp.fromCfp == old(resp.fromCfp)
    ensures ok && cfpUsed ==>
      && resp.choices == [AdaptedChoice(codec, old(resp.choices[0]))] + old(resp.choices[1..])
      && resp.fromCfp == (old(resp.fromCfp) || resp.choices[0].message.content.None?)
  {
    if !cfpUsed {
      return true;
    }
    if resp.choices == [] {
      return false;
    }
    var msg := resp.choices[0].message;
    var contentRaw := if msg.content.Some? then msg.content.value else "";
    var plain, calls := ParseCfpResponse(codec, contentRaw);
    if calls.Some? {
      resp.choices := [Choice(ChoiceMessage(None, calls.value), Some("tool_calls"))] + resp.choices[1..];
      resp.fromCfp := true;
    } else {
      resp.choices := [Choice(ChoiceMessage(plain, msg.toolCalls), resp.choices[0].finishReason)] + resp.choices[1..];
    }
    return true;
  }
}
