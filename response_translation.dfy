/**
 * `convert_litellm_to_anthropic`: an upstream completion object becomes an Anthropic
 * `MessagesResponse`. Text, tool calls (as `tool_use` blocks, or as text for a model that is
 * neither Claude nor CFP-adapted), usage and the stop reason are carried over; a response
 * that fails validation becomes an error text.
 */
module ResponseTranslation {
  import opened Wrappers
  import opened Text
  import opened Json
  import opened ApiTypes

  // ---------------------------------------------------------------- the model name

  /** The request's model without an `anthropic/` or `openai/` prefix. */
  function CleanModel(model: string): (r: string)
    ensures EndsWith(model, r)
    ensures r == model || model == "anthropic/" + r || model == "openai/" + r
    ensures !StartsWith(model, "anthropic/") && !StartsWith(model, "openai/") ==> r == model
  {
    if StartsWith(model, "anthropic/") then
      assert model == "anthropic/" + model[10..];
      model[10..]
    else if StartsWith(model, "openai/") then
      assert model == "openai/" + model[7..];
      model[7..]
    else model
  }

  /** Claude models take tool calls as content blocks. */
  predicate IsClaudeModel(model: string)
  {
    StartsWith(CleanModel(model), "claude-")
  }

  // ---------------------------------------------------------------- content blocks

  /** A block before pydantic validates it: a `tool_use` block's fields are any JSON. */
  datatype RawBlock = RawText(text: string) | RawToolUse(id: Json, name: Json, input: Json)

  /** `json.loads(arguments)`, or `{"raw": arguments}` when it is not JSON. */
  function ParsedArguments(codec: Codec, arguments: string): Json
  {
    match codec.loads(arguments)
    case Some(j) => j
    case None => JObj([("raw", JStr(arguments))])
  }

  function ToolUseOf(codec: Codec, tc: ToolCall): RawBlock
  {
    RawToolUse(tc.id, tc.name, ParsedArguments(codec, tc.arguments))
  }

  /** The `tool_use` blocks, one per call, in order. */
  function ToolUseBlocks(codec: Codec, calls: seq<ToolCall>): seq<RawBlock>
  {
    seq(|calls|, i requires 0 <= i < |calls| => ToolUseOf(codec, calls[i]))
  }

  /** One call written out for a model that only takes text. */
  function ToolText(codec: Codec, tc: ToolCall): string
  {
    "Tool: " + PyStr(codec, tc.name) + "\nArguments: "
    + codec.dumps(ParsedArguments(codec, tc.arguments), Indent2) + "\n\n"
  }

  const ToolUsageHeading: string := "\n\nTool usage:\n"

  function ToolTexts(codec: Codec, calls: seq<ToolCall>): seq<string>
  {
    seq(|calls|, i requires 0 <= i < |calls| => ToolText(codec, calls[i]))
  }

  /** The text that replaces the calls for a model that only takes text. */
  function ToolUsageText(codec: Codec, calls: seq<ToolCall>): string
  {
    ToolUsageHeading + Concat(ToolTexts(codec, calls))
  }

  /** The text block of the message: only for a content that is a non-empty string. */
  function TextBlocks(text: Option<string>): (r: seq<RawBlock>)
    ensures |r| <= 1
    ensures r != [] <==> text.Some? && text.value != ""
  {
    if text.Some? && text.value != "" then [RawText(text.value)] else []
  }

  /**
   * The content list: the text block, then the calls as `tool_use` blocks on the CFP path or
   * for a Claude model, otherwise as text appended to the text block (or a new one).
   */
  function ResponseContent(codec: Codec, text: Option<string>, calls: seq<ToolCall>, fromCfp: bool, claude: bool)
    : seq<RawBlock>
  {
    if calls == [] then TextBlocks(text)
    else if fromCfp || claude then TextBlocks(text) + ToolUseBlocks(codec, calls)
    else if TextBlocks(text) != [] then [RawText(text.value + ToolUsageText(codec, calls))]
    else [RawText(ToolUsageText(codec, calls))]
  }

  /** The loop over the calls that appends a `tool_use` block for each. */
  method AppendToolUses(codec: Codec, content: seq<RawBlock>, calls: seq<ToolCall>) returns (r: seq<RawBlock>)
    ensures r == content + ToolUseBlocks(codec, calls)
  {
    r := content;
    var i := 0;
    while i < |calls|
      invariant 0 <= i <= |calls|
      invariant r == content + ToolUseBlocks(codec, calls[..i])
    {
      assert ToolUseBlocks(codec, calls[..i + 1]) == ToolUseBlocks(codec, calls[..i]) + [ToolUseOf(codec, calls[i])];
      r := r + [ToolUseOf(codec, calls[i])];
      i := i + 1;
    }
    assert calls[..i] == calls;
  }

  /** The loop over the calls that builds `tool_text`. */
  method BuildToolUsageText(codec: Codec, calls: seq<ToolCall>) returns (r: string)
    ensures r == ToolUsageText(codec, calls)
  {
    ghost var texts := ToolTexts(codec, calls);
    r := ToolUsageHeading;
    var i := 0;
    while i < |calls|
      invariant 0 <= i <= |calls|
      invariant r == ToolUsageHeading + Concat(texts[..i])
    {
      var t := ToolText(codec, calls[i]);
      assert texts[..i + 1] == texts[..i] + [t];
      ConcatSnoc(texts[..i], t);
      AppendAssoc(ToolUsageHeading, Concat(texts[..i]), t);
      r := r + t;
      i := i + 1;
    }
    assert texts[..i] == texts;
  }

  /** The content list as the conversion builds it, with its two loops. */
  method BuildContent(codec: Codec, text: Option<string>, calls: seq<ToolCall>, fromCfp: bool, claude: bool)
    returns (r: seq<RawBlock>)
    ensures r == ResponseContent(codec, text, calls, fromCfp, claude)
  {
    r := [];
    if text.Some? && text.value != "" {
      r := r + [RawText(text.value)];
    }
    if |calls| > 0 {
      if fromCfp || claude {
        r := AppendToolUses(codec, r, calls);
      } else {
        var toolText := BuildToolUsageText(codec, calls);
        if |r| > 0 && r[0].RawText? {
          r := [RawText(r[0].text + toolText)] + r[1..];
        } else {
          r := r + [RawText(toolText)];
        }
      }
    }
  }

  // ---------------------------------------------------------------- validation

  /** pydantic's check of one block: a `tool_use` block needs a string id and name and a dict input. */
  function ValidateBlock(b: RawBlock): (r: Result<OutBlock>)
    ensures r.Ok? <==> b.RawText? || (b.id.JStr? && b.name.JStr? && b.input.JObj?)
    ensures b.RawText? ==> r == Ok(OutText(b.text))
    ensures r.Ok? && b.RawToolUse? ==> r.value == OutToolUse(b.id.s, b.name.s, b.input.fields)
  {
    match b
    case RawText(t) => Ok(OutText(t))
    case RawToolUse(id, name, input) =>
      if id.JStr? && name.JStr? && input.JObj? then Ok(OutToolUse(id.s, name.s, input.fields))
      else Err("1 validation error for MessagesResponse")
  }

  function ValidateBlocks(bs: seq<RawBlock>): Result<seq<OutBlock>>
  {
    Collect(seq(|bs|, i requires 0 <= i < |bs| => ValidateBlock(bs[i])))
  }

  // ---------------------------------------------------------------- stop reason

  /** The CFP path's rewrite: with calls, `tool_calls` becomes `tool_use`. */
  function CfpFinish(fromCfp: bool, calls: seq<ToolCall>, finish: Option<string>): Option<string>
  {
    if calls != [] && fromCfp && finish == Some("tool_calls") then Some("tool_use") else finish
  }

  /** The finish-reason mapping as the source writes it. */
  function MapFinishAsWritten(finish: Option<string>): (r: string)
    ensures r in ["end_turn", "max_tokens", "tool_use"]
    ensures r == "tool_use" <==> finish == Some("tool_calls")
    ensures r == "max_tokens" <==> finish == Some("length")
    ensures r == "end_turn" <==> finish != Some("length") && finish != Some("tool_calls")
  {
    if finish == Some("stop") then "end_turn"
    else if finish == Some("length") then "max_tokens"
    else if finish == Some("tool_calls") then "tool_use"
    else "end_turn"
  }

  /** The stop reason as written: the CFP rewrite, then the mapping, which does not know `tool_use`. */
  function StopReasonAsWritten(fromCfp: bool, calls: seq<ToolCall>, finish: Option<string>): string
  {
    MapFinishAsWritten(CfpFinish(fromCfp, calls, finish))
  }

  /** As written, a CFP reply whose calls finish with `tool_calls` stops with `end_turn`. */
  lemma CfpToolCallsEndTurn(calls: seq<ToolCall>)
    requires calls != []
    ensures StopReasonAsWritten(true, calls, Some("tool_calls")) == "end_turn"
    ensures MapFinishAsWritten(Some("tool_calls")) == "tool_use"
  {
  }

  /** The mapping with the rewritten `tool_use` kept as `tool_use`, as the CFP path intends. */
  function MapFinish(finish: Option<string>): (r: string)
    ensures r in ["end_turn", "max_tokens", "tool_use"]
    ensures r == "tool_use" <==> finish == Some("tool_calls") || finish == Some("tool_use")
    ensures finish != Some("tool_use") ==> r == MapFinishAsWritten(finish)
  {
    if finish == Some("tool_use") then "tool_use" else MapFinishAsWritten(finish)
  }

  /** The stop reason the conversion gives, on the corrected mapping. */
  function StopReason(fromCfp: bool, calls: seq<ToolCall>, finish: Option<string>): string
  {
    MapFinish(CfpFinish(fromCfp, calls, finish))
  }

  /**
   * On the corrected mapping the stop reason is `tool_use` exactly when the upstream finished
   * with `tool_calls`, on the CFP path as on the others; only that case differs from the
   * mapping as written.
   */
  lemma StopReasonToolUse(fromCfp: bool, calls: seq<ToolCall>, finish: Option<string>)
    requires finish != Some("tool_use")
    ensures StopReason(fromCfp, calls, finish) == "tool_use" <==> finish == Some("tool_calls")
    ensures StopReason(fromCfp, calls, finish) != StopReasonAsWritten(fromCfp, calls, finish)
        <==> fromCfp && calls != [] && finish == Some("tool_calls")
  {
  }

  // ---------------------------------------------------------------- the response

  /** The `except` branch: one error text, `end_turn`, no usage. */
  function Fallback(id: string, model: string, error: string): MessagesResponse
  {
    MessagesResponse(id, model, [OutText("Error converting response: " + error + ". Please check server logs.")],
                     "end_turn", Usage(0, 0))
  }

  /** The content list, with one empty text block when it would be empty. */
  function FinalContent(codec: Codec, text: Option<string>, calls: seq<ToolCall>, fromCfp: bool, claude: bool)
    : (r: seq<RawBlock>)
    ensures r != []
    ensures ResponseContent(codec, text, calls, fromCfp, claude) != [] ==> r == ResponseContent(codec, text, calls, fromCfp, claude)
  {
    var c := ResponseContent(codec, text, calls, fromCfp, claude);
    if c == [] then [RawText("")] else c
  }

  /** The first choice's message text, tool calls and finish reason; `stop` when there is no choice. */
  datatype Extracted = Extracted(text: Option<string>, calls: seq<ToolCall>, finish: Option<string>)

  function Extract(choices: seq<Choice>): (r: Extracted)
    ensures choices == [] ==> r == Extracted(None, [], Some("stop"))
    ensures choices != [] ==> r == Extracted(choices[0].message.content, choices[0].message.toolCalls, choices[0].finishReason)
  {
    if choices == [] then Extracted(None, [], Some("stop"))
    else Extracted(choices[0].message.content, choices[0].message.toolCalls, choices[0].finishReason)
  }

  /**
   * The `MessagesResponse(...)` construction: validation of the blocks and of the two token
   * counts, or the error text when either fails.
   */
  function Respond(id: string, model: string, fallbackId: string, content: seq<RawBlock>, usage: UsageInfo,
                   stop: string): (r: MessagesResponse)
    requires content != []
    ensures r.model == model && r.content != []
    ensures ValidateBlocks(content).Ok? && usage.promptTokens.Some? && usage.completionTokens.Some? ==>
      && r.id == id && r.stopReason == stop
      && r.usage == Usage(usage.promptTokens.value, usage.completionTokens.value)
      && |r.content| == |content|
      && forall k :: 0 <= k < |content| ==> ValidateBlock(content[k]) == Ok(r.content[k])
    ensures !(ValidateBlocks(content).Ok? && usage.promptTokens.Some? && usage.completionTokens.Some?) ==>
      && r.id == fallbackId && r.stopReason == "end_turn" && r.usage == Usage(0, 0)
      && |r.content| == 1 && r.content[0].OutText?
      && StartsWith(r.content[0].text, "Error converting response: ")
  {
    var rs := seq(|content|, i requires 0 <= i < |content| => ValidateBlock(content[i]));
    match Collect(rs)
    case Err(e) =>
      FallbackErrorText(e);
      Fallback(fallbackId, model, e)
    case Ok(blocks) =>
      if usage.promptTokens.None? || usage.completionTokens.None? then
        FallbackErrorText("validation error: Input should be a valid integer");
        Fallback(fallbackId, model, "validation error: Input should be a valid integer")
      else
        assert forall k :: 0 <= k < |content| ==> rs[k] == Ok(blocks[k]);
        MessagesResponse(id, model, blocks, stop, Usage(usage.promptTokens.value, usage.completionTokens.value))
  }

  lemma FallbackErrorText(e: string)
    ensures StartsWith("Error converting response: " + e + ". Please check server logs.", "Error converting response: ")
  {
    var t := "Error converting response: " + e + ". Please check server logs.";
    assert t[..27] == "Error converting response: ";
  }

  /**
   * `convert_litellm_to_anthropic(response, request)` for a completion object with fields
   * `id`, `choices`, `usage` and the CFP mark; `fallbackId` is the `msg_<uuid>` of the
   * `except` branch.
   */
  function AnthropicResponse(codec: Codec, id: string, choices: seq<Choice>, usage: UsageInfo, fromCfp: bool,
                             model: string, fallbackId: string): (r: MessagesResponse)
    ensures var x := Extract(choices);
      var valid := ValidateBlocks(FinalContent(codec, x.text, x.calls, fromCfp, IsClaudeModel(model))).Ok?
                   && usage.promptTokens.Some? && usage.completionTokens.Some?;
      && (r.stopReason == "tool_use" <==>
            valid && choices != [] && choices[0].finishReason == Some("tool_calls")
            && !(fromCfp && choices[0].message.toolCalls != []))
      && (r.stopReason == "max_tokens" <==> valid && choices != [] && choices[0].finishReason == Some("length"))
  {
    var x := Extract(choices);
    Respond(id, model, fallbackId, FinalContent(codec, x.text, x.calls, fromCfp, IsClaudeModel(model)), usage,
            StopReasonAsWritten(fromCfp, x.calls, x.finish))
  }

  /** The conversion, reading the completion object. */
  method ConvertLitellmToAnthropic(codec: Codec, resp: ModelResponse, model: string, fallbackId: string)
    returns (r: MessagesResponse)
    ensures r == AnthropicResponse(codec, resp.id, resp.choices, resp.usage, resp.fromCfp, model, fallbackId)
  {
    var choices := resp.choices;
    var text: Option<string> := None;
    var calls: seq<ToolCall> := [];
    var finish: Option<string> := Some("stop");
    if |choices| > 0 {
      text := choices[0].message.content;
      calls := choices[0].message.toolCalls;
      finish := choices[0].finishReason;
    }
    var claude := IsClaudeModel(model);
    var content := BuildContent(codec, text, calls, resp.fromCfp, claude);
    if content == [] {
      content := [RawText("")];
    }
    var stop := StopReasonAsWritten(resp.fromCfp, calls, finish);
    r := Respond(resp.id, model, fallbackId, content, resp.usage, stop);
  }

  // ---------------------------------------------------------------- properties

  /**
   * The response always has content and a stop reason Anthropic defines. When every block
   * and both token counts validate it carries the upstream id and counts and the blocks in
   * order; otherwise it is the error text.
   */
  lemma ResponseShape(codec: Codec, id: string, choices: seq<Choice>, usage: UsageInfo, fromCfp: bool,
                      model: string, fallbackId: string)
    ensures var r := AnthropicResponse(codec, id, choices, usage, fromCfp, model, fallbackId);
      var x := Extract(choices);
      var content := FinalContent(codec, x.text, x.calls, fromCfp, IsClaudeModel(model));
      var valid := ValidateBlocks(content).Ok? && usage.promptTokens.Some? && usage.completionTokens.Some?;
      && r.content != [] && r.model == model
      && r.stopReason in ["end_turn", "max_tokens", "tool_use"]
      && (valid ==> r.id == id && |r.content| == |content|
                    && r.usage == Usage(usage.promptTokens.value, usage.completionTokens.value))
      && (!valid ==> r.id == fallbackId && r.usage == Usage(0, 0) && |r.content| == 1)
  {
    var x := Extract(choices);
    var stop := StopReasonAsWritten(fromCfp, x.calls, x.finish);
    assert stop in ["end_turn", "max_tokens", "tool_use"];
  }

  /** One block that fails validation sends the whole response to the error text. */
  lemma InvalidBlock(content: seq<RawBlock>, k: nat)
    requires k < |content| && ValidateBlock(content[k]).Err?
    ensures ValidateBlocks(content).Err?
  {
    var rs := seq(|content|, i requires 0 <= i < |content| => ValidateBlock(content[i]));
    assert !rs[k].Ok?;
  }

  /**
   * On the CFP path or for a Claude model, the calls follow the text block as `tool_use`
   * blocks, one per call in order, each with the call's id and name and its parsed arguments.
   */
  lemma ToolUsePath(codec: Codec, text: Option<string>, calls: seq<ToolCall>, fromCfp: bool, claude: bool)
    requires fromCfp || claude
    ensures var c := ResponseContent(codec, text, calls, fromCfp, claude);
      var t := |TextBlocks(text)|;
      && |c| == t + |calls|
      && (t == 1 ==> c[0] == RawText(text.value))
      && forall j :: 0 <= j < |calls| ==>
           c[t + j] == RawToolUse(calls[j].id, calls[j].name, ParsedArguments(codec, calls[j].arguments))
  {
  }

  /**
   * For any other model the calls become text: one text block, the message text followed by
   * the tool-usage heading and one entry per call.
   */
  lemma TextPath(codec: Codec, text: Option<string>, calls: seq<ToolCall>)
    requires calls != []
    ensures var c := ResponseContent(codec, text, calls, false, false);
      var prefix := if text.Some? then text.value else "";
      && |c| == 1 && c[0].RawText?
      && c[0].text == prefix + ToolUsageText(codec, calls)
      && StartsWith(c[0].text, prefix)
  {
    var prefix := if text.Some? then text.value else "";
    var s := prefix + ToolUsageText(codec, calls);
    assert s[..|prefix|] == prefix;
  }

  /** Without calls the content is the message text alone, when it is a non-empty string. */
  lemma NoCallsContent(codec: Codec, text: Option<string>, fromCfp: bool, claude: bool)
    ensures FinalContent(codec, text, [], fromCfp, claude)
         == if text.Some? && text.value != "" then [RawText(text.value)] else [RawText("")]
  {
  }

  /** A call whose arguments are not JSON keeps them under `raw`. */
  lemma RawArguments(codec: Codec, tc: ToolCall)
    requires codec.loads(tc.arguments).None?
    ensures ValidateBlock(ToolUseOf(codec, tc)).Ok? <==> tc.id.JStr? && tc.name.JStr?
    ensures ValidateBlock(ToolUseOf(codec, tc)).Ok? ==>
      ValidateBlock(ToolUseOf(codec, tc)).value.input == [("raw", JStr(tc.arguments))]
  {
  }
}
