/**
 * `convert_anthropic_to_litellm`: an Anthropic Messages request becomes the OpenAI-style
 * request dict handed to LiteLLM.
 */
module RequestTranslation {
  import opened Wrappers
  import opened Text
  import opened Json
  import opened ApiTypes
  import GeminiSchema

  /** `{"type": "text", "text": s}`. */
  function TextPart(s: string): Json
  {
    JObj([("type", JStr("text")), ("text", JStr(s))])
  }

  /** `{"role": role, "content": content}`. */
  function RoleContent(role: string, content: Json): Json
  {
    JObj([("role", JStr(role)), ("content", content)])
  }

  // ---------------------------------------------------------------- system prompt

  /** The leading system message: a non-empty string as it is, a non-empty block list joined. */
  function SystemMessage(s: System): Option<Json>
  {
    match s
    case NoSystem => None
    case SystemText(t) => if t != "" then Some(RoleContent("system", JStr(t))) else None
    case SystemBlocks(ts) =>
      if ts != [] then Some(RoleContent("system", JStr(Strip(Concat(Terminated("\n\n", ts)))))) else None
  }

  /** The system part of the message list, built by a loop over the blocks. */
  method SystemMessages(s: System) returns (ms: seq<Json>)
    ensures ms == if SystemMessage(s).Some? then [SystemMessage(s).value] else []
  {
    match s {
      case NoSystem =>
        ms := [];
      case SystemText(t) =>
        ms := if t != "" then [RoleContent("system", JStr(t))] else [];
      case SystemBlocks(ts) =>
        var systemText := "";
        var i := 0;
        while i < |ts|
          invariant 0 <= i <= |ts|
          invariant systemText == Concat(Terminated("\n\n", ts[..i]))
          invariant i > 0 ==> systemText != []
        {
          assert Terminated("\n\n", ts[..i + 1]) == Terminated("\n\n", ts[..i]) + [ts[i] + "\n\n"];
          ConcatSnoc(Terminated("\n\n", ts[..i]), ts[i] + "\n\n");
          systemText := systemText + ts[i] + "\n\n";
          i := i + 1;
        }
        assert ts[..i] == ts;
        ms := if systemText != "" then [RoleContent("system", JStr(Strip(systemText)))] else [];
    }
  }

  /**
   * A string system prompt is sent as it is when non-empty; a non-empty block list becomes
   * the stripped `"\n\n"`-join of its texts. An empty list or string gives no message.
   */
  lemma SystemMessageShape(s: System)
    ensures SystemMessage(s).Some? <==> (s.SystemText? && s.text != "") || (s.SystemBlocks? && s.texts != [])
    ensures s.SystemText? && s.text != "" ==> SystemMessage(s) == Some(RoleContent("system", JStr(s.text)))
    ensures s.SystemBlocks? && s.texts != [] ==>
      SystemMessage(s) == Some(RoleContent("system", JStr(Strip(Join("\n\n", s.texts)))))
  {
    if s.SystemBlocks? && s.texts != [] {
      ConcatTerminated("\n\n", s.texts);
      RStripSpaceSuffix(Join("\n\n", s.texts), "\n\n");
    }
  }

  // ---------------------------------------------------------------- tool results folded into text

  /** One item of a list tool result in a folded user message; non-dict items add nothing. */
  function FoldItemText(item: Json, codec: Codec): Result<string>
  {
    match item
    case JObj(fs) =>
      if Get(fs, "type") == Some(JStr("text")) || HasKey(fs, "text") then
        (match TextField(fs, "") case Err(e) => Err(e) case Ok(t) => Ok(t + "\n"))
      else Ok(codec.dumps(item, Default) + "\n")
    case _ => Ok("")
  }

  function FoldItemTexts(codec: Codec, items: seq<Json>): seq<Result<string>>
  {
    seq(|items|, i requires 0 <= i < |items| => FoldItemText(items[i], codec))
  }

  /** The text of a tool result's content in a folded user message. */
  function FoldResultText(codec: Codec, c: Json): Result<string>
  {
    match c
    case JStr(s) => Ok(s)
    case JArr(items) =>
      (match Collect(FoldItemTexts(codec, items)) case Err(e) => Err(e) case Ok(ts) => Ok(Concat(ts)))
    case JObj(fs) =>
      if Get(fs, "type") == Some(JStr("text")) then Ok(PyStr(codec, GetOr(fs, "text", JStr(""))))
      else Ok(codec.dumps(c, Default))
    case _ => Ok(PyStr(codec, c))
  }

  /** The `result_content` loop over a list content. */
  method FoldResult(codec: Codec, c: Json) returns (r: Result<string>)
    ensures r == FoldResultText(codec, c)
  {
    if !c.JArr? {
      return FoldResultText(codec, c);
    }
    var rs := FoldItemTexts(codec, c.items);
    var resultContent := "";
    ghost var ts: seq<string> := [];
    var i := 0;
    while i < |c.items|
      invariant 0 <= i <= |c.items|
      invariant Collect(rs[..i]) == Ok(ts) && resultContent == Concat(ts)
    {
      var t := FoldItemText(c.items[i], codec);
      CollectStep(rs, i, ts);
      if t.Err? {
        return Err(t.error);
      }
      ConcatSnoc(ts, t.value);
      resultContent := resultContent + t.value;
      ts := ts + [t.value];
      i := i + 1;
    }
    assert rs[..i] == rs;
    return Ok(resultContent);
  }

  /** One block's text in a folded user message: texts and tool results; other blocks add nothing. */
  function FoldBlockText(codec: Codec, b: Block): Result<string>
  {
    match b
    case TextBlock(t) => Ok(t + "\n")
    case ToolResultBlock(id, c) =>
      (match FoldResultText(codec, c)
       case Err(e) => Err(e)
       case Ok(s) => Ok("Tool result for " + id + ":\n" + s + "\n"))
    case _ => Ok("")
  }

  function FoldBlockTexts(codec: Codec, bs: seq<Block>): seq<Result<string>>
  {
    seq(|bs|, i requires 0 <= i < |bs| => FoldBlockText(codec, bs[i]))
  }

  predicate HasToolResult(bs: seq<Block>)
  {
    exists i :: 0 <= i < |bs| && bs[i].ToolResultBlock?
  }

  // ---------------------------------------------------------------- blocks kept as parts

  /** A tool result's content as a list of parts: a string wrapped, a list kept, anything else printed. */
  function ResultParts(codec: Codec, c: Json): Json
  {
    match c
    case JStr(s) => JArr([TextPart(s)])
    case JArr(_) => c
    case _ => JArr([TextPart(PyStr(codec, c))])
  }

  function PartOf(codec: Codec, b: Block): Json
  {
    match b
    case TextBlock(t) => TextPart(t)
    case ImageBlock(src) => JObj([("type", JStr("image")), ("source", JObj(src))])
    case ToolUseBlock(id, name, input) =>
      JObj([("type", JStr("tool_use")), ("id", JStr(id)), ("name", JStr(name)), ("input", JObj(input))])
    case ToolResultBlock(id, c) =>
      JObj([("type", JStr("tool_result")), ("tool_use_id", JStr(id)), ("content", ResultParts(codec, c))])
  }

  function Parts(codec: Codec, bs: seq<Block>): seq<Json>
  {
    seq(|bs|, i requires 0 <= i < |bs| => PartOf(codec, bs[i]))
  }

  // ---------------------------------------------------------------- messages

  /** The folded text of a user message with a tool result: every block's text, stripped. */
  function FoldedText(codec: Codec, bs: seq<Block>): Result<string>
  {
    match Collect(FoldBlockTexts(codec, bs))
    case Err(e) => Err(e)
    case Ok(ts) => Ok(Strip(Concat(ts)))
  }

  /**
   * One inbound message: a string content passes through; a user message with a tool result
   * is folded into one string; any other block list becomes a list of parts.
   */
  function ConvertMessage(codec: Codec, m: Message): Result<Json>
  {
    match m.content
    case ContentText(s) => Ok(RoleContent(m.role, JStr(s)))
    case ContentBlocks(bs) =>
      if m.role == "user" && HasToolResult(bs) then
        (match FoldedText(codec, bs)
         case Err(e) => Err(e)
         case Ok(t) => Ok(RoleContent("user", JStr(t))))
      else Ok(RoleContent(m.role, JArr(Parts(codec, bs))))
  }

  /** `any(block.type == "tool_result" for block in content)`. */
  method AnyToolResult(bs: seq<Block>) returns (found: bool)
    ensures found == HasToolResult(bs)
  {
    found := false;
    var j := 0;
    while j < |bs|
      invariant 0 <= j <= |bs|
      invariant found <==> exists k :: 0 <= k < j && bs[k].ToolResultBlock?
    {
      found := found || bs[j].ToolResultBlock?;
      j := j + 1;
    }
  }

  /** The loop that folds a user message's blocks into `text_content`, then strips it. */
  method FoldBlocks(codec: Codec, bs: seq<Block>) returns (r: Result<string>)
    ensures r == FoldedText(codec, bs)
  {
    ghost var rs := FoldBlockTexts(codec, bs);
    var textContent := "";
    ghost var ts: seq<string> := [];
    var i := 0;
    while i < |bs|
      invariant 0 <= i <= |bs|
      invariant Collect(rs[..i]) == Ok(ts) && textContent == Concat(ts)
    {
      var t: Result<string>;
      match bs[i] {
        case TextBlock(text) =>
          t := Ok(text + "\n");
        case ToolResultBlock(id, c) =>
          var s := FoldResult(codec, c);
          t := if s.Err? then Err(s.error) else Ok("Tool result for " + id + ":\n" + s.value + "\n");
        case _ =>
          t := Ok("");
      }
      assert t == rs[i];
      CollectStep(rs, i, ts);
      if t.Err? {
        return Err(t.error);
      }
      ConcatSnoc(ts, t.value);
      textContent := textContent + t.value;
      ts := ts + [t.value];
      i := i + 1;
    }
    assert rs[..i] == rs;
    return Ok(Strip(textContent));
  }

  /** The loop that converts every block into a part, in order. */
  method ConvertParts(codec: Codec, bs: seq<Block>) returns (processed: seq<Json>)
    ensures processed == Parts(codec, bs)
  {
    processed := [];
    var i := 0;
    while i < |bs|
      invariant 0 <= i <= |bs|
      invariant processed == Parts(codec, bs)[..i]
    {
      processed := processed + [PartOf(codec, bs[i])];
      i := i + 1;
    }
    assert Parts(codec, bs)[..i] == Parts(codec, bs);
  }

  /** One message's conversion, with its loops over the blocks. */
  method ConvertMessageBlocks(codec: Codec, m: Message) returns (r: Result<Json>)
    ensures r == ConvertMessage(codec, m)
  {
    if m.content.ContentText? {
      return Ok(RoleContent(m.role, JStr(m.content.text)));
    }
    var bs := m.content.blocks;
    var anyToolResult := AnyToolResult(bs);
    if m.role == "user" && anyToolResult {
      var folded := FoldBlocks(codec, bs);
      if folded.Err? {
        return Err(folded.error);
      }
      return Ok(RoleContent("user", JStr(folded.value)));
    }
    var processed := ConvertParts(codec, bs);
    return Ok(RoleContent(m.role, JArr(processed)));
  }

  function MessageResults(codec: Codec, ms: seq<Message>): seq<Result<Json>>
  {
    seq(|ms|, i requires 0 <= i < |ms| => ConvertMessage(codec, ms[i]))
  }

  /**
   * Every message becomes one message with its role (a folded tool result is a user message
   * with a string content); the only error is a list item whose `text` is not a string.
   */
  lemma ConvertMessageShape(codec: Codec, m: Message)
    ensures ConvertMessage(codec, m).Ok? ==>
      var fs := ConvertMessage(codec, m).value.fields;
      && ConvertMessage(codec, m).value.JObj?
      && Get(fs, "role") == Some(JStr(m.role))
      && (m.content.ContentText? ==> Get(fs, "content") == Some(JStr(m.content.text)))
      && (m.content.ContentBlocks? && m.role == "user" && HasToolResult(m.content.blocks) ==>
            Get(fs, "content").Some? && Get(fs, "content").value.JStr?)
      && (m.content.ContentBlocks? && !(m.role == "user" && HasToolResult(m.content.blocks)) ==>
            Get(fs, "content") == Some(JArr(Parts(codec, m.content.blocks))))
    ensures ConvertMessage(codec, m).Err? ==>
      m.role == "user" && m.content.ContentBlocks? && HasToolResult(m.content.blocks)
  {
  }

  /** A folded tool result names its tool and carries the result's text. */
  lemma FoldedToolResult(codec: Codec, id: string, c: Json)
    requires FoldResultText(codec, c).Ok?
    ensures var t := FoldBlockText(codec, ToolResultBlock(id, c)).value;
      StartsWith(t, "Tool result for " + id + ":\n") && EndsWith(t, FoldResultText(codec, c).value + "\n")
  {
    var s := FoldResultText(codec, c).value;
    var t := "Tool result for " + id + ":\n" + s + "\n";
    assert t == ("Tool result for " + id + ":\n") + (s + "\n");
    assert t[..|"Tool result for " + id + ":\n"|] == "Tool result for " + id + ":\n";
    assert t[|t| - |s + "\n"|..] == s + "\n";
  }

  // ---------------------------------------------------------------- limits, tools, tool choice

  const OpenAiMaxTokens: int := 16384

  function MaxTokens(model: string, maxTokens: int): (r: int)
    ensures StartsWith(model, "openai/") || StartsWith(model, "gemini/") ==>
      r <= OpenAiMaxTokens && r <= maxTokens && (r == maxTokens || r == OpenAiMaxTokens)
    ensures !(StartsWith(model, "openai/") || StartsWith(model, "gemini/")) ==> r == maxTokens
  {
    if StartsWith(model, "openai/") || StartsWith(model, "gemini/") then
      if maxTokens < OpenAiMaxTokens then maxTokens else OpenAiMaxTokens
    else maxTokens
  }

  /** The schema sent as `parameters`: cleaned for a `gemini/` model. */
  function ToolParameters(model: string, t: Tool): Result<Json>
  {
    if StartsWith(model, "gemini/") then GeminiSchema.CleanSchema(JObj(t.inputSchema)) else Ok(JObj(t.inputSchema))
  }

  /** `{"type": "function", "function": {"name", "description", "parameters"}}`. */
  function FunctionTool(t: Tool, parameters: Json): Json
  {
    JObj([("type", JStr("function")),
          ("function", JObj([("name", JStr(t.name)),
                             ("description", if t.description.Some? then JStr(t.description.value) else JNull),
                             ("parameters", parameters)]))])
  }

  function ToolEntry(model: string, t: Tool): Result<Json>
  {
    match ToolParameters(model, t)
    case Err(e) => Err(e)
    case Ok(p) => Ok(FunctionTool(t, p))
  }

  function ToolEntries(model: string, tools: seq<Tool>): seq<Result<Json>>
  {
    seq(|tools|, i requires 0 <= i < |tools| => ToolEntry(model, tools[i]))
  }

  /** The OpenAI `tool_choice` for an Anthropic one: `auto`, `any`, a named function, or `auto` by default. */
  function ToolChoice(tc: Dict): (r: Json)
    ensures r == JStr("any") <==> Get(tc, "type") == Some(JStr("any"))
    ensures r.JObj? <==> Get(tc, "type") == Some(JStr("tool")) && HasKey(tc, "name")
    ensures r.JObj? ==> r == JObj([("type", JStr("function")), ("function", JObj([("name", Get(tc, "name").value)]))])
    ensures r == JStr("auto") <==> !(Get(tc, "type") == Some(JStr("any"))) && !r.JObj?
  {
    var choiceType := Get(tc, "type");
    if choiceType == Some(JStr("auto")) then JStr("auto")
    else if choiceType == Some(JStr("any")) then JStr("any")
    else if choiceType == Some(JStr("tool")) && HasKey(tc, "name") then
      JObj([("type", JStr("function")), ("function", JObj([("name", Get(tc, "name").value)]))])
    else JStr("auto")
  }

  // ---------------------------------------------------------------- the request dict

  /** `[(key, v)]` when `present`, as a conditional `d[key] = v` adds it. */
  function Field(key: string, present: bool, v: Json): Dict
  {
    if present then [(key, v)] else []
  }

  /** The request dict once the messages and tools have been converted. */
  function RequestDict(req: MessagesRequest, messages: seq<Json>, tools: seq<Json>): Dict
  {
    BaseFields(req, messages) + OptionalFields(req, tools)
  }

  /** The request `convert_anthropic_to_litellm` returns, or the exception it raises. */
  function LitellmRequest(codec: Codec, req: MessagesRequest): Result<Dict>
  {
    var sys := if SystemMessage(req.system).Some? then [SystemMessage(req.system).value] else [];
    match Collect(MessageResults(codec, req.messages))
    case Err(e) => Err(e)
    case Ok(msgs) =>
      match Collect(ToolEntries(req.model, req.tools))
      case Err(e) => Err(e)
      case Ok(tools) => Ok(RequestDict(req, sys + msgs, tools))
  }

  /** The loop over the messages: each converted in order, stopping at the first exception. */
  method ConvertMessages(codec: Codec, ms: seq<Message>) returns (r: Result<seq<Json>>)
    ensures r == Collect(MessageResults(codec, ms))
  {
    var rs := MessageResults(codec, ms);
    var messages: seq<Json> := [];
    var i := 0;
    while i < |ms|
      invariant 0 <= i <= |ms|
      invariant Collect(rs[..i]) == Ok(messages)
    {
      var m := ConvertMessageBlocks(codec, ms[i]);
      CollectStep(rs, i, messages);
      if m.Err? {
        return Err(m.error);
      }
      messages := messages + [m.value];
      i := i + 1;
    }
    assert rs[..i] == rs;
    return Ok(messages);
  }

  /** The loop over the tools: each becomes a function tool, its schema cleaned for Gemini. */
  method ConvertTools(model: string, tools: seq<Tool>) returns (r: Result<seq<Json>>)
    ensures r == Collect(ToolEntries(model, tools))
  {
    var ts := ToolEntries(model, tools);
    var openaiTools: seq<Json> := [];
    var isGemini := StartsWith(model, "gemini/");
    var k := 0;
    while k < |tools|
      invariant 0 <= k <= |tools|
      invariant Collect(ts[..k]) == Ok(openaiTools)
    {
      var tool := tools[k];
      var inputSchema := JObj(tool.inputSchema);
      CollectStep(ts, k, openaiTools);
      if isGemini {
        var cleaned := GeminiSchema.CleanSchema(inputSchema);
        if cleaned.Err? {
          return Err(cleaned.error);
        }
        inputSchema := cleaned.value;
      }
      openaiTools := openaiTools + [FunctionTool(tool, inputSchema)];
      k := k + 1;
    }
    assert ts[..k] == ts;
    return Ok(openaiTools);
  }

  /** `convert_anthropic_to_litellm(anthropic_request)`. */
  method ConvertAnthropicToLitellm(codec: Codec, req: MessagesRequest) returns (r: Result<Dict>)
    ensures r == LitellmRequest(codec, req)
  {
    var sys := SystemMessages(req.system);
    var converted := ConvertMessages(codec, req.messages);
    if converted.Err? {
      return Err(converted.error);
    }
    var openaiTools := ConvertTools(req.model, req.tools);
    if openaiTools.Err? {
      return Err(openaiTools.error);
    }
    r := Ok(RequestDict(req, sys + converted.value, openaiTools.value));
  }

  // ---------------------------------------------------------------- properties of the request

  /** The five fields every request has. */
  function BaseFields(req: MessagesRequest, messages: seq<Json>): Dict
  {
    [("model", JStr(req.model)),
     ("messages", JArr(messages)),
     ("max_tokens", JInt(MaxTokens(req.model, req.maxTokens))),
     ("temperature", req.temperature),
     ("stream", req.stream)]
  }

  /** The fields after the five fixed ones. */
  function OptionalFields(req: MessagesRequest, tools: seq<Json>): Dict
  {
    Field("stop", Truthy(req.stopSequences), req.stopSequences)
    + Field("top_p", Truthy(req.topP), req.topP)
    + Field("top_k", Truthy(req.topK), req.topK)
    + Field("tools", req.tools != [], JArr(tools))
    + Field("tool_choice", req.toolChoice != [], ToolChoice(req.toolChoice))
  }

  /** Keys that only the optional part can hold. */
  predicate OptionalKey(key: string)
  {
    key == "stop" || key == "top_p" || key == "top_k" || key == "tools" || key == "tool_choice"
  }

  lemma BaseFieldsGet(req: MessagesRequest, messages: seq<Json>, key: string)
    ensures key == "messages" ==> Get(BaseFields(req, messages), key) == Some(JArr(messages))
    ensures key == "max_tokens" ==> Get(BaseFields(req, messages), key) == Some(JInt(MaxTokens(req.model, req.maxTokens)))
    ensures OptionalKey(key) ==> Get(BaseFields(req, messages), key).None?
  {
    var b := BaseFields(req, messages);
    if key == "messages" {
      assert b[0].0 != key;
      assert b[1..][0] == ("messages", JArr(messages));
    } else if key == "max_tokens" {
      assert b[0].0 != key && b[1].0 != key;
      assert b[1..][1..][0] == ("max_tokens", JInt(MaxTokens(req.model, req.maxTokens)));
    } else if OptionalKey(key) {
      assert forall i :: 0 <= i < |b| ==> b[i].0 != key;
    }
  }

  lemma FieldGet(k: string, p: bool, v: Json, rest: Dict, key: string)
    ensures Get(Field(k, p, v) + rest, key) == if p && key == k then Some(v) else Get(rest, key)
  {
    if p {
      assert (Field(k, p, v) + rest)[1..] == rest;
    } else {
      assert Field(k, p, v) + rest == rest;
    }
  }

  /** A lookup in five conditional fields with distinct keys finds the one named, if present. */
  lemma FiveFieldsGet(p1: bool, v1: Json, p2: bool, v2: Json, p3: bool, v3: Json, p4: bool, v4: Json,
                      p5: bool, v5: Json, key: string)
    ensures var o := Field("stop", p1, v1) + Field("top_p", p2, v2) + Field("top_k", p3, v3)
                     + Field("tools", p4, v4) + Field("tool_choice", p5, v5);
      && (key == "stop" ==> Get(o, key) == (if p1 then Some(v1) else None))
      && (key == "top_p" ==> Get(o, key) == (if p2 then Some(v2) else None))
      && (key == "top_k" ==> Get(o, key) == (if p3 then Some(v3) else None))
      && (key == "tools" ==> Get(o, key) == (if p4 then Some(v4) else None))
      && (key == "tool_choice" ==> Get(o, key) == (if p5 then Some(v5) else None))
  {
    var u := Field("tool_choice", p5, v5);
    var t := Field("tools", p4, v4) + u;
    var c := Field("top_k", p3, v3) + t;
    var b := Field("top_p", p2, v2) + c;
    assert Field("stop", p1, v1) + Field("top_p", p2, v2) + Field("top_k", p3, v3)
           + Field("tools", p4, v4) + u == Field("stop", p1, v1) + b;
    FieldGet("stop", p1, v1, b, key);
    FieldGet("top_p", p2, v2, c, key);
    FieldGet("top_k", p3, v3, t, key);
    FieldGet("tools", p4, v4, u, key);
    FieldGet("tool_choice", p5, v5, [], key);
    assert u == u + [];
  }

  lemma OptionalFieldsGet(req: MessagesRequest, tools: seq<Json>, key: string)
    ensures var o := OptionalFields(req, tools);
      && (key == "stop" ==> Get(o, key) == (if Truthy(req.stopSequences) then Some(req.stopSequences) else None))
      && (key == "top_p" ==> Get(o, key) == (if Truthy(req.topP) then Some(req.topP) else None))
      && (key == "top_k" ==> Get(o, key) == (if Truthy(req.topK) then Some(req.topK) else None))
      && (key == "tools" ==> Get(o, key) == (if req.tools != [] then Some(JArr(tools)) else None))
      && (key == "tool_choice" ==>
            Get(o, key) == (if req.toolChoice != [] then Some(ToolChoice(req.toolChoice)) else None))
  {
    FiveFieldsGet(Truthy(req.stopSequences), req.stopSequences, Truthy(req.topP), req.topP,
                  Truthy(req.topK), req.topK, req.tools != [], JArr(tools),
                  req.toolChoice != [], ToolChoice(req.toolChoice), key);
  }

  /** Where each field of the request dict comes from. */
  lemma RequestDictGet(req: MessagesRequest, messages: seq<Json>, tools: seq<Json>, key: string)
    ensures var d := RequestDict(req, messages, tools);
      && (key == "messages" ==> Get(d, key) == Some(JArr(messages)))
      && (key == "max_tokens" ==> Get(d, key) == Some(JInt(MaxTokens(req.model, req.maxTokens))))
      && (OptionalKey(key) ==> Get(d, key) == Get(OptionalFields(req, tools), key))
  {
    GetAppend(BaseFields(req, messages), OptionalFields(req, tools), key);
    BaseFieldsGet(req, messages, key);
  }

  /**
   * The message list is the optional system message followed by one converted message per
   * inbound message, in order.
   */
  lemma RequestMessages(codec: Codec, req: MessagesRequest)
    requires LitellmRequest(codec, req).Ok?
    ensures var d := LitellmRequest(codec, req).value;
      var off := if SystemMessage(req.system).Some? then 1 else 0;
      && Get(d, "messages").Some? && Get(d, "messages").value.JArr?
      && |Get(d, "messages").value.items| == off + |req.messages|
      && (off == 1 ==> Get(d, "messages").value.items[0] == SystemMessage(req.system).value)
      && forall i :: 0 <= i < |req.messages| ==>
           Ok(Get(d, "messages").value.items[off + i]) == ConvertMessage(codec, req.messages[i])
  {
    var msgs := Collect(MessageResults(codec, req.messages)).value;
    var tools := Collect(ToolEntries(req.model, req.tools)).value;
    var sys := if SystemMessage(req.system).Some? then [SystemMessage(req.system).value] else [];
    RequestDictGet(req, sys + msgs, tools, "messages");
    assert forall i :: 0 <= i < |req.messages| ==> MessageResults(codec, req.messages)[i] == Ok(msgs[i]);
  }

  /** `max_tokens` is capped at 16384 only for `openai/` and `gemini/` models. */
  lemma RequestMaxTokens(codec: Codec, req: MessagesRequest)
    requires LitellmRequest(codec, req).Ok?
    ensures var d := LitellmRequest(codec, req).value;
      Get(d, "max_tokens") == Some(JInt(
        if StartsWith(req.model, "openai/") || StartsWith(req.model, "gemini/")
        then (if req.maxTokens < 16384 then req.maxTokens else 16384)
        else req.maxTokens))
  {
    var msgs := Collect(MessageResults(codec, req.messages)).value;
    var tools := Collect(ToolEntries(req.model, req.tools)).value;
    var sys := if SystemMessage(req.system).Some? then [SystemMessage(req.system).value] else [];
    RequestDictGet(req, sys + msgs, tools, "max_tokens");
  }

  /** `stop`, `top_p` and `top_k` are present exactly when truthy, `tool_choice` when the request's is non-empty. */
  lemma RequestOptionalFields(codec: Codec, req: MessagesRequest)
    requires LitellmRequest(codec, req).Ok?
    ensures var d := LitellmRequest(codec, req).value;
      && Get(d, "stop") == (if Truthy(req.stopSequences) then Some(req.stopSequences) else None)
      && Get(d, "top_p") == (if Truthy(req.topP) then Some(req.topP) else None)
      && Get(d, "top_k") == (if Truthy(req.topK) then Some(req.topK) else None)
      && Get(d, "tool_choice") == (if req.toolChoice != [] then Some(ToolChoice(req.toolChoice)) else None)
  {
    var msgs := Collect(MessageResults(codec, req.messages)).value;
    var tools := Collect(ToolEntries(req.model, req.tools)).value;
    var sys := if SystemMessage(req.system).Some? then [SystemMessage(req.system).value] else [];
    RequestDictGet(req, sys + msgs, tools, "stop");
    OptionalFieldsGet(req, tools, "stop");
    RequestDictGet(req, sys + msgs, tools, "top_p");
    OptionalFieldsGet(req, tools, "top_p");
    RequestDictGet(req, sys + msgs, tools, "top_k");
    OptionalFieldsGet(req, tools, "top_k");
    RequestDictGet(req, sys + msgs, tools, "tool_choice");
    OptionalFieldsGet(req, tools, "tool_choice");
  }

  /**
   * `tools` is present exactly when the request has tools: one function entry per tool, in
   * order.
   */
  lemma RequestTools(codec: Codec, req: MessagesRequest)
    requires LitellmRequest(codec, req).Ok?
    ensures var d := LitellmRequest(codec, req).value;
      && (Get(d, "tools").Some? <==> req.tools != [])
      && (req.tools != [] ==>
            && Get(d, "tools").value.JArr?
            && |Get(d, "tools").value.items| == |req.tools|
            && forall i :: 0 <= i < |req.tools| ==>
                 Ok(Get(d, "tools").value.items[i]) == ToolEntry(req.model, req.tools[i]))
  {
    var msgs := Collect(MessageResults(codec, req.messages)).value;
    var tools := Collect(ToolEntries(req.model, req.tools)).value;
    var sys := if SystemMessage(req.system).Some? then [SystemMessage(req.system).value] else [];
    RequestDictGet(req, sys + msgs, tools, "tools");
    OptionalFieldsGet(req, tools, "tools");
    assert forall i :: 0 <= i < |req.tools| ==> ToolEntries(req.model, req.tools)[i] == Ok(tools[i]);
  }

  /** A tool entry carries the tool's name and description, and a gemini model gets a clean schema. */
  lemma ToolEntryShape(model: string, t: Tool)
    ensures ToolEntry(model, t).Err? <==> StartsWith(model, "gemini/") && GeminiSchema.Raises(JObj(t.inputSchema))
    ensures ToolEntry(model, t).Ok? ==>
      var f := ToolEntry(model, t).value.fields[1].1.fields;
      && ToolEntry(model, t).value.fields[0] == ("type", JStr("function"))
      && f[0] == ("name", JStr(t.name))
      && f[1] == ("description", if t.description.Some? then JStr(t.description.value) else JNull)
      && (StartsWith(model, "gemini/") ==> GeminiSchema.SchemaClean(f[2].1))
      && (!StartsWith(model, "gemini/") ==> f[2].1 == JObj(t.inputSchema))
  {
  }

  /** The conversion fails only on a folded tool-result text that is not a string, or an unhashable Gemini format. */
  lemma RequestErrors(codec: Codec, req: MessagesRequest)
    ensures LitellmRequest(codec, req).Err? <==>
      || (exists i :: 0 <= i < |req.messages| && ConvertMessage(codec, req.messages[i]).Err?)
      || (exists i :: 0 <= i < |req.tools| && ToolEntry(req.model, req.tools[i]).Err?)
  {
    var ms := MessageResults(codec, req.messages);
    var ts := ToolEntries(req.model, req.tools);
    assert forall i :: 0 <= i < |req.messages| ==> ms[i] == ConvertMessage(codec, req.messages[i]);
    assert forall i :: 0 <= i < |req.tools| ==> ts[i] == ToolEntry(req.model, req.tools[i]);
  }
}
