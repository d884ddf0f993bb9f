/**
 * The pass `create_message` runs over the request's messages when the model name contains
 * `openai`: every list content becomes one string, a `None` content becomes `"..."`, and
 * fields OpenAI rejects are deleted; a final pass fills in any content still missing.
 */
module OpenAiFlatten {
  import opened Wrappers
  import opened Text
  import opened Json
  import opened ApiTypes
  import RequestTranslation

  /** The keys a message may keep. */
  const AllowedKeys: seq<string> := ["role", "content", "name", "tool_call_id", "tool_calls"]

  /** The placeholder for an empty content. */
  const Placeholder: string := "..."

  /** `s.strip() or "..."`: never empty. */
  function StrippedOrPlaceholder(s: string): (r: string)
    ensures r != ""
    ensures r == Placeholder || r == Strip(s)
  {
    if Strip(s) == "" then Placeholder else Strip(s)
  }

  predicate IsToolResultBlock(b: Json)
  {
    b.JObj? && Get(b.fields, "type") == Some(JStr("tool_result"))
  }

  /** The special case: a non-empty list whose blocks are all tool results. */
  predicate OnlyToolResults(blocks: seq<Json>)
  {
    blocks != [] && forall i :: 0 <= i < |blocks| ==> IsToolResultBlock(blocks[i])
  }

  // ---------------------------------------------------------------- the tool-result-only case

  /**
   * An item of such a block's list content. A typed-text item needs a string `text`; any
   * other dict gives its `text`, its dump when it has none, or `str(item)` when the
   * concatenation with a non-string `text` raises inside the `try`.
   */
  function ToolOnlyItemText(codec: Codec, item: Json): Result<string>
  {
    match item
    case JObj(fs) =>
      if Get(fs, "type") == Some(JStr("text")) then
        (match TextField(fs, "") case Err(e) => Err(e) case Ok(t) => Ok(t + "\n"))
      else
        (match Get(fs, "text")
         case None => Ok(codec.dumps(item, Default) + "\n")
         case Some(JStr(t)) => Ok(t + "\n")
         case Some(_) => Ok(PyStr(codec, item) + "\n"))
    case _ => Ok("")
  }

  /** `"Tool Result:\n"` and the block's content. */
  function ToolOnlyBlockText(codec: Codec, block: Json): Result<string>
  {
    var rc := if block.JObj? then GetOr(block.fields, "content", JArr([])) else JArr([]);
    var body :=
      match rc
      case JArr(items) =>
        ConcatResults(seq(|items|, i requires 0 <= i < |items| => ToolOnlyItemText(codec, items[i])))
      case JStr(s) => Ok(s + "\n")
      case _ => Ok(codec.dumps(rc, Default) + "\n");
    match body
    case Err(e) => Err(e)
    case Ok(t) => Ok("Tool Result:\n" + t)
  }

  function ToolOnlyTexts(codec: Codec, blocks: seq<Json>): seq<Result<string>>
  {
    seq(|blocks|, i requires 0 <= i < |blocks| => ToolOnlyBlockText(codec, blocks[i]))
  }

  // ---------------------------------------------------------------- the general case

  /** A tool result's content inside a general block list. */
  function NestedResultText(codec: Codec, rc: Json): Result<string>
  {
    match rc
    case JArr(items) =>
      ConcatResults(seq(|items|, i requires 0 <= i < |items| => RequestTranslation.FoldItemText(items[i], codec)))
    case JObj(fs) =>
      if Get(fs, "type") == Some(JStr("text")) then
        (match TextField(fs, "") case Err(e) => Err(e) case Ok(t) => Ok(t + "\n"))
      else Ok(codec.dumps(rc, Default) + "\n")
    case JStr(s) => Ok(s + "\n")
    case _ => Ok(codec.dumps(rc, Default) + "\n")
  }

  const ImageText: string := "[Image content - not displayed in text format]\n"

  /** One block's text: text, tool result, tool use and image blocks; anything else adds nothing. */
  function BlockText(codec: Codec, block: Json): Result<string>
  {
    match block
    case JObj(fs) =>
      var t := Get(fs, "type");
      if t == Some(JStr("text")) then
        (match TextField(fs, "") case Err(e) => Err(e) case Ok(s) => Ok(s + "\n"))
      else if t == Some(JStr("tool_result")) then
        var header := "[Tool Result ID: " + PyStr(codec, GetOr(fs, "tool_use_id", JStr("unknown"))) + "]\n";
        (match NestedResultText(codec, GetOr(fs, "content", JArr([])))
         case Err(e) => Err(e)
         case Ok(s) => Ok(header + s))
      else if t == Some(JStr("tool_use")) then
        Ok("[Tool: " + PyStr(codec, GetOr(fs, "name", JStr("unknown")))
           + " (ID: " + PyStr(codec, GetOr(fs, "id", JStr("unknown"))) + ")]\nInput: "
           + codec.dumps(GetOr(fs, "input", EmptyObj), Default) + "\n\n")
      else if t == Some(JStr("image")) then Ok(ImageText)
      else Ok("")
    case _ => Ok("")
  }

  function BlockTexts(codec: Codec, blocks: seq<Json>): seq<Result<string>>
  {
    seq(|blocks|, i requires 0 <= i < |blocks| => BlockText(codec, blocks[i]))
  }

  // ---------------------------------------------------------------- one message, both passes

  /** The first pass on one message. */
  function FlattenMessage(codec: Codec, m: Dict): Result<Dict>
  {
    match Get(m, "content")
    case Some(JArr(blocks)) =>
      if OnlyToolResults(blocks) then
        (match ConcatResults(ToolOnlyTexts(codec, blocks))
         case Err(e) => Err(e)
         case Ok(t) => Ok(Set(m, "content", JStr(StrippedOrPlaceholder(t)))))
      else
        (match ConcatResults(BlockTexts(codec, blocks))
         case Err(e) => Err(e)
         case Ok(t) => Ok(Restrict(Set(m, "content", JStr(StrippedOrPlaceholder(t))), AllowedKeys)))
    case Some(JNull) => Ok(Restrict(Set(m, "content", JStr(Placeholder)), AllowedKeys))
    case _ => Ok(Restrict(m, AllowedKeys))
  }

  /** The final pass on one message: a list is dumped, a missing or `None` content becomes `"..."`. */
  function FinalCheck(codec: Codec, m: Dict): Dict
  {
    match Get(m, "content")
    case Some(JArr(_)) => Set(m, "content", JStr("Content as JSON: " + codec.dumps(Get(m, "content").value, Default)))
    case Some(JNull) => Set(m, "content", JStr(Placeholder))
    case None => Set(m, "content", JStr(Placeholder))
    case _ => m
  }

  function FirstPass(codec: Codec, ms: seq<Dict>): seq<Result<Dict>>
  {
    seq(|ms|, i requires 0 <= i < |ms| => FlattenMessage(codec, ms[i]))
  }

  /** The messages after both passes, or the exception the first pass raises. */
  function Flattened(codec: Codec, ms: seq<Dict>): Result<seq<Dict>>
  {
    match Collect(FirstPass(codec, ms))
    case Err(e) => Err(e)
    case Ok(firsts) => Ok(FinalPass(codec, firsts))
  }

  /** The first pass on one message, with its loops over the blocks and over the keys. */
  method FlattenOne(codec: Codec, m: Dict) returns (r: Result<Dict>)
    ensures r == FlattenMessage(codec, m)
  {
    var content := Get(m, "content");
    if content.Some? && content.value.JArr? {
      var blocks := content.value.items;
      var isOnlyToolResult := true;
      var j := 0;
      while j < |blocks|
        invariant 0 <= j <= |blocks|
        invariant isOnlyToolResult <==> forall k :: 0 <= k < j ==> IsToolResultBlock(blocks[k])
      {
        if !IsToolResultBlock(blocks[j]) {
          isOnlyToolResult := false;
          break;
        }
        j := j + 1;
      }
      if isOnlyToolResult && |blocks| > 0 {
        assert j == |blocks|;
        var allText := AppendResults(ToolOnlyTexts(codec, blocks));
        if allText.Err? {
          return Err(allText.error);
        }
        return Ok(Set(m, "content", JStr(StrippedOrPlaceholder(allText.value))));
      }
      var textContent := AppendResults(BlockTexts(codec, blocks));
      if textContent.Err? {
        return Err(textContent.error);
      }
      var msg := Set(m, "content", JStr(StrippedOrPlaceholder(textContent.value)));
      var kept := RemoveUnsupported(msg);
      r := Ok(kept);
    } else if content == Some(JNull) {
      var kept := RemoveUnsupported(Set(m, "content", JStr(Placeholder)));
      r := Ok(kept);
    } else {
      var kept := RemoveUnsupported(m);
      r := Ok(kept);
    }
  }

  /** The loop deleting the keys OpenAI does not accept. */
  method RemoveUnsupported(m: Dict) returns (r: Dict)
    ensures r == Restrict(m, AllowedKeys)
  {
    r := [];
    var i := 0;
    while i < |m|
      invariant 0 <= i <= |m|
      invariant r + Restrict(m[i..], AllowedKeys) == Restrict(m, AllowedKeys)
    {
      assert m[i..][1..] == m[i + 1..];
      if m[i].0 in AllowedKeys {
        r := r + [m[i]];
      }
      i := i + 1;
    }
  }

  /** The final pass on every message. */
  function FinalPass(codec: Codec, firsts: seq<Dict>): seq<Dict>
  {
    seq(|firsts|, i requires 0 <= i < |firsts| => FinalCheck(codec, firsts[i]))
  }

  /**
   * The first pass over the message list, in place. On an exception the messages before the
   * failing one have been rewritten and the rest are untouched.
   */
  method FirstPassInPlace(codec: Codec, msgs: array<Dict>) returns (ok: bool)
    modifies msgs
    ensures ok <==> Collect(FirstPass(codec, old(msgs[..]))).Ok?
    ensures ok ==> msgs[..] == Collect(FirstPass(codec, old(msgs[..]))).value
    ensures !ok ==>
      exists k ::
        && 0 <= k < msgs.Length
        && FlattenMessage(codec, old(msgs[k])).Err?
        && (forall i :: 0 <= i < k ==> Ok(msgs[i]) == FlattenMessage(codec, old(msgs[i])))
        && msgs[k..] == old(msgs[k..])
  {
    ghost var orig := msgs[..];
    ghost var rs := FirstPass(codec, orig);
    ghost var firsts: seq<Dict> := [];
    var i := 0;
    while i < msgs.Length
      invariant 0 <= i <= msgs.Length && |firsts| == i
      invariant Collect(rs[..i]) == Ok(firsts)
      invariant forall j :: 0 <= j < i ==> msgs[j] == firsts[j]
      invariant forall j :: i <= j < msgs.Length ==> msgs[j] == orig[j]
    {
      var m := FlattenOne(codec, msgs[i]);
      assert m == rs[i];
      CollectStep(rs, i, firsts);
      if m.Err? {
        FirstPassPrefix(codec, orig, firsts, i);
        assert msgs[i..] == old(msgs[i..]);
        return false;
      }
      msgs[i] := m.value;
      firsts := firsts + [m.value];
      i := i + 1;
    }
    assert rs[..i] == rs;
    assert msgs[..] == firsts;
    return true;
  }

  /** The messages a successful prefix of the first pass has produced. */
  lemma FirstPassPrefix(codec: Codec, ms: seq<Dict>, firsts: seq<Dict>, i: nat)
    requires i <= |ms| && Collect(FirstPass(codec, ms)[..i]) == Ok(firsts)
    ensures |firsts| == i
    ensures forall j :: 0 <= j < i ==> Ok(firsts[j]) == FlattenMessage(codec, ms[j])
  {
    var rs := FirstPass(codec, ms);
    assert forall j :: 0 <= j < i ==> rs[..i][j] == rs[j];
  }

  /** The final pass over the message list, in place. */
  method FinalPassInPlace(codec: Codec, msgs: array<Dict>)
    modifies msgs
    ensures msgs[..] == FinalPass(codec, old(msgs[..]))
  {
    var k := 0;
    while k < msgs.Length
      invariant 0 <= k <= msgs.Length
      invariant forall j :: 0 <= j < k ==> msgs[j] == FinalCheck(codec, old(msgs[j]))
      invariant forall j :: k <= j < msgs.Length ==> msgs[j] == old(msgs[j])
    {
      msgs[k] := FinalCheck(codec, msgs[k]);
      k := k + 1;
    }
  }

  /**
   * Both passes over the message list, in place; the final pass runs only when the first
   * one completes.
   */
  method FlattenForOpenAI(codec: Codec, msgs: array<Dict>) returns (ok: bool)
    modifies msgs
    ensures ok <==> Flattened(codec, old(msgs[..])).Ok?
    ensures ok ==> msgs[..] == Flattened(codec, old(msgs[..])).value
    ensures !ok ==>
      exists k ::
        && 0 <= k < msgs.Length
        && FlattenMessage(codec, old(msgs[k])).Err?
        && (forall i :: 0 <= i < k ==> Ok(msgs[i]) == FlattenMessage(codec, old(msgs[i])))
        && msgs[k..] == old(msgs[k..])
  {
    ok := FirstPassInPlace(codec, msgs);
    if ok {
      FinalPassInPlace(codec, msgs);
    }
  }

  // ---------------------------------------------------------------- properties

  /**
   * What the first pass leaves in a message: the allowed keys other than `content` read as
   * before; a list or `None` content has become a non-empty string and any other content is
   * unchanged; outside the tool-result-only case no other key is left.
   */
  lemma FirstPassReads(codec: Codec, m: Dict)
    requires FlattenMessage(codec, m).Ok?
    ensures var f := FlattenMessage(codec, m).value;
      var c := Get(m, "content");
      && (forall k :: k != "content" && k in AllowedKeys ==> Get(f, k) == Get(m, k))
      && (c.Some? && (c.value.JArr? || c.value.JNull?) ==>
            Get(f, "content").Some? && Get(f, "content").value.JStr? && Get(f, "content").value.s != "")
      && (!(c.Some? && (c.value.JArr? || c.value.JNull?)) ==> Get(f, "content") == c)
      && (!(c.Some? && c.value.JArr? && OnlyToolResults(c.value.items)) ==>
            forall i :: 0 <= i < |f| ==> f[i].0 in AllowedKeys)
  {
    var c := Get(m, "content");
    assert "content" in AllowedKeys;
    if c.Some? && c.value.JArr? {
      var blocks := c.value.items;
      if OnlyToolResults(blocks) {
        var t := ConcatResults(ToolOnlyTexts(codec, blocks)).value;
        SetGet(m, "content", JStr(StrippedOrPlaceholder(t)));
      } else {
        var t := ConcatResults(BlockTexts(codec, blocks)).value;
        SetGet(m, "content", JStr(StrippedOrPlaceholder(t)));
        RestrictGet(Set(m, "content", JStr(StrippedOrPlaceholder(t))), AllowedKeys);
      }
    } else if c == Some(JNull) {
      SetGet(m, "content", JStr(Placeholder));
      RestrictGet(Set(m, "content", JStr(Placeholder)), AllowedKeys);
    } else {
      RestrictGet(m, AllowedKeys);
    }
  }

  /** The role survives both passes. */
  lemma FlattenKeepsRole(codec: Codec, m: Dict)
    requires FlattenMessage(codec, m).Ok?
    ensures Get(FinalCheck(codec, FlattenMessage(codec, m).value), "role") == Get(m, "role")
  {
    assert "role" in AllowedKeys;
    FirstPassReads(codec, m);
    SetGet(FlattenMessage(codec, m).value, "content", JStr(Placeholder));
  }

  /**
   * After both passes every message has a content that is neither a list nor `None`, and the
   * message list keeps its length and order.
   */
  lemma FlattenedContent(codec: Codec, ms: seq<Dict>)
    requires Flattened(codec, ms).Ok?
    ensures |Flattened(codec, ms).value| == |ms|
    ensures forall i :: 0 <= i < |ms| ==>
      var c := Get(Flattened(codec, ms).value[i], "content");
      c.Some? && !c.value.JArr? && !c.value.JNull?
    ensures forall i :: 0 <= i < |ms| ==> Get(Flattened(codec, ms).value[i], "role") == Get(ms[i], "role")
  {
    var rs := FirstPass(codec, ms);
    var firsts := Collect(rs).value;
    forall i | 0 <= i < |ms|
      ensures var c := Get(Flattened(codec, ms).value[i], "content"); c.Some? && !c.value.JArr? && !c.value.JNull?
      ensures Get(Flattened(codec, ms).value[i], "role") == Get(ms[i], "role")
    {
      assert rs[i] == FlattenMessage(codec, ms[i]) == Ok(firsts[i]);
      FirstPassReads(codec, ms[i]);
      FlattenKeepsRole(codec, ms[i]);
      SetGet(firsts[i], "content", JStr(Placeholder));
    }
  }

  /** The final pass never finds a list: its "still a list" branch is unreachable. */
  lemma FinalCheckOnlyFills(codec: Codec, m: Dict)
    requires FlattenMessage(codec, m).Ok?
    ensures var f := FlattenMessage(codec, m).value;
      FinalCheck(codec, f) == if Get(f, "content").None? then Set(f, "content", JStr(Placeholder)) else f
  {
    FirstPassReads(codec, m);
  }
}
