/**
 * `parse_tool_result_content`: the text of a tool result, whatever shape its content has.
 * `json.dumps` of a dict parsed from JSON cannot fail, so its `except` branches are not reached.
 */
module ToolResults {
  import opened Wrappers
  import opened Text
  import opened Json

  /** One list item's line: `text` of a dict that is typed text or has one, a string, or a dump. */
  function ItemLine(codec: Codec, item: Json): (r: Result<string>)
    ensures r.Ok? ==> EndsWith(r.value, "\n")
    ensures r.Err? <==> item.JObj? && Get(item.fields, "text").Some? && !Get(item.fields, "text").value.JStr?
  {
    var line :=
      match item
      case JObj(fs) =>
        if Get(fs, "type") == Some(JStr("text")) || HasKey(fs, "text") then TextField(fs, "")
        else Ok(codec.dumps(item, Default))
      case JStr(s) => Ok(s)
      case _ => Ok(PyStr(codec, item));
    match line
    case Err(e) => Err(e)
    case Ok(s) =>
      assert (s + "\n")[|s + "\n"| - 1..] == "\n";
      Ok(s + "\n")
  }

  function ItemLines(codec: Codec, items: seq<Json>): seq<Result<string>>
  {
    seq(|items|, i requires 0 <= i < |items| => ItemLine(codec, items[i]))
  }

  /** The normalised content; only a list item whose `text` is not a string raises. */
  function ToolResultContent(codec: Codec, content: Json): Result<Json>
  {
    match content
    case JNull => Ok(JStr("No content provided"))
    case JStr(_) => Ok(content)
    case JArr(items) =>
      (match Collect(ItemLines(codec, items))
       case Err(e) => Err(e)
       case Ok(lines) => Ok(JStr(Strip(Concat(lines)))))
    case JObj(fs) =>
      if Get(fs, "type") == Some(JStr("text")) then Ok(GetOr(fs, "text", JStr("")))
      else Ok(JStr(codec.dumps(content, Default)))
    case _ => Ok(JStr(PyStr(codec, content)))
  }

  /** `parse_tool_result_content(content)`. */
  method ParseToolResultContent(codec: Codec, content: Json) returns (r: Result<Json>)
    ensures r == ToolResultContent(codec, content)
  {
    match content {
      case JNull =>
        return Ok(JStr("No content provided"));
      case JStr(_) =>
        return Ok(content);
      case JArr(items) =>
        var result := "";
        ghost var lines: seq<string> := [];
        var i := 0;
        while i < |items|
          invariant 0 <= i <= |items|
          invariant Collect(ItemLines(codec, items)[..i]) == Ok(lines)
          invariant result == Concat(lines)
        {
          var line := ItemLine(codec, items[i]);
          CollectStep(ItemLines(codec, items), i, lines);
          if line.Err? {
            return Err(line.error);
          }
          ConcatSnoc(lines, line.value);
          result := result + line.value;
          lines := lines + [line.value];
          i := i + 1;
        }
        assert ItemLines(codec, items)[..i] == ItemLines(codec, items);
        return Ok(JStr(Strip(result)));
      case JObj(fs) =>
        if Get(fs, "type") == Some(JStr("text")) {
          return Ok(GetOr(fs, "text", JStr("")));
        }
        return Ok(JStr(codec.dumps(content, Default)));
      case _ =>
        return Ok(JStr(PyStr(codec, content)));
    }
  }

  /** The normalised content raises exactly when a list item has a `text` that is not a string. */
  lemma ToolResultErrors(codec: Codec, content: Json)
    ensures ToolResultContent(codec, content).Err? <==>
      && content.JArr?
      && (exists i :: 0 <= i < |content.items| && content.items[i].JObj?
            && Get(content.items[i].fields, "text").Some? && !Get(content.items[i].fields, "text").value.JStr?)
  {
    if content.JArr? {
      var rs := ItemLines(codec, content.items);
      if Collect(rs).Err? {
        var i :| 0 <= i < |rs| && !rs[i].Ok?;
        assert rs[i] == ItemLine(codec, content.items[i]);
      } else {
        forall i | 0 <= i < |content.items|
          ensures !(content.items[i].JObj? && Get(content.items[i].fields, "text").Some?
            && !Get(content.items[i].fields, "text").value.JStr?)
        {
          assert rs[i] == ItemLine(codec, content.items[i]);
        }
      }
    }
  }

  /** Removing one trailing newline from text that does not end in whitespace. */
  lemma StripNewline(x: string)
    requires x != [] && !IsSpace(x[0]) && !IsSpace(x[|x| - 1])
    ensures Strip(x + "\n") == x
  {
    assert (x + "\n")[..|x|] == x;
    StripOfUnpadded(x);
  }

  /**
   * A list of strings that has no whitespace at its two ends becomes those strings joined
   * with newlines.
   */
  lemma ToolResultOfStrings(codec: Codec, ss: seq<string>)
    requires ss != [] && ss[0] != [] && ss[|ss| - 1] != []
    requires !IsSpace(ss[0][0]) && !IsSpace(ss[|ss| - 1][|ss[|ss| - 1]| - 1])
    ensures ToolResultContent(codec, JArr(seq(|ss|, i requires 0 <= i < |ss| => JStr(ss[i])))) ==
      Ok(JStr(Join("\n", ss)))
  {
    var items := seq(|ss|, i requires 0 <= i < |ss| => JStr(ss[i]));
    var lines := Terminated("\n", ss);
    var rs := ItemLines(codec, items);
    assert forall i :: 0 <= i < |ss| ==> rs[i] == Ok(lines[i]);
    CollectAllOk(rs, lines);
    ConcatTerminated("\n", ss);
    var x := Join("\n", ss);
    JoinFirst("\n", ss);
    JoinLast("\n", ss);
    StripNewline(x);
  }
}
