/**
 * `clean_gemini_schema`: the pruning applied to a tool's input schema before it is sent to
 * a Gemini model. At every dict it drops `additionalProperties` and `default`, and for a
 * string-typed node a `format` other than `enum` or `date-time`; it recurses into every
 * value that is left and into every list item.
 */
module GeminiSchema {
  import opened Wrappers
  import opened Json

  /**
   * `schema.get("type") == "string" and "format" in schema`. The test runs after the two pops,
   * which cannot touch `type` or `format`, so it reads the same on the node as it came in.
   */
  predicate StringWithFormat(node: seq<(string, Json)>)
  {
    Get(node, "type") == Some(JStr("string")) && HasKey(node, "format")
  }

  /** `{"enum", "date-time"}`. */
  predicate AllowedFormat(v: Json)
  {
    v == JStr("enum") || v == JStr("date-time")
  }

  /** The set-membership test hashes the format value: a list or dict format raises `TypeError`. */
  predicate FormatRaises(node: seq<(string, Json)>)
  {
    StringWithFormat(node) && (Get(node, "format").value.JArr? || Get(node, "format").value.JObj?)
  }

  /** Whether `key` survives at `node`. */
  predicate Kept(node: seq<(string, Json)>, key: string)
  {
    && key != "additionalProperties"
    && key != "default"
    && !(key == "format" && StringWithFormat(node) && !AllowedFormat(Get(node, "format").value))
  }

  /**
   * `b` is `a` cleaned key by key: at every dict, a key is present in `b` iff it was present
   * in `a` and survives there, and its value is the old value cleaned in turn; a list keeps
   * its length and each item is cleaned; a scalar is unchanged.
   */
  ghost predicate Retains(a: Json, b: Json)
    decreases a
  {
    match a
    case JObj(fs) =>
      && b.JObj?
      && (forall k :: HasKey(b.fields, k) <==> Kept(fs, k) && HasKey(fs, k))
      && (forall k :: Kept(fs, k) && HasKey(fs, k) && HasKey(b.fields, k) ==>
            Retains(Get(fs, k).value, Get(b.fields, k).value))
    case JArr(xs) =>
      && b.JArr?
      && |b.items| == |xs|
      && (forall n :: 0 <= n < |xs| ==> Retains(xs[n], b.items[n]))
    case _ => b == a
  }

  /** A string-typed node keeps `format` only when it is `enum` or `date-time`. */
  predicate FormatOk(node: seq<(string, Json)>)
  {
    StringWithFormat(node) ==> AllowedFormat(Get(node, "format").value)
  }

  /** No dict at any depth, inside lists included, has a key Gemini rejects. */
  predicate SchemaClean(j: Json)
    decreases j
  {
    match j
    case JObj(fs) =>
      && !HasKey(fs, "additionalProperties")
      && !HasKey(fs, "default")
      && FormatOk(fs)
      && forall i :: 0 <= i < |fs| ==> SchemaClean(fs[i].1)
    case JArr(items) => forall i :: 0 <= i < |items| ==> SchemaClean(items[i])
    case _ => true
  }

  /** Some node that the cleaning visits carries a list or dict `format`. */
  predicate Raises(j: Json)
    decreases j, 1
  {
    match j
    case JObj(fs) => FormatRaises(fs) || FieldsRaise(fs, 0)
    case JArr(items) => ItemsRaise(items, 0)
    case _ => false
  }

  /** Some kept field of `node` from the `i`-th on raises. */
  predicate FieldsRaise(node: seq<(string, Json)>, i: nat)
    requires i <= |node|
    decreases JObj(node), 0, |node| - i
  {
    i < |node| && ((Kept(node, node[i].0) && Raises(node[i].1)) || FieldsRaise(node, i + 1))
  }

  predicate ItemsRaise(items: seq<Json>, i: nat)
    requires i <= |items|
    decreases JArr(items), 0, |items| - i
  {
    i < |items| && (Raises(items[i]) || ItemsRaise(items, i + 1))
  }

  /** `clean_gemini_schema(schema)`, with the `TypeError` of an unhashable format as `Err`. */
  function CleanSchema(j: Json): (r: Result<Json>)
    ensures r.Ok? <==> !Raises(j)
    ensures r.Ok? ==> SchemaClean(r.value) && Retains(j, r.value)
    decreases j, 1
  {
    match j
    case JObj(fs) =>
      if FormatRaises(fs) then Err("TypeError: unhashable type")
      else
        (match CleanFields(fs, 0)
         case Err(e) => Err(e)
         case Ok(g) =>
           assert fs[0..] == fs;
           assert FormatOk(g) by { CleanedFormatOk(fs, g); }
           Ok(JObj(g)))
    case JArr(items) =>
      (match CleanItems(items, 0)
       case Err(e) => Err(e)
       case Ok(vs) => Ok(JArr(vs)))
    case _ => Ok(j)
  }

  /**
   * The fields of `node` from the `i`-th on that survive, each value cleaned: a dropped key
   * is gone, a kept key is present exactly when it was, and its value is the old one cleaned.
   */
  function CleanFields(node: seq<(string, Json)>, i: nat): (r: Result<seq<(string, Json)>>)
    requires i <= |node|
    ensures r.Ok? <==> !FieldsRaise(node, i)
    ensures r.Ok? ==> forall n :: 0 <= n < |r.value| ==> SchemaClean(r.value[n].1)
    ensures r.Ok? ==> forall k :: HasKey(r.value, k) <==> Kept(node, k) && HasKey(node[i..], k)
    ensures r.Ok? ==> forall k :: Kept(node, k) && HasKey(node[i..], k) && HasKey(r.value, k) ==>
      Retains(Get(node[i..], k).value, Get(r.value, k).value)
    decreases JObj(node), 0, |node| - i
  {
    if i == |node| then Ok([])
    else
      assert node[i..][1..] == node[i + 1..];
      if !Kept(node, node[i].0) then CleanFields(node, i + 1)
      else
        match CleanSchema(node[i].1)
        case Err(e) => Err(e)
        case Ok(v) =>
          match CleanFields(node, i + 1)
          case Err(e) => Err(e)
          case Ok(rest) =>
            assert ([(node[i].0, v)] + rest)[1..] == rest;
            Ok([(node[i].0, v)] + rest)
  }

  function CleanItems(items: seq<Json>, i: nat): (r: Result<seq<Json>>)
    requires i <= |items|
    ensures r.Ok? <==> !ItemsRaise(items, i)
    ensures r.Ok? ==> |r.value| == |items| - i
    ensures r.Ok? ==> forall n :: 0 <= n < |r.value| ==>
      SchemaClean(r.value[n]) && Retains(items[i + n], r.value[n])
    decreases JArr(items), 0, |items| - i
  {
    if i == |items| then Ok([])
    else
      match CleanSchema(items[i])
      case Err(e) => Err(e)
      case Ok(v) =>
        match CleanItems(items, i + 1)
        case Err(e) => Err(e)
        case Ok(rest) => Ok([v] + rest)
  }

  /** A string-typed node of the result kept its format only if the format was allowed. */
  lemma CleanedFormatOk(fs: seq<(string, Json)>, g: seq<(string, Json)>)
    requires Retains(JObj(fs), JObj(g))
    ensures FormatOk(g)
  {
    if StringWithFormat(g) {
      assert Kept(fs, "type") && HasKey(fs, "type");
      assert Retains(Get(fs, "type").value, Get(g, "type").value);
      assert Kept(fs, "format") && HasKey(fs, "format");
      assert Retains(Get(fs, "format").value, Get(g, "format").value);
    }
  }

  /** The schema of a tool, cleaned: the `parameters` sent to Gemini. */
  lemma CleanToolSchema(schema: seq<(string, Json)>)
    requires !Raises(JObj(schema))
    ensures CleanSchema(JObj(schema)).Ok? && CleanSchema(JObj(schema)).value.JObj?
    ensures var g := CleanSchema(JObj(schema)).value.fields;
      && !HasKey(g, "additionalProperties") && !HasKey(g, "default")
      && (forall k :: Kept(schema, k) ==> (HasKey(g, k) <==> HasKey(schema, k)))
  {
  }

  /** A nested property survives the cleaning: `{"properties": {"a": {"type": "string"}}}` keeps `a`. */
  lemma NestedPropertyKept()
    ensures var j := JObj([("properties", JObj([("a", JObj([("type", JStr("string"))]))]))]);
      && CleanSchema(j).Ok?
      && HasKey(CleanSchema(j).value.fields, "properties")
      && HasKey(Get(CleanSchema(j).value.fields, "properties").value.fields, "a")
  {
    var a := JObj([("type", JStr("string"))]);
    var props := JObj([("a", a)]);
    var j := JObj([("properties", props)]);
    assert Get(j.fields, "properties") == Some(props);
    assert Get(props.fields, "a") == Some(a);
    assert Kept(j.fields, "properties") && Kept(props.fields, "a");
  }
}
