/**
 * JSON values as the proxy sees them once `json.loads` or pydantic has produced them.
 * Objects keep their keys in insertion order, as Python dicts do.
 * Serialising and parsing are not modelled: they are the uninterpreted functions of a `Codec`.
 */
module Json {
  import opened Wrappers
  import Text

  datatype Json =
    | JNull
    | JBool(b: bool)
    | JInt(i: int)
    | JFloat(f: real)
    | JStr(s: string)
    | JArr(items: seq<Json>)
    | JObj(fields: seq<(string, Json)>)

  /** The empty dict `{}`. */
  const EmptyObj: Json := JObj([])

  /** `d.get(key)`: the value of the first field named `key`. */
  function Get(fields: seq<(string, Json)>, key: string): (r: Option<Json>)
    ensures r.Some? <==> exists i :: 0 <= i < |fields| && fields[i].0 == key
    ensures r.Some? ==> exists i :: 0 <= i < |fields| && fields[i] == (key, r.value)
  {
    if fields == [] then None
    else if fields[0].0 == key then Some(fields[0].1)
    else Get(fields[1..], key)
  }

  /** Looking a key up in two runs of fields: the first run wins. */
  lemma {:induction false} GetAppend(a: seq<(string, Json)>, b: seq<(string, Json)>, key: string)
    ensures Get(a + b, key) == if Get(a, key).Some? then Get(a, key) else Get(b, key)
  {
    if a != [] {
      assert (a + b)[1..] == a[1..] + b;
      GetAppend(a[1..], b, key);
    } else {
      assert a + b == b;
    }
  }

  /** Looking a key up past the first field. */
  lemma GetCons(f: (string, Json), rest: seq<(string, Json)>, key: string)
    ensures Get([f] + rest, key) == if f.0 == key then Some(f.1) else Get(rest, key)
  {
    assert ([f] + rest)[1..] == rest;
  }

  predicate HasKey(fields: seq<(string, Json)>, key: string)
  {
    Get(fields, key).Some?
  }

  /** `d.get(key, default)`. */
  function GetOr(fields: seq<(string, Json)>, key: string, default: Json): Json
  {
    match Get(fields, key)
    case Some(v) => v
    case None => default
  }

  /** `d.pop(key, None)`: every field named `key` goes, the others keep their order. */
  function Remove(fields: seq<(string, Json)>, key: string): (r: seq<(string, Json)>)
    ensures forall i :: 0 <= i < |r| ==> r[i].0 != key
    ensures forall p :: p in r <==> p in fields && p.0 != key
  {
    if fields == [] then []
    else if fields[0].0 == key then Remove(fields[1..], key)
    else [fields[0]] + Remove(fields[1..], key)
  }

  /** After `d.pop(key)`, `key` is absent and every other key reads as before. */
  lemma {:induction false} RemoveGet(fields: seq<(string, Json)>, key: string)
    ensures Get(Remove(fields, key), key).None?
    ensures forall k :: k != key ==> Get(Remove(fields, key), k) == Get(fields, k)
  {
    if fields != [] {
      RemoveGet(fields[1..], key);
    }
  }

  /** `d[key] = v` on a dict: replaces the first field named `key`, or appends one. */
  function Set(fields: seq<(string, Json)>, key: string, v: Json): seq<(string, Json)>
  {
    if fields == [] then [(key, v)]
    else if fields[0].0 == key then [(key, v)] + fields[1..]
    else [fields[0]] + Set(fields[1..], key, v)
  }

  /** After `d[key] = v`, `key` reads `v` and every other key reads as before. */
  lemma {:induction false} SetGet(fields: seq<(string, Json)>, key: string, v: Json)
    ensures Get(Set(fields, key, v), key) == Some(v)
    ensures forall k :: k != key ==> Get(Set(fields, key, v), k) == Get(fields, k)
  {
    if fields != [] && fields[0].0 != key {
      SetGet(fields[1..], key, v);
    }
  }

  /** `for k in list(d): if k not in keys: del d[k]`: the fields whose key is in `keys`, in order. */
  function Restrict(fields: seq<(string, Json)>, keys: seq<string>): seq<(string, Json)>
  {
    if fields == [] then []
    else if fields[0].0 in keys then [fields[0]] + Restrict(fields[1..], keys)
    else Restrict(fields[1..], keys)
  }

  /** Deleting the keys outside `keys` leaves the others reading as before and no other key. */
  lemma {:induction false} RestrictGet(fields: seq<(string, Json)>, keys: seq<string>)
    ensures forall k :: Get(Restrict(fields, keys), k) == if k in keys then Get(fields, k) else None
    ensures forall i :: 0 <= i < |Restrict(fields, keys)| ==> Restrict(fields, keys)[i].0 in keys
  {
    if fields != [] {
      RestrictGet(fields[1..], keys);
    }
  }

  /** Python truthiness of a JSON value: `None`, `False`, zero and empty containers are false. */
  predicate Truthy(j: Json)
  {
    match j
    case JNull => false
    case JBool(b) => b
    case JInt(i) => i != 0
    case JFloat(f) => f != 0.0
    case JStr(s) => s != ""
    case JArr(items) => items != []
    case JObj(fields) => fields != []
  }

  /** The `json.dumps` keyword arguments the proxy uses. */
  datatype DumpStyle =
    | Default          // json.dumps(x)
    | Compact          // separators=(",", ":")
    | NonAscii         // ensure_ascii=False
    | Indent2          // indent=2
    | Indent2NonAscii  // ensure_ascii=False, indent=2

  /**
   * The serialisation library, left uninterpreted: `dumps` is `json.dumps`, `loads` is
   * `json.loads` (None when it raises), `repairLoads` is `json_repair.loads`
   * (None when it raises), and `repr` is Python's `str()` of a list, dict or float.
   */
  datatype Codec = Codec(
    dumps: (Json, DumpStyle) -> string,
    loads: string -> Option<Json>,
    repairLoads: string -> Option<Json>,
    repr: Json -> string)

  /** Python's `str(v)` (and an f-string `{v}`) of a JSON value. */
  function PyStr(codec: Codec, v: Json): string
  {
    match v
    case JNull => "None"
    case JBool(b) => if b then "True" else "False"
    case JInt(i) => Text.IntToString(i)
    case JStr(s) => s
    case _ => codec.repr(v)
  }

  /**
   * `d.get("text", default) + "\n"` needs a string: a present non-string value makes the
   * concatenation raise `TypeError`.
   */
  function TextField(fields: seq<(string, Json)>, default: string): Result<string>
  {
    match Get(fields, "text")
    case None => Ok(default)
    case Some(JStr(s)) => Ok(s)
    case Some(_) => Err("TypeError: can only concatenate str to str")
  }
}
