/** Python `str` operations the proxy relies on, over `seq<char>`. */
module Text {
  import opened Wrappers

  predicate StartsWith(s: string, p: string)
  {
    |p| <= |s| && s[..|p|] == p
  }

  predicate EndsWith(s: string, p: string)
  {
    |p| <= |s| && s[|s| - |p|..] == p
  }

  /** Python's `p in s` for strings. */
  predicate Contains(s: string, p: string)
    decreases |s|
  {
    StartsWith(s, p) || (|s| > 0 && Contains(s[1..], p))
  }

  lemma ContainsAt(s: string, p: string, i: nat)
    requires i + |p| <= |s| && s[i..i + |p|] == p
    ensures Contains(s, p)
    decreases i
  {
    if i > 0 {
      assert s[1..][i - 1..i - 1 + |p|] == s[i..i + |p|];
      ContainsAt(s[1..], p, i - 1);
    }
  }

  lemma ContainsWitness(s: string, p: string) returns (i: nat)
    requires Contains(s, p)
    ensures i + |p| <= |s| && s[i..i + |p|] == p
    decreases |s|
  {
    if StartsWith(s, p) {
      i := 0;
    } else {
      var j := ContainsWitness(s[1..], p);
      assert s[1..][j..j + |p|] == s[j + 1..j + 1 + |p|];
      i := j + 1;
    }
  }

  /** Python's `str.isspace()` for one character (the characters `\s` matches in `re`). */
  predicate IsSpace(c: char)
  {
    c == ' ' || ('\t' <= c <= '\r') || ('\U{1c}' <= c <= '\U{1f}') || c == '\U{85}' || c == '\U{a0}'
    || c == '\U{1680}' || ('\U{2000}' <= c <= '\U{200a}') || c == '\U{2028}' || c == '\U{2029}'
    || c == '\U{202f}' || c == '\U{205f}' || c == '\U{3000}'
  }

  predicate AllSpace(s: string)
  {
    forall i :: 0 <= i < |s| ==> IsSpace(s[i])
  }

  function LStrip(s: string): (r: string)
    ensures |r| <= |s| && r == s[|s| - |r|..]
    ensures r == [] || !IsSpace(r[0])
    ensures AllSpace(s[..|s| - |r|])
  {
    if s != [] && IsSpace(s[0]) then
      var r := LStrip(s[1..]);
      var k := |s| - |r|;
      assert s[1..][k - 1..] == s[k..];
      assert forall i :: 1 <= i < k ==> s[..k][i] == s[1..][..k - 1][i - 1];
      r
    else s
  }

  function RStrip(s: string): (r: string)
    ensures |r| <= |s| && r == s[..|r|]
    ensures r == [] || !IsSpace(r[|r| - 1])
    ensures AllSpace(s[|r|..])
  {
    if s != [] && IsSpace(s[|s| - 1]) then
      var r := RStrip(s[..|s| - 1]);
      assert s[..|s| - 1][..|r|] == s[..|r|];
      assert forall i :: 0 <= i < |s| - 1 - |r| ==> s[|r|..][i] == s[..|s| - 1][|r|..][i];
      r
    else s
  }

  /** Python's `str.strip()` with no argument. */
  function Strip(s: string): string
  {
    LStrip(RStrip(s))
  }

  lemma StripOfUnpadded(s: string)
    requires s != [] && !IsSpace(s[0]) && !IsSpace(s[|s| - 1])
    ensures Strip(s) == s
  {
  }

  function LowerChar(c: char): char
  {
    if 'A' <= c <= 'Z' then (c as int + 32) as char else c
  }

  function UpperChar(c: char): char
  {
    if 'a' <= c <= 'z' then (c as int - 32) as char else c
  }

  /** `str.lower()`, on ASCII letters. */
  function Lower(s: string): (r: string)
    ensures |r| == |s| && forall i :: 0 <= i < |s| ==> r[i] == LowerChar(s[i])
  {
    seq(|s|, i requires 0 <= i < |s| => LowerChar(s[i]))
  }

  /** `str.upper()`, on ASCII letters. */
  function Upper(s: string): (r: string)
    ensures |r| == |s| && forall i :: 0 <= i < |s| ==> r[i] == UpperChar(s[i])
  {
    seq(|s|, i requires 0 <= i < |s| => UpperChar(s[i]))
  }

  /** The parts one after another, as a loop of `s += part` builds them. */
  function Concat(parts: seq<string>): string
    decreases |parts|
  {
    if parts == [] then "" else Concat(parts[..|parts| - 1]) + parts[|parts| - 1]
  }

  lemma ConcatSnoc(parts: seq<string>, p: string)
    ensures Concat(parts + [p]) == Concat(parts) + p
  {
    assert (parts + [p])[..|parts|] == parts;
  }

  /** What a loop of `s += step` builds when a step can raise: the first exception, or all the steps. */
  function ConcatResults(rs: seq<Result<string>>): Result<string>
  {
    match Collect(rs)
    case Err(e) => Err(e)
    case Ok(ts) => Ok(Concat(ts))
  }

  /** The loop itself, over the steps' results in order. */
  method AppendResults(rs: seq<Result<string>>) returns (r: Result<string>)
    ensures r == ConcatResults(rs)
  {
    var acc := "";
    ghost var ts: seq<string> := [];
    var i := 0;
    while i < |rs|
      invariant 0 <= i <= |rs|
      invariant Collect(rs[..i]) == Ok(ts) && acc == Concat(ts)
    {
      CollectStep(rs, i, ts);
      if rs[i].Err? {
        return Err(rs[i].error);
      }
      ConcatSnoc(ts, rs[i].value);
      acc := acc + rs[i].value;
      ts := ts + [rs[i].value];
      i := i + 1;
    }
    assert rs[..i] == rs;
    return Ok(acc);
  }

  /** `sep.join(parts)`. */
  function Join(sep: string, parts: seq<string>): string
  {
    if parts == [] then ""
    else if |parts| == 1 then parts[0]
    else parts[0] + sep + Join(sep, parts[1..])
  }

  lemma JoinAppend(sep: string, parts: seq<string>, last: string)
    requires parts != []
    ensures Join(sep, parts + [last]) == Join(sep, parts) + sep + last
  {
    if |parts| == 1 {
      assert parts + [last] == [parts[0], last];
    } else {
      assert (parts + [last])[1..] == parts[1..] + [last];
      JoinAppend(sep, parts[1..], last);
    }
  }

  lemma JoinPrefix(sep: string, first: string, rest: seq<string>)
    ensures StartsWith(Join(sep, [first] + rest), first)
  {
    if rest != [] {
      assert ([first] + rest)[1..] == rest;
    }
  }

  lemma JoinSuffix(sep: string, parts: seq<string>, last: string)
    ensures EndsWith(Join(sep, parts + [last]), last)
  {
    if parts == [] {
      assert parts + [last] == [last];
    } else {
      JoinAppend(sep, parts, last);
    }
  }

  /** The parts each followed by `sep`: what a loop of `s += part + sep` builds. */
  function Terminated(sep: string, parts: seq<string>): seq<string>
  {
    seq(|parts|, i requires 0 <= i < |parts| => parts[i] + sep)
  }

  /** Parts each followed by `sep`, one after another, are their `sep`-join followed by `sep`. */
  lemma {:induction false} ConcatTerminated(sep: string, parts: seq<string>)
    requires parts != []
    ensures Concat(Terminated(sep, parts)) == Join(sep, parts) + sep
    decreases |parts|
  {
    var ts := Terminated(sep, parts);
    if |parts| > 1 {
      var init := parts[..|parts| - 1];
      assert ts[..|ts| - 1] == Terminated(sep, init);
      ConcatTerminated(sep, init);
      assert init + [parts[|parts| - 1]] == parts;
      JoinAppend(sep, init, parts[|parts| - 1]);
    } else {
      assert ts[..0] == [];
    }
  }

  /** Trailing whitespace makes no difference to `rstrip`. */
  lemma {:induction false} RStripSpaceSuffix(s: string, w: string)
    requires AllSpace(w)
    ensures RStrip(s + w) == RStrip(s)
    decreases |w|
  {
    if w != [] {
      var w' := w[..|w| - 1];
      assert (s + w)[..|s + w| - 1] == s + w';
      RStripSpaceSuffix(s, w');
    } else {
      assert s + w == s;
    }
  }

  /** A join starts with the first character of its first part. */
  lemma JoinFirst(sep: string, parts: seq<string>)
    requires parts != [] && parts[0] != []
    ensures Join(sep, parts) != [] && Join(sep, parts)[0] == parts[0][0]
  {
    var j := Join(sep, parts);
    JoinPrefix(sep, parts[0], parts[1..]);
    assert [parts[0]] + parts[1..] == parts;
    assert j[..|parts[0]|] == parts[0];
    assert j[0] == j[..|parts[0]|][0];
  }

  /** A join ends with the last character of its last part. */
  lemma JoinLast(sep: string, parts: seq<string>)
    requires parts != [] && parts[|parts| - 1] != []
    ensures var j := Join(sep, parts);
      j != [] && j[|j| - 1] == parts[|parts| - 1][|parts[|parts| - 1]| - 1]
  {
    var last := parts[|parts| - 1];
    var j := Join(sep, parts);
    JoinSuffix(sep, parts[..|parts| - 1], last);
    assert parts[..|parts| - 1] + [last] == parts;
    assert j[|j| - |last|..] == last;
    assert j[|j| - 1] == j[|j| - |last|..][|last| - 1];
  }

  /** Python's `s.replace(pat, "")`: removes the non-overlapping occurrences of `pat`, left to right. */
  function RemoveAll(s: string, pat: string): (r: string)
    requires pat != []
    ensures |r| <= |s|
    decreases |s|
  {
    if |s| < |pat| then s
    else if s[..|pat|] == pat then RemoveAll(s[|pat|..], pat)
    else [s[0]] + RemoveAll(s[1..], pat)
  }

  lemma RemoveAllAbsent(s: string, pat: string)
    requires pat != [] && !Contains(s, pat)
    ensures RemoveAll(s, pat) == s
    decreases |s|
  {
    if |s| >= |pat| {
      RemoveAllAbsent(s[1..], pat);
      assert [s[0]] + s[1..] == s;
    }
  }

  /** Index of the first `c` in `s`, or `|s|` when there is none (`str.find` without the -1). */
  function FindChar(s: string, c: char): (i: nat)
    ensures i <= |s|
    ensures forall k :: 0 <= k < i ==> s[k] != c
    ensures i < |s| ==> s[i] == c
  {
    if s == [] then 0
    else if s[0] == c then 0
    else 1 + FindChar(s[1..], c)
  }

  /** `s.split(c)[-1]`: the text after the last `c`. */
  function AfterLast(s: string, c: char): (r: string)
    ensures |r| <= |s| && r == s[|s| - |r|..]
    ensures forall k :: 0 <= k < |r| ==> r[k] != c
    decreases |s|
  {
    var i := FindChar(s, c);
    if i == |s| then s else AfterLast(s[i + 1..], c)
  }

  function DigitChar(d: nat): char
    requires d < 10
  {
    "0123456789"[d]
  }

  /** `str(n)` for a Python int. */
  function IntToString(n: int): string
    decreases if n < 0 then 1 - n else n
  {
    if n < 0 then "-" + IntToString(-n)
    else if n < 10 then [DigitChar(n)]
    else IntToString(n / 10) + [DigitChar(n % 10)]
  }
}
