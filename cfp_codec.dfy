/**
 * The Chat-Function-Protocol text codec: a function call, result or error is written as a
 * compact JSON document between `<cfp>` and `</cfp>` tags, and read back by a regex scan.
 */
module CfpCodec {
  import opened Wrappers
  import opened Text
  import opened Json

  const TagOpen: string := "<cfp>"
  const TagClose: string := "</cfp>"

  /** `args or {}`: a falsy value (None, an empty dict, ...) becomes `{}`. */
  function OrEmpty(v: Json): (r: Json)
    ensures Truthy(v) ==> r == v
    ensures !Truthy(v) ==> r == EmptyObj
  {
    if Truthy(v) then v else EmptyObj
  }

  /** The document `encode` serialises; `Err` is the `ValueError` for an unknown role. */
  function EncodeDoc(role: string, callId: string, name: Option<string>, args: Json,
                     result: Json, err: Json, version: int): (r: Result<seq<(string, Json)>>)
    ensures r.Ok? <==> role == "call" || role == "result" || role == "error"
    ensures r.Ok? ==> |r.value| >= 4 && r.value[..3] == [("v", JInt(version)), ("role", JStr(role)), ("id", JStr(callId))]
    ensures r.Ok? && role == "call" ==>
      r.value[3..] == [("name", if name.Some? then JStr(name.value) else JNull), ("args", OrEmpty(args))]
    ensures r.Ok? && role == "result" ==> r.value[3..] == [("result", OrEmpty(result))]
    ensures r.Ok? && role == "error" ==> r.value[3..] == [("err", OrEmpty(err))]
  {
    var base := [("v", JInt(version)), ("role", JStr(role)), ("id", JStr(callId))];
    if role == "call" then
      Ok(base + [("name", if name.Some? then JStr(name.value) else JNull), ("args", OrEmpty(args))])
    else if role == "result" then Ok(base + [("result", OrEmpty(result))])
    else if role == "error" then Ok(base + [("err", OrEmpty(err))])
    else Err("ValueError: unsupported role: " + role)
  }

  /** `encode`: the compact JSON of the document, wrapped in the tags. */
  function Encode(codec: Codec, role: string, callId: string, name: Option<string>, args: Json,
                  result: Json, err: Json, version: int): (r: Result<string>)
    ensures r.Ok? <==> role == "call" || role == "result" || role == "error"
    ensures r.Ok? ==> (exists doc :: EncodeDoc(role, callId, name, args, result, err, version) == Ok(doc)
                        && r.value == TagOpen + codec.dumps(JObj(doc), Compact) + TagClose)
  {
    match EncodeDoc(role, callId, name, args, result, err, version)
    case Ok(doc) => Ok(TagOpen + codec.dumps(JObj(doc), Compact) + TagClose)
    case Err(e) => Err(e)
  }

  // ---------------------------------------------------------------------------------
  // extract_blocks: `re.findall(r"<cfp>\s*(.+?)\s*</cfp>", txt, re.S)`
  // ---------------------------------------------------------------------------------

  /** The end of the run of whitespace starting at `j` (what a greedy `\s*` takes). */
  function SkipSpace(t: string, j: nat): (k: nat)
    requires j <= |t|
    ensures j <= k <= |t| && (k == |t| || !IsSpace(t[k]))
    decreases |t| - j
  {
    if j < |t| && IsSpace(t[j]) then SkipSpace(t, j + 1) else j
  }

  /** Everything `SkipSpace` passes over is whitespace. */
  lemma {:induction false} SkipSpaceAllSpace(t: string, j: nat, i: nat)
    requires j <= |t| && j <= i < SkipSpace(t, j)
    ensures IsSpace(t[i])
    decreases |t| - j
  {
    if i > j {
      SkipSpaceAllSpace(t, j + 1, i);
    }
  }

  /** The first non-whitespace position at or after `j` bounds the whitespace run. */
  lemma SkipSpaceStops(t: string, j: nat, x: nat)
    requires j <= x < |t| && !IsSpace(t[x])
    ensures SkipSpace(t, j) <= x
  {
    if SkipSpace(t, j) > x {
      SkipSpaceAllSpace(t, j, x);
    }
  }

  /** `</cfp>` is written at position `k`. */
  predicate CloseTagAt(t: string, k: nat)
  {
    k + |TagClose| <= |t| && t[k..k + |TagClose|] == TagClose
  }

  /** The tag, character by character; only its first character is `<`. */
  lemma CloseTagChars(t: string, k: nat)
    requires CloseTagAt(t, k)
    ensures t[k] == '<' && t[k + 1] == '/' && t[k + 2] == 'c' && t[k + 3] == 'f' && t[k + 4] == 'p' && t[k + 5] == '>'
  {
    assert t[k..k + |TagClose|] == TagClose;
  }

  /** `\s*</cfp>` matches at position `e`. */
  predicate ClosesAt(t: string, e: nat)
    requires e <= |t|
  {
    CloseTagAt(t, SkipSpace(t, e))
  }

  /** The least `e >= j` at which `\s*</cfp>` matches: where a lazy `(.+?)` stops. */
  function FirstClose(t: string, j: nat): (r: Option<nat>)
    requires j <= |t|
    ensures r.Some? ==> j <= r.value <= |t| && ClosesAt(t, r.value)
    ensures r.Some? ==> forall e :: j <= e < r.value ==> !ClosesAt(t, e)
    ensures r.None? ==> forall e :: j <= e <= |t| ==> !ClosesAt(t, e)
    decreases |t| - j
  {
    if ClosesAt(t, j) then Some(j)
    else if j == |t| then None
    else FirstClose(t, j + 1)
  }

  /** A match: where the captured group starts, the group, and where the match ends. */
  datatype Match = Match(start: nat, capture: string, end: nat)

  /** `<cfp>` is written at position `p`. */
  predicate OpenTagAt(t: string, p: nat)
  {
    p + |TagOpen| <= |t| && t[p..p + |TagOpen|] == TagOpen
  }

  /**
   * The regex matched at position `p`. The group starts after all the whitespace that
   * follows `<cfp>` and ends at the first `\s*</cfp>` after at least one character; when
   * there is none, `\s*` gives back one whitespace character, which succeeds only when
   * `</cfp>` follows the whitespace at once.
   */
  function MatchAt(t: string, p: nat): (r: Option<Match>)
    requires p <= |t|
    ensures r.Some? ==> OpenTagAt(t, p) && p + |TagOpen| <= r.value.start
    ensures r.Some? ==> r.value.capture != [] && r.value.start + |r.value.capture| < r.value.end <= |t|
    ensures r.Some? ==> r.value.capture == t[r.value.start..r.value.start + |r.value.capture|]
  {
    if !OpenTagAt(t, p) then None
    else
      var g := SkipSpace(t, p + |TagOpen|);
      if g < |t| && FirstClose(t, g + 1).Some? then
        var e := FirstClose(t, g + 1).value;
        Some(Match(g, t[g..e], SkipSpace(t, e) + |TagClose|))
      else if g > p + |TagOpen| && ClosesAt(t, g) then
        Some(Match(g - 1, t[g - 1..g], g + |TagClose|))
      else None
  }

  /** A close that is preceded by whitespace also closes one position earlier. */
  lemma SpaceBeforeClose(t: string, e: nat)
    requires e < |t| && IsSpace(t[e]) && ClosesAt(t, e + 1)
    ensures ClosesAt(t, e)
  {
    assert SkipSpace(t, e) == SkipSpace(t, e + 1);
  }

  /**
   * The lazy capture `t[g..e]`, from a non-whitespace `t[g]` to the first close after it,
   * has no whitespace at either end: a whitespace `t[e - 1]` would let `e - 1` close.
   */
  lemma CaptureTrimmed(t: string, g: nat, e: nat)
    requires g < e <= |t| && !IsSpace(t[g]) && ClosesAt(t, e)
    requires forall x :: g + 1 <= x < e ==> !ClosesAt(t, x)
    ensures var c := t[g..e]; |c| == 1 || (!IsSpace(c[0]) && !IsSpace(c[|c| - 1]))
  {
    if e - 1 > g && IsSpace(t[e - 1]) {
      SpaceBeforeClose(t, e - 1);
      assert false;
    }
    assert t[g..e][0] == t[g] && t[g..e][e - g - 1] == t[e - 1];
  }

  /** A capture longer than one character has no whitespace at either end (the `\s*` take it). */
  lemma MatchAtTrimmed(t: string, p: nat)
    requires p <= |t| && MatchAt(t, p).Some?
    ensures var c := MatchAt(t, p).value.capture;
      |c| == 1 || (!IsSpace(c[0]) && !IsSpace(c[|c| - 1]))
  {
    assert OpenTagAt(t, p);
    var g := SkipSpace(t, p + |TagOpen|);
    if g < |t| && FirstClose(t, g + 1).Some? {
      var e := FirstClose(t, g + 1).value;
      assert MatchAt(t, p).value.capture == t[g..e];
      CaptureTrimmed(t, g, e);
    } else {
      assert MatchAt(t, p).value.capture == t[g - 1..g];
    }
  }

  /** Where the match `m` opened at `p` lies: its `<cfp>`, its capture, and its end. */
  function SpanOf(p: nat, m: Match): (nat, nat, nat, nat)
  {
    (p, m.start, m.start + |m.capture|, m.end)
  }

  /** One match, as `SpanOk` describes it. */
  lemma MatchSpan(t: string, p: nat)
    requires p <= |t| && MatchAt(t, p).Some?
    ensures var m := MatchAt(t, p).value;
      SpanOf(p, m).3 == m.end && SpanOk(t, SpanOf(p, m), m.capture)
  {
    MatchAtTrimmed(t, p);
  }

  /** `findall` from position `p`: after a match the scan resumes at its end. */
  function FindAll(t: string, p: nat): seq<string>
    requires p <= |t|
    decreases |t| - p
  {
    if p == |t| then []
    else
      match MatchAt(t, p)
      case Some(m) => [m.capture] + FindAll(t, m.end)
      case None => FindAll(t, p + 1)
  }

  function ExtractBlocks(txt: string): seq<string>
  {
    FindAll(txt, 0)
  }

  /** `parse_block` is `json_repair.loads`; None when it raises. */
  function ParseBlock(codec: Codec, raw: string): Option<Json>
  {
    codec.repairLoads(raw)
  }

  // ---------------------------------------------------------------------------------
  // Properties of the scan
  // ---------------------------------------------------------------------------------

  lemma {:induction false} NoTagFrom(t: string, p: nat)
    requires p <= |t|
    requires !Contains(t[p..], TagOpen)
    ensures FindAll(t, p) == []
    decreases |t| - p
  {
    if p < |t| {
      assert MatchAt(t, p).None?;
      assert t[p..][1..] == t[p + 1..];
      NoTagFrom(t, p + 1);
    }
  }

  /** Text without `<cfp>` yields no blocks. */
  lemma NoBlocksWithoutOpenTag(txt: string)
    requires !Contains(txt, TagOpen)
    ensures ExtractBlocks(txt) == []
  {
    assert txt[0..] == txt;
    NoTagFrom(txt, 0);
  }

  /** Where each match lies: the `<cfp>` that opens it, its capture, and its end. */
  ghost function Spans(t: string, p: nat): seq<(nat, nat, nat, nat)>
    requires p <= |t|
    decreases |t| - p
  {
    if p == |t| then []
    else
      match MatchAt(t, p)
      case Some(m) => [SpanOf(p, m)] + Spans(t, m.end)
      case None => Spans(t, p + 1)
  }

  /**
   * A match opened by `<cfp>` at `sp.0` whose non-empty capture `t[sp.1..sp.2]` is `cap` and
   * which ends at `sp.3`; a capture longer than one character has no whitespace at either end.
   */
  ghost predicate SpanOk(t: string, sp: (nat, nat, nat, nat), cap: string)
  {
    sp.0 + |TagOpen| <= sp.1 < sp.2 < sp.3 <= |t|
    && OpenTagAt(t, sp.0)
    && cap == t[sp.1..sp.2]
    && (|cap| == 1 || (!IsSpace(cap[0]) && !IsSpace(cap[|cap| - 1])))
  }

  /**
   * `caps`, found from position `p`, come left to right from the non-overlapping matches
   * `spans`, each opened at or after `p` and each as `SpanOk` says.
   */
  ghost predicate Shaped(t: string, p: nat, spans: seq<(nat, nat, nat, nat)>, caps: seq<string>)
  {
    |spans| == |caps|
    && (forall i :: 0 <= i < |caps| ==> p <= spans[i].0 && SpanOk(t, spans[i], caps[i]))
    && (forall i :: 0 <= i < |caps| - 1 ==> spans[i].3 <= spans[i + 1].0)
  }

  /** A match ending by `q` goes in front of what is found from `q`. */
  lemma ShapedCons(t: string, p: nat, q: nat, sp: (nat, nat, nat, nat), cap: string,
                   spans: seq<(nat, nat, nat, nat)>, caps: seq<string>)
    requires p <= sp.0 && sp.3 <= q && SpanOk(t, sp, cap) && Shaped(t, q, spans, caps)
    ensures Shaped(t, p, [sp] + spans, [cap] + caps)
  {
    var sps, cs := [sp] + spans, [cap] + caps;
    forall i | 0 <= i < |cs|
      ensures p <= sps[i].0 && SpanOk(t, sps[i], cs[i])
    {
      if i > 0 {
        assert sps[i] == spans[i - 1] && cs[i] == caps[i - 1];
      }
    }
    forall i | 0 <= i < |cs| - 1
      ensures sps[i].3 <= sps[i + 1].0
    {
      assert sps[i + 1] == spans[i];
      if i > 0 {
        assert sps[i] == spans[i - 1];
      }
    }
  }

  /** What is found from `q` is found from any earlier `p` as well. */
  lemma ShapedLater(t: string, p: nat, q: nat, spans: seq<(nat, nat, nat, nat)>, caps: seq<string>)
    requires p <= q && Shaped(t, q, spans, caps)
    ensures Shaped(t, p, spans, caps)
  {
  }

  /** The captures come left to right from non-overlapping matches, each as `SpanOk` says. */
  lemma {:induction false} FindAllShape(t: string, p: nat)
    requires p <= |t|
    ensures Shaped(t, p, Spans(t, p), FindAll(t, p))
    decreases |t| - p
  {
    if p < |t| {
      var r := MatchAt(t, p);
      if r.Some? {
        var m := r.value;
        var sp := SpanOf(p, m);
        assert Spans(t, p) == [sp] + Spans(t, m.end);
        assert FindAll(t, p) == [m.capture] + FindAll(t, m.end);
        MatchSpan(t, p);
        FindAllShape(t, m.end);
        ShapedCons(t, p, m.end, sp, m.capture, Spans(t, m.end), FindAll(t, m.end));
      } else {
        assert Spans(t, p) == Spans(t, p + 1);
        assert FindAll(t, p) == FindAll(t, p + 1);
        FindAllShape(t, p + 1);
        ShapedLater(t, p, p + 1, Spans(t, p + 1), FindAll(t, p + 1));
      }
    }
  }

  /** A `</cfp>` lying wholly inside `t[lo..c]` would be a `</cfp>` in that slice. */
  lemma NoCloseInside(t: string, lo: nat, c: nat, k: nat)
    requires lo <= k && k + |TagClose| <= c <= |t| && !Contains(t[lo..c], TagClose)
    ensures !CloseTagAt(t, k)
  {
    if CloseTagAt(t, k) {
      SliceOfSlice(t, lo, c, k - lo, k - lo + |TagClose|);
      ContainsAt(t[lo..c], TagClose, k - lo);
    }
  }

  /** A `</cfp>` cannot straddle a position that holds `<`. */
  lemma NoCloseAcross(t: string, c: nat, k: nat)
    requires c < |t| && t[c] == '<' && k < c < k + |TagClose|
    ensures !CloseTagAt(t, k)
  {
    if CloseTagAt(t, k) {
      CloseTagChars(t, k);
    }
  }

  /**
   * Inside a stretch `t[lo..c]` with no `</cfp>` in it, which does not end in whitespace and
   * is followed by `<`, no position closes the block early.
   */
  lemma NoEarlyClose(t: string, lo: nat, c: nat, e: nat)
    requires lo <= e < c < |t| && t[c] == '<' && !IsSpace(t[c - 1]) && !Contains(t[lo..c], TagClose)
    ensures !ClosesAt(t, e)
  {
    SkipSpaceStops(t, e, c - 1);
    var k := SkipSpace(t, e);
    if k + |TagClose| <= c {
      NoCloseInside(t, lo, c, k);
    } else {
      NoCloseAcross(t, c, k);
    }
  }

  lemma SliceOfSlice(t: string, lo: nat, hi: nat, a: nat, b: nat)
    requires lo <= hi <= |t| && a <= b <= hi - lo
    ensures t[lo..hi][a..b] == t[lo + a..lo + b]
  {
    assert forall i :: 0 <= i < b - a ==> t[lo..hi][a..b][i] == t[lo + a + i];
  }

  /** The facts about `<cfp>` + payload + `</cfp>` the round trip needs, by position. */
  lemma WrappedLayout(payload: string)
    ensures var t := TagOpen + payload + TagClose; var c := |TagOpen| + |payload|;
      |t| == c + |TagClose| && OpenTagAt(t, 0) && t[|TagOpen|..c] == payload
      && t[c] == '<' && t[c..] == TagClose
  {
  }

  /**
   * Round trip: a payload with no `</cfp>` inside it and no whitespace at either end (a
   * compact JSON object starts with `{` and ends with `}`) comes back as the only block.
   */
  lemma {:induction false} WrappedPayloadRoundTrip(payload: string)
    requires payload != [] && !IsSpace(payload[0]) && !IsSpace(payload[|payload| - 1])
    requires !Contains(payload, TagClose)
    ensures ExtractBlocks(TagOpen + payload + TagClose) == [payload]
  {
    var t := TagOpen + payload + TagClose;
    var lo := |TagOpen|;
    var c := lo + |payload|;
    WrappedLayout(payload);
    assert t[lo] == payload[0] && t[c - 1] == payload[|payload| - 1];
    assert SkipSpace(t, lo) == lo;
    assert SkipSpace(t, c) == c;
    assert ClosesAt(t, c);
    forall e | lo + 1 <= e < c
      ensures !ClosesAt(t, e)
    {
      NoEarlyClose(t, lo, c, e);
    }
    FirstCloseIs(t, lo + 1, c);
    assert MatchAt(t, 0) == Some(Match(lo, payload, |t|));
    assert FindAll(t, |t|) == [];
  }

  lemma {:induction false} FirstCloseIs(t: string, j: nat, c: nat)
    requires j <= c <= |t| && ClosesAt(t, c)
    requires forall e :: j <= e < c ==> !ClosesAt(t, e)
    ensures FirstClose(t, j) == Some(c)
    decreases c - j
  {
    if j < c {
      FirstCloseIs(t, j + 1, c);
    }
  }

  /** Encoding then scanning gives back the JSON text of the document. */
  lemma EncodeThenExtract(codec: Codec, role: string, callId: string, name: Option<string>,
                          args: Json, result: Json, err: Json, version: int, doc: seq<(string, Json)>)
    requires EncodeDoc(role, callId, name, args, result, err, version) == Ok(doc)
    requires var p := codec.dumps(JObj(doc), Compact);
      p != [] && p[0] == '{' && p[|p| - 1] == '}' && !Contains(p, TagClose)
    ensures Encode(codec, role, callId, name, args, result, err, version).Ok?
    ensures ExtractBlocks(Encode(codec, role, callId, name, args, result, err, version).value)
         == [codec.dumps(JObj(doc), Compact)]
  {
    WrappedPayloadRoundTrip(codec.dumps(JObj(doc), Compact));
  }
}
