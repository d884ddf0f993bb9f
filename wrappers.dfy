/** Option and Result, used for Python's `None` and for the exceptions the proxy lets escape. */
module Wrappers {

  datatype Option<+T> = None | Some(value: T)

  /** `Err` carries a short description of the Python exception that would be raised. */
  datatype Result<+T> = Ok(value: T) | Err(error: string)

  /**
   * The results of a loop that stops at the first exception: all the values when every step
   * succeeds, otherwise the first error.
   */
  function Collect<T>(rs: seq<Result<T>>): (r: Result<seq<T>>)
    ensures r.Ok? <==> forall i :: 0 <= i < |rs| ==> rs[i].Ok?
    ensures r.Ok? ==> |r.value| == |rs| && forall i :: 0 <= i < |rs| ==> rs[i] == Ok(r.value[i])
    decreases |rs|
  {
    if rs == [] then Ok([])
    else
      match Collect(rs[..|rs| - 1])
      case Err(e) => Err(e)
      case Ok(vs) =>
        match rs[|rs| - 1]
        case Err(e) => Err(e)
        case Ok(v) => Ok(vs + [v])
  }

  /** Once a prefix has failed, the whole loop fails with the same error. */
  lemma {:induction false} CollectErrPersists<T>(rs: seq<Result<T>>, i: nat)
    requires i <= |rs| && Collect(rs[..i]).Err?
    ensures Collect(rs) == Collect(rs[..i])
    decreases |rs|
  {
    if i < |rs| {
      assert rs[..|rs| - 1][..i] == rs[..i];
      CollectErrPersists(rs[..|rs| - 1], i);
    } else {
      assert rs[..i] == rs;
    }
  }

  /** One more successful step extends the collected values. */
  lemma CollectStep<T>(rs: seq<Result<T>>, i: nat, vs: seq<T>)
    requires i < |rs| && Collect(rs[..i]) == Ok(vs)
    ensures rs[i].Ok? ==> Collect(rs[..i + 1]) == Ok(vs + [rs[i].value])
    ensures rs[i].Err? ==> Collect(rs) == Err(rs[i].error)
  {
    assert rs[..i + 1][..i] == rs[..i];
    if rs[i].Err? {
      CollectErrPersists(rs, i + 1);
    }
  }

  /** A prefix that succeeded: its last step succeeded, and so did the prefix before it. */
  lemma CollectInit<T>(rs: seq<Result<T>>, n: nat, vs: seq<T>)
    requires 0 < n <= |rs| && Collect(rs[..n]) == Ok(vs)
    ensures |vs| == n && vs == vs[..n - 1] + [vs[n - 1]]
    ensures Collect(rs[..n - 1]) == Ok(vs[..n - 1]) && rs[n - 1] == Ok(vs[n - 1])
  {
    assert rs[..n][..n - 1] == rs[..n - 1];
    assert rs[..n][n - 1] == rs[n - 1];
  }

  /** A loop in which every step succeeds collects exactly the steps' values. */
  lemma CollectAllOk<T>(rs: seq<Result<T>>, vs: seq<T>)
    requires |rs| == |vs| && forall i :: 0 <= i < |rs| ==> rs[i] == Ok(vs[i])
    ensures Collect(rs) == Ok(vs)
  {
    var r := Collect(rs);
    assert r.Ok?;
    assert forall i :: 0 <= i < |rs| ==> r.value[i] == vs[i];
    assert r.value == vs;
  }

  /** The lists one after another, as a loop of `out.extend(part)` (or of optional appends) builds them. */
  function Flatten<T>(xss: seq<seq<T>>): seq<T>
    decreases |xss|
  {
    if xss == [] then [] else Flatten(xss[..|xss| - 1]) + xss[|xss| - 1]
  }

  lemma FlattenSnoc<T>(xss: seq<seq<T>>, xs: seq<T>)
    ensures Flatten(xss + [xs]) == Flatten(xss) + xs
  {
    assert (xss + [xs])[..|xss|] == xss;
  }

  lemma AppendAssoc<T>(a: seq<T>, b: seq<T>, c: seq<T>)
    ensures (a + b) + c == a + (b + c)
  {
  }

  lemma ConsIndex<T>(x: T, xs: seq<T>)
    ensures ([x] + xs)[0] == x
    ensures forall k :: 1 <= k < |[x] + xs| ==> ([x] + xs)[k] == xs[k - 1]
  {
  }

  lemma SliceAfterHead<T>(x: T, xs: seq<T>, a: nat, b: nat)
    requires a <= b <= |xs|
    ensures ([x] + xs)[a + 1..b + 1] == xs[a..b]
  {
  }

  /** Lists of four elements each, flattened: list `i` is the `i`-th run of four. */
  lemma {:induction false} FlattenFours<T>(xss: seq<seq<T>>)
    requires forall i :: 0 <= i < |xss| ==> |xss[i]| == 4
    ensures |Flatten(xss)| == 4 * |xss|
    ensures forall i :: 0 <= i < |xss| ==> Flatten(xss)[4 * i..4 * i + 4] == xss[i]
    decreases |xss|
  {
    if xss != [] {
      var init := xss[..|xss| - 1];
      FlattenFours(init);
      assert Flatten(xss) == Flatten(init) + xss[|xss| - 1];
      forall i | 0 <= i < |init|
        ensures Flatten(xss)[4 * i..4 * i + 4] == xss[i]
      {
        assert xss[i] == init[i];
      }
    }
  }

  /** The same, behind one leading element: list `i` is elements `4i+1` to `4i+4`. */
  lemma HeadedFours<T>(x: T, xss: seq<seq<T>>)
    requires forall i :: 0 <= i < |xss| ==> |xss[i]| == 4
    ensures |[x] + Flatten(xss)| == 1 + 4 * |xss|
    ensures forall i :: 0 <= i < |xss| ==> ([x] + Flatten(xss))[4 * i + 1..4 * i + 5] == xss[i]
  {
    FlattenFours(xss);
    forall i | 0 <= i < |xss|
      ensures ([x] + Flatten(xss))[4 * i + 1..4 * i + 5] == xss[i]
    {
      SliceAfterHead(x, Flatten(xss), 4 * i, 4 * i + 4);
    }
  }

  /** Every element of a flattened list comes from one of the lists, and each of theirs is in it. */
  lemma {:induction false} FlattenMembers<T>(xss: seq<seq<T>>)
    ensures forall x :: x in Flatten(xss) <==> exists i :: 0 <= i < |xss| && x in xss[i]
    decreases |xss|
  {
    if xss != [] {
      var init := xss[..|xss| - 1];
      FlattenMembers(init);
      assert forall i :: 0 <= i < |init| ==> init[i] == xss[i];
    }
  }
}
