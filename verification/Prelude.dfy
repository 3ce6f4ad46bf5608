/** Small vocabulary shared by every component: options, sums, extrema and sorted key lists. */
module Prelude {

  datatype Option<+T> = None | Some(value: T)

  function Max(a: real, b: real): real { if a < b then b else a }

  function Min(a: real, b: real): real { if b < a then b else a }

  function Abs(x: real): real { if x < 0.0 then -x else x }

  /** Python's `a or b`: a missing or zero number counts as absent. */
  function OrElse(x: Option<real>, otherwise: real): real
  {
    if x.Some? && x.value != 0.0 then x.value else otherwise
  }

  /** Rounds towards zero, as int() and Decimal's ROUND_DOWN do. */
  function Truncate(x: real): int { if x < 0.0 then -((-x).Floor) else x.Floor }

  // ---------------------------------------------------------------- sums

  function Sum(xs: seq<real>): real
  {
    if |xs| == 0 then 0.0 else Sum(xs[..|xs| - 1]) + xs[|xs| - 1]
  }

  lemma SumStep(xs: seq<real>, i: nat)
    requires i < |xs|
    ensures Sum(xs[..i + 1]) == Sum(xs[..i]) + xs[i]
  {
    assert xs[..i + 1][..i] == xs[..i];
  }

  lemma SumAppend(xs: seq<real>, x: real)
    ensures Sum(xs + [x]) == Sum(xs) + x
  {
    assert (xs + [x])[..|xs|] == xs;
  }

  lemma {:induction false} SumConcat(xs: seq<real>, ys: seq<real>)
    ensures Sum(xs + ys) == Sum(xs) + Sum(ys)
  {
    if |ys| == 0 {
      assert xs + ys == xs;
    } else {
      SumConcat(xs, ys[..|ys| - 1]);
      assert (xs + ys)[..|xs + ys| - 1] == xs + ys[..|ys| - 1];
    }
  }

  lemma SumInsert(a: seq<real>, x: real, b: seq<real>)
    ensures Sum(a + [x] + b) == Sum(a + b) + x
    ensures multiset(a + [x] + b) == multiset(a + b) + multiset{x}
  {
    SumConcat(a + [x], b);
    SumAppend(a, x);
    SumConcat(a, b);
  }

  /** A total does not depend on the order of its terms. */
  lemma {:induction false} SumOfPermutation(xs: seq<real>, ys: seq<real>)
    requires multiset(xs) == multiset(ys)
    ensures Sum(xs) == Sum(ys)
    decreases |xs|
  {
    if |xs| == 0 {
      assert |multiset(ys)| == 0;
    } else {
      var front, x := xs[..|xs| - 1], xs[|xs| - 1];
      assert xs == front + [x] + [];
      assert front + [] == front;
      SumInsert(front, x, []);
      assert x in multiset(ys);
      var k :| 0 <= k < |ys| && ys[k] == x;
      assert ys == ys[..k] + [x] + ys[k + 1..];
      SumInsert(ys[..k], x, ys[k + 1..]);
      SamePlusOne(multiset(front), multiset(ys[..k] + ys[k + 1..]), x);
      SumOfPermutation(front, ys[..k] + ys[k + 1..]);
    }
  }

  lemma SamePlusOne(a: multiset<real>, b: multiset<real>, x: real)
    requires a + multiset{x} == b + multiset{x}
    ensures a == b
  {
    assert a == a + multiset{x} - multiset{x};
    assert b == b + multiset{x} - multiset{x};
  }

  /** An average of values lying in a band lies in the band. */
  lemma {:induction false} SumInBand(xs: seq<real>, lo: real, hi: real)
    requires forall i :: 0 <= i < |xs| ==> lo <= xs[i] <= hi
    ensures lo * |xs| as real <= Sum(xs) <= hi * |xs| as real
  {
    if |xs| > 0 {
      SumInBand(xs[..|xs| - 1], lo, hi);
    }
  }

  // ---------------------------------------------------------------- sorted keys

  ghost predicate StrictlyIncreasing(xs: seq<int>)
  {
    forall i, j :: 0 <= i < j < |xs| ==> xs[i] < xs[j]
  }

  lemma {:induction false} MinExists(s: set<int>)
    requires s != {}
    ensures exists k :: k in s && forall j :: j in s ==> k <= j
  {
    if forall x :: x !in s {
      assert false;
    }
    var x :| x in s;
    var rest := s - {x};
    if rest == {} {
      assert s == {x};
    } else {
      MinExists(rest);
      var k :| k in rest && forall j :: j in rest ==> k <= j;
      var m := if x < k then x else k;
      forall j | j in s ensures m <= j {
        assert j == x || j in rest;
      }
    }
  }

  /** `xs` lists s without repetition, in ascending order. */
  ghost predicate Lists(xs: seq<int>, s: set<int>)
  {
    StrictlyIncreasing(xs) && |xs| == |s| && forall k :: k in xs <==> k in s
  }

  lemma ListsCons(k: int, s: set<int>, rest: seq<int>)
    requires k in s && Lists(rest, s - {k}) && forall j :: j in s ==> k <= j
    ensures Lists([k] + rest, s)
  {
    forall i | 0 <= i < |rest|
      ensures k < rest[i]
    {
      assert rest[i] in rest;
    }
    forall j
      ensures j in [k] + rest <==> j in s
    {
      assert j in [k] + rest <==> j == k || j in rest;
    }
  }

  lemma ListedKey(xs: seq<int>, s: set<int>, i: nat)
    requires Lists(xs, s) && i < |xs|
    ensures xs[i] in s
  {
    assert xs[i] in xs;
  }

  /** The keys of a set in ascending order: what sorted() returns on distinct integers. */
  function Ascending(s: set<int>): (r: seq<int>)
    ensures Lists(r, s)
  {
    if s == {} then []
    else
      MinExists(s);
      var k :| k in s && forall j :: j in s ==> k <= j;
      var rest := Ascending(s - {k});
      ListsCons(k, s, rest);
      [k] + rest
  }

  lemma TailMembers(xs: seq<int>, k: int)
    requires StrictlyIncreasing(xs) && xs != []
    ensures k in xs[1..] <==> k in xs && k != xs[0]
  {
    if k in xs && k != xs[0] {
      var i :| 0 <= i < |xs| && xs[i] == k;
      assert xs[1..][i - 1] == k;
    }
    if k in xs[1..] {
      var i :| 0 <= i < |xs| - 1 && xs[1..][i] == k;
      assert xs[0] < xs[i + 1];
    }
  }

  /** A strictly increasing list is determined by its elements. */
  lemma {:induction false} AscendingUnique(xs: seq<int>, ys: seq<int>)
    requires StrictlyIncreasing(xs) && StrictlyIncreasing(ys)
    requires forall k :: k in xs <==> k in ys
    ensures xs == ys
  {
    if xs == [] {
      assert forall i :: 0 <= i < |ys| ==> ys[i] in xs;
    } else {
      assert xs[0] in ys && ys != [];
      assert ys[0] in xs;
      assert xs[0] == ys[0];
      forall k ensures k in xs[1..] <==> k in ys[1..] {
        TailMembers(xs, k);
        TailMembers(ys, k);
      }
      AscendingUnique(xs[1..], ys[1..]);
    }
  }
}
