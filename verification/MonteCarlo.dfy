/** Reshuffling the trade order: what can and cannot change about a run. */
module MonteCarlo {
  import opened Prelude
  import opened Drawdown

  /** Equity after each trade, from the initial balance on. */
  function Path(initial: real, pnls: seq<real>): (r: seq<real>)
    ensures |r| == |pnls| + 1
  {
    if pnls == [] then [initial]
    else Path(initial, pnls[..|pnls| - 1]) + [initial + Sum(pnls)]
  }

  /** `shuffles` are the orders the random generator produces, each some permutation of the trades. */
  method RunMonteCarloOrderShuffle(initial: real, pnls: seq<real>, shuffles: seq<seq<real>>)
    returns (maxDrawdowns: seq<real>)
    requires forall i :: 0 <= i < |shuffles| ==> multiset(shuffles[i]) == multiset(pnls)
    ensures pnls == [] ==> maxDrawdowns == [0.0]
    ensures pnls != [] ==> |maxDrawdowns| == |shuffles|
    ensures pnls != [] ==> forall i :: 0 <= i < |shuffles| ==>
              maxDrawdowns[i] == TrackAll(Path(initial, shuffles[i])).maxDrop
  {
    if pnls == [] {
      return [0.0];
    }
    maxDrawdowns := [];
    for n := 0 to |shuffles|
      invariant |maxDrawdowns| == n
      invariant forall i :: 0 <= i < n ==> maxDrawdowns[i] == TrackAll(Path(initial, shuffles[i])).maxDrop
    {
      var maxDd := DrawdownOf(initial, shuffles[n]);
      maxDrawdowns := maxDrawdowns + [maxDd];
    }
  }

  method DrawdownOf(initial: real, shuffled: seq<real>) returns (maxDd: real)
    ensures maxDd == TrackAll(Path(initial, shuffled)).maxDrop
  {
    var equity := initial;
    var peak := equity;
    maxDd := 0.0;
    for i := 0 to |shuffled|
      invariant equity == initial + Sum(shuffled[..i])
      invariant peak == TrackAll(Path(initial, shuffled[..i])).peak
      invariant maxDd == TrackAll(Path(initial, shuffled[..i])).maxDrop
    {
      SumStep(shuffled, i);
      assert shuffled[..i + 1][..i] == shuffled[..i];
      TrackAppend(Path(initial, shuffled[..i]), initial + Sum(shuffled[..i + 1]));
      equity := equity + shuffled[i];
      if equity > peak {
        peak := equity;
      }
      var dd := peak - equity;
      if dd > maxDd {
        maxDd := dd;
      }
    }
    assert shuffled[..|shuffled|] == shuffled;
  }

  lemma {:induction false} PathAt(initial: real, pnls: seq<real>, i: nat)
    requires i <= |pnls|
    ensures Path(initial, pnls)[i] == initial + Sum(pnls[..i])
  {
    if i < |pnls| {
      PathAt(initial, pnls[..|pnls| - 1], i);
      assert pnls[..|pnls| - 1][..i] == pnls[..i];
    } else {
      assert pnls[..i] == pnls;
    }
  }

  lemma BlockSum(pnls: seq<real>, i: nat, j: nat)
    requires i <= j <= |pnls|
    ensures Sum(pnls[i..j]) == Sum(pnls[..j]) - Sum(pnls[..i])
  {
    assert pnls[..j] == pnls[..i] + pnls[i..j];
    SumConcat(pnls[..i], pnls[i..j]);
  }

  /** What a contiguous block of trades loses. */
  function BlockLoss(pnls: seq<real>, i: nat, j: nat): real
    requires i <= j <= |pnls|
  {
    -Sum(pnls[i..j])
  }

  ghost predicate IsMaxBlockLoss(d: real, pnls: seq<real>)
  {
    && (forall i: nat, j: nat :: i <= j <= |pnls| ==> BlockLoss(pnls, i, j) <= d)
    && (exists i: nat, j: nat :: i <= j <= |pnls| && BlockLoss(pnls, i, j) == d)
  }

  lemma DrawdownIsMaxBlockLoss(initial: real, pnls: seq<real>)
    ensures IsMaxBlockLoss(TrackAll(Path(initial, pnls)).maxDrop, pnls)
  {
    var path, d := Path(initial, pnls), TrackAll(Path(initial, pnls)).maxDrop;
    TrackerExact(path);
    forall i: nat, j: nat | i <= j <= |pnls|
      ensures BlockLoss(pnls, i, j) == path[i] - path[j]
    {
      PathAt(initial, pnls, i);
      PathAt(initial, pnls, j);
      BlockSum(pnls, i, j);
    }
    var i, j :| 0 <= i <= j < |path| && path[i] - path[j] == d;
    assert BlockLoss(pnls, i, j) == d;
  }

  function GrossLoss(pnls: seq<real>): real
  {
    if pnls == [] then 0.0 else GrossLoss(pnls[..|pnls| - 1]) + Max(0.0, -pnls[|pnls| - 1])
  }

  function LossParts(pnls: seq<real>): seq<real>
  {
    seq(|pnls|, i requires 0 <= i < |pnls| => Max(0.0, -pnls[i]))
  }

  lemma {:induction false} GrossLossIsSum(pnls: seq<real>)
    ensures GrossLoss(pnls) == Sum(LossParts(pnls))
  {
    if pnls != [] {
      GrossLossIsSum(pnls[..|pnls| - 1]);
      assert LossParts(pnls)[..|pnls| - 1] == LossParts(pnls[..|pnls| - 1]);
    }
  }

  lemma {:induction false} GrossLossConcat(a: seq<real>, b: seq<real>)
    ensures GrossLoss(a + b) == GrossLoss(a) + GrossLoss(b)
  {
    if b == [] {
      assert a + b == a;
    } else {
      GrossLossConcat(a, b[..|b| - 1]);
      assert (a + b)[..|a + b| - 1] == a + b[..|b| - 1];
    }
  }

  lemma {:induction false} GrossLossBound(pnls: seq<real>)
    ensures GrossLoss(pnls) >= 0.0 && -Sum(pnls) <= GrossLoss(pnls)
  {
    if pnls != [] {
      GrossLossBound(pnls[..|pnls| - 1]);
    }
  }

  lemma {:induction false} GrossLossOfPermutation(a: seq<real>, b: seq<real>)
    requires multiset(a) == multiset(b)
    ensures GrossLoss(a) == GrossLoss(b)
    decreases |a|
  {
    if a == [] {
      assert |multiset(b)| == 0;
    } else {
      var front, x := a[..|a| - 1], a[|a| - 1];
      assert a == front + [x] + [];
      assert front + [] == front;
      SumInsert(front, x, []);
      assert x in multiset(b);
      var k :| 0 <= k < |b| && b[k] == x;
      assert b == b[..k] + [x] + b[k + 1..];
      SumInsert(b[..k], x, b[k + 1..]);
      SamePlusOne(multiset(front), multiset(b[..k] + b[k + 1..]), x);
      GrossLossOfPermutation(front, b[..k] + b[k + 1..]);
      GrossLossInsert(b[..k], x, b[k + 1..]);
    }
  }

  lemma GrossLossInsert(a: seq<real>, x: real, b: seq<real>)
    ensures GrossLoss(a + [x] + b) == GrossLoss(a + b) + Max(0.0, -x)
  {
    GrossLossConcat(a + [x], b);
    GrossLossConcat(a, [x]);
    GrossLossConcat(a, b);
    assert [x][..0] == [];
    assert GrossLoss([x]) == Max(0.0, -x);
  }

  lemma BlockLossWithinGross(pnls: seq<real>, i: nat, j: nat)
    requires i <= j <= |pnls|
    ensures BlockLoss(pnls, i, j) <= GrossLoss(pnls)
  {
    assert pnls == pnls[..i] + pnls[i..j] + pnls[j..];
    GrossLossConcat(pnls[..i] + pnls[i..j], pnls[j..]);
    GrossLossConcat(pnls[..i], pnls[i..j]);
    GrossLossBound(pnls[..i]);
    GrossLossBound(pnls[i..j]);
    GrossLossBound(pnls[j..]);
  }

  /**
   * Whatever the order: the final equity is the same, and the drawdown is the worst contiguous block,
   * at least the net loss and every single loss, and at most the gross loss of the original trades.
   */
  lemma ShuffleBounds(initial: real, pnls: seq<real>, order: seq<real>)
    requires multiset(order) == multiset(pnls)
    ensures Path(initial, order)[|order|] == initial + Sum(pnls)
    ensures var d := TrackAll(Path(initial, order)).maxDrop;
            && IsMaxBlockLoss(d, order)
            && 0.0 <= d && -Sum(pnls) <= d <= GrossLoss(pnls)
            && forall k :: 0 <= k < |pnls| ==> -pnls[k] <= d
  {
    var d := TrackAll(Path(initial, order)).maxDrop;
    DrawdownIsMaxBlockLoss(initial, order);
    SumOfPermutation(order, pnls);
    GrossLossOfPermutation(order, pnls);
    PathAt(initial, order, |order|);
    assert order[..|order|] == order && order[0..|order|] == order && order[0..0] == [];
    assert BlockLoss(order, 0, 0) <= d && BlockLoss(order, 0, |order|) <= d;
    var i: nat, j: nat :| i <= j <= |order| && BlockLoss(order, i, j) == d;
    BlockLossWithinGross(order, i, j);
    forall k | 0 <= k < |pnls|
      ensures -pnls[k] <= d
    {
      assert pnls[k] in multiset(order);
      var m :| 0 <= m < |order| && order[m] == pnls[k];
      SingleLoss(order, m);
      assert BlockLoss(order, m, m + 1) <= d;
    }
  }

  lemma SingleLoss(order: seq<real>, m: nat)
    requires m < |order|
    ensures BlockLoss(order, m, m + 1) == -order[m]
  {
    BlockSum(order, m, m + 1);
    SumStep(order, m);
  }
}
