/** Summary statistics of a list of realised results. */
module Statistics {
  import opened Prelude

  datatype Sign = Win | Loss

  /** A result of exactly zero is neither a win nor a loss. */
  predicate Is(sign: Sign, x: real) { if sign == Win then x > 0.0 else x < 0.0 }

  function Select(sign: Sign, pnls: seq<real>): seq<real>
  {
    if pnls == [] then []
    else
      var x := pnls[|pnls| - 1];
      Select(sign, pnls[..|pnls| - 1]) + (if Is(sign, x) then [x] else [])
  }

  // ---------------------------------------------------------------- gross and net

  lemma {:induction false} SelectedSum(pnls: seq<real>)
    ensures Sum(Select(Win, pnls)) >= 0.0 && Sum(Select(Loss, pnls)) <= 0.0
    ensures |Select(Win, pnls)| + |Select(Loss, pnls)| <= |pnls|
    ensures Sum(Select(Win, pnls)) + Sum(Select(Loss, pnls)) == Sum(pnls)
  {
    if pnls != [] {
      var front, x := pnls[..|pnls| - 1], pnls[|pnls| - 1];
      SelectedSum(front);
      SumConcat(Select(Win, front), if x > 0.0 then [x] else []);
      SumConcat(Select(Loss, front), if x < 0.0 then [x] else []);
      assert Sum([x]) == x;
    }
  }

  /** There is a win if and only if there is gross profit, and a loss if and only if there is gross loss. */
  lemma {:induction false} SelectedMatter(pnls: seq<real>)
    ensures Sum(Select(Win, pnls)) > 0.0 <==> Select(Win, pnls) != []
    ensures Sum(Select(Loss, pnls)) < 0.0 <==> Select(Loss, pnls) != []
  {
    if pnls != [] {
      var front, x := pnls[..|pnls| - 1], pnls[|pnls| - 1];
      SelectedMatter(front);
      SelectedSum(front);
      SumConcat(Select(Win, front), if x > 0.0 then [x] else []);
      SumConcat(Select(Loss, front), if x < 0.0 then [x] else []);
      assert Sum([x]) == x;
    }
  }

  /** Gross profit less gross loss is the net result. */
  lemma GrossDifferenceIsNet(pnls: seq<real>)
    ensures Sum(Select(Win, pnls)) - Abs(Sum(Select(Loss, pnls))) == Sum(pnls)
  {
    SelectedSum(pnls);
  }

  // ---------------------------------------------------------------- extremes

  /** x is the farthest from zero of the selected results, or zero if there is none. */
  ghost predicate IsLargest(x: real, sign: Sign, pnls: seq<real>)
  {
    && (forall i :: 0 <= i < |pnls| && Is(sign, pnls[i]) ==> Abs(pnls[i]) <= Abs(x) && Is(sign, x))
    && (x == 0.0 || (Is(sign, x) && x in pnls))
  }

  /** max(wins, default=0) and min(losses, default=0). */
  method Largest(sign: Sign, pnls: seq<real>) returns (x: real)
    ensures IsLargest(x, sign, pnls)
  {
    x := 0.0;
    for i := 0 to |pnls|
      invariant IsLargest(x, sign, pnls[..i])
    {
      assert pnls[..i + 1] == pnls[..i] + [pnls[i]];
      if Is(sign, pnls[i]) && Abs(pnls[i]) > Abs(x) {
        x := pnls[i];
      }
    }
    assert pnls[..|pnls|] == pnls;
  }

  // ---------------------------------------------------------------- streaks

  ghost predicate Block(sign: Sign, pnls: seq<real>, from: nat, n: nat)
  {
    from + n <= |pnls| && forall k :: from <= k < from + n ==> Is(sign, pnls[k])
  }

  /** n is the length of the longest unbroken run of that sign. */
  ghost predicate IsLongestRun(n: nat, sign: Sign, pnls: seq<real>)
  {
    (exists from: nat :: Block(sign, pnls, from, n)) && forall from: nat, m: nat :: Block(sign, pnls, from, m) ==> m <= n
  }

  /** n is the length of the run that ends the list. */
  ghost predicate IsLastRun(n: nat, sign: Sign, pnls: seq<real>)
  {
    n <= |pnls| && Block(sign, pnls, |pnls| - n, n) && (n < |pnls| ==> !Is(sign, pnls[|pnls| - n - 1]))
  }

  lemma LastRunStep(sign: Sign, pnls: seq<real>, x: real, cur: nat)
    requires IsLastRun(cur, sign, pnls)
    ensures IsLastRun(if Is(sign, x) then cur + 1 else 0, sign, pnls + [x])
  {}

  /** No block of the list that ends at its last element is longer than its last run. */
  lemma LastRunIsMaximal(sign: Sign, pnls: seq<real>, cur: nat, from: nat, m: nat)
    requires IsLastRun(cur, sign, pnls) && Block(sign, pnls, from, m) && from + m == |pnls|
    ensures m <= cur
  {}

  lemma LongestRunStep(sign: Sign, pnls: seq<real>, x: real, cur: nat, best: nat)
    requires IsLastRun(cur, sign, pnls) && IsLongestRun(best, sign, pnls)
    ensures IsLongestRun(if Is(sign, x) && cur + 1 > best then cur + 1 else best, sign, pnls + [x])
  {
    var all, next := pnls + [x], if Is(sign, x) then cur + 1 else 0;
    LastRunStep(sign, pnls, x, cur);
    var start: nat :| Block(sign, pnls, start, best);
    assert Block(sign, all, start, best);
    assert Block(sign, all, |all| - next, next);
    forall from: nat, m: nat | Block(sign, all, from, m)
      ensures m <= best || (Is(sign, x) && m <= cur + 1)
    {
      if from + m == |all| {
        LastRunIsMaximal(sign, all, next, from, m);
      } else {
        assert forall k :: from <= k < from + m ==> all[k] == pnls[k];
        assert Block(sign, pnls, from, m);
      }
    }
  }

  method ConsecutiveRuns(pnls: seq<real>) returns (wins: nat, losses: nat)
    ensures IsLongestRun(wins, Win, pnls) && IsLongestRun(losses, Loss, pnls)
  {
    wins, losses := 0, 0;
    var curWins, curLosses := 0, 0;
    assert Block(Win, [], 0, 0) && Block(Loss, [], 0, 0);
    for i := 0 to |pnls|
      invariant IsLastRun(curWins, Win, pnls[..i]) && IsLongestRun(wins, Win, pnls[..i])
      invariant IsLastRun(curLosses, Loss, pnls[..i]) && IsLongestRun(losses, Loss, pnls[..i])
    {
      ghost var before := pnls[..i];
      assert pnls[..i + 1] == before + [pnls[i]];
      LastRunStep(Win, before, pnls[i], curWins);
      LastRunStep(Loss, before, pnls[i], curLosses);
      LongestRunStep(Win, before, pnls[i], curWins, wins);
      LongestRunStep(Loss, before, pnls[i], curLosses, losses);
      if pnls[i] > 0.0 {
        curWins := curWins + 1;
        curLosses := 0;
        if curWins > wins {
          wins := curWins;
        }
      } else if pnls[i] < 0.0 {
        curLosses := curLosses + 1;
        curWins := 0;
        if curLosses > losses {
          losses := curLosses;
        }
      } else {
        curWins, curLosses := 0, 0;
      }
    }
    assert pnls[..|pnls|] == pnls;
  }
}
