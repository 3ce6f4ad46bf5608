/** The single-pass drawdown recurrence, and what it computes. */
module Drawdown {
  import opened Prelude
  import opened Arithmetic

  /** Peak so far, largest drop from a running peak, and that drop in percent of the peak it fell from. */
  datatype Tracker = Tracker(peak: real, maxDrop: real, maxDropPct: real)

  function Track(t: Tracker, equity: real): Tracker
  {
    var peak := if equity > t.peak then equity else t.peak;
    var drop := peak - equity;
    if drop > t.maxDrop then
      Tracker(peak, drop, if peak > 0.0 then (drop / peak) * 100.0 else t.maxDropPct)
    else Tracker(peak, t.maxDrop, t.maxDropPct)
  }

  function TrackAll(curve: seq<real>): Tracker
    requires curve != []
  {
    if |curve| == 1 then Tracker(curve[0], 0.0, 0.0)
    else Track(TrackAll(curve[..|curve| - 1]), curve[|curve| - 1])
  }

  lemma TrackAppend(curve: seq<real>, e: real)
    requires curve != []
    ensures TrackAll(curve + [e]) == Track(TrackAll(curve), e)
  {
    assert (curve + [e])[..|curve|] == curve;
  }

  ghost predicate IsMaximum(m: real, curve: seq<real>)
  {
    (forall i :: 0 <= i < |curve| ==> curve[i] <= m) && exists i :: 0 <= i < |curve| && curve[i] == m
  }

  /** `d` is the largest fall from any point to the same or any later one. */
  ghost predicate IsMaxDrawdown(d: real, curve: seq<real>)
  {
    && (forall i, j :: 0 <= i <= j < |curve| ==> curve[i] - curve[j] <= d)
    && (exists i, j :: 0 <= i <= j < |curve| && curve[i] - curve[j] == d)
  }

  lemma PeakStep(m: real, front: seq<real>, e: real)
    requires IsMaximum(m, front)
    ensures IsMaximum(if e > m then e else m, front + [e])
  {
    var i :| 0 <= i < |front| && front[i] == m;
    assert (front + [e])[i] == m && (front + [e])[|front|] == e;
  }

  lemma DropStep(m: real, d: real, front: seq<real>, e: real)
    requires IsMaximum(m, front) && IsMaxDrawdown(d, front) && d >= 0.0
    ensures var peak := if e > m then e else m;
            IsMaxDrawdown(if peak - e > d then peak - e else d, front + [e])
  {
    var all := front + [e];
    assert all[|front|] == e;
    var k :| 0 <= k < |front| && front[k] == m;
    assert all[k] == m;
    var a, b :| 0 <= a <= b < |front| && front[a] - front[b] == d;
    assert all[a] - all[b] == d;
    if m - e > d {
      assert all[k] - all[|front|] == m - e;
    }
  }

  ghost predicate Exact(t: Tracker, curve: seq<real>)
  {
    IsMaximum(t.peak, curve) && t.maxDrop >= 0.0 && IsMaxDrawdown(t.maxDrop, curve)
  }

  lemma ExactStep(t: Tracker, front: seq<real>, e: real)
    requires Exact(t, front)
    ensures Exact(Track(t, e), front + [e])
  {
    PeakStep(t.peak, front, e);
    DropStep(t.peak, t.maxDrop, front, e);
  }

  /** The one-pass drawdown is the true maximum drawdown of the curve. */
  lemma {:induction false} TrackerExact(curve: seq<real>)
    requires curve != []
    ensures Exact(TrackAll(curve), curve)
  {
    var front, e := curve[..|curve| - 1], curve[|curve| - 1];
    if front == [] {
      assert curve[0] - curve[0] == 0.0;
    } else {
      TrackerExact(front);
      ExactStep(TrackAll(front), front, e);
      assert curve == front + [e];
    }
  }

  /**
   * The percentage belongs to the largest drop in money, not to the largest percentage drop: on this
   * curve the account halves, yet 10 percent is reported.
   */
  lemma PercentageIsNotMaximal()
    ensures TrackAll([100.0, 50.0, 1000.0, 900.0]) == Tracker(1000.0, 100.0, 10.0)
    ensures (100.0 - 50.0) / 100.0 * 100.0 == 50.0
  {
    var c := [100.0, 50.0, 1000.0, 900.0];
    assert c[..3] == [100.0, 50.0, 1000.0] && c[..3][..2] == [100.0, 50.0] && c[..3][..2][..1] == [100.0];
    assert TrackAll([100.0]) == Tracker(100.0, 0.0, 0.0);
    TrackAppend([100.0], 50.0);
    assert [100.0] + [50.0] == c[..3][..2];
    assert TrackAll(c[..3][..2]) == Tracker(100.0, 50.0, 50.0);
    TrackAppend(c[..3][..2], 1000.0);
    assert c[..3][..2] + [1000.0] == c[..3];
    TrackAppend(c[..3], 900.0);
    assert c[..3] + [900.0] == c;
  }

  /** The fall t reports ends at point j, down from the peak reached by then. */
  ghost predicate FellAt(t: Tracker, curve: seq<real>, j: nat)
  {
    j < |curve| &&
    var peak := curve[j] + t.maxDrop;
    peak > 0.0 && IsMaximum(peak, curve[..j + 1]) && t.maxDropPct == (t.maxDrop / peak) * 100.0
  }

  ghost predicate PctOfSomePeak(t: Tracker, curve: seq<real>)
  {
    (t.maxDrop == 0.0 && t.maxDropPct == 0.0) || exists j :: FellAt(t, curve, j)
  }

  lemma PctStep(t: Tracker, front: seq<real>, e: real)
    requires front != [] && front[0] > 0.0 && Exact(t, front) && PctOfSomePeak(t, front)
    ensures PctOfSomePeak(Track(t, e), front + [e])
  {
    var t', curve := Track(t, e), front + [e];
    if t'.maxDrop > t.maxDrop {
      PeakStep(t.peak, front, e);
      assert curve[..|front| + 1] == curve;
      assert front[0] <= t.peak;
      assert FellAt(t', curve, |front|);
    } else if !(t.maxDrop == 0.0 && t.maxDropPct == 0.0) {
      var j :| FellAt(t, front, j);
      assert front[..j + 1] == curve[..j + 1];
      assert FellAt(t', curve, j);
    }
  }

  /** From a positive start, the percentage is the largest money drop over the peak it fell from. */
  lemma {:induction false} PercentageMeaning(curve: seq<real>)
    requires curve != [] && curve[0] > 0.0
    ensures PctOfSomePeak(TrackAll(curve), curve)
  {
    var front, e := curve[..|curve| - 1], curve[|curve| - 1];
    if front != [] {
      PercentageMeaning(front);
      TrackerExact(front);
      PctStep(TrackAll(front), front, e);
      assert curve == front + [e];
    }
  }

  // ---------------------------------------------------------------- when the percentage is the largest

  /** Highest equity up to and including point j. */
  function PeakAt(curve: seq<real>, j: nat): real
    requires j < |curve|
  {
    TrackAll(curve[..j + 1]).peak
  }

  function DropAt(curve: seq<real>, j: nat): real
    requires j < |curve|
  {
    PeakAt(curve, j) - curve[j]
  }

  /** A drop in percent of its peak. */
  function Share(drop: real, peak: real): real
    requires peak > 0.0
  {
    (drop / peak) * 100.0
  }

  /** Fall at point j in percent of its peak; from a peak that is not positive there is no percentage. */
  function PctAt(curve: seq<real>, j: nat): real
    requires j < |curve|
  {
    if PeakAt(curve, j) > 0.0 then Share(DropAt(curve, j), PeakAt(curve, j)) else 0.0
  }

  ghost predicate IsMaxPct(pct: real, curve: seq<real>)
  {
    && (forall j :: 0 <= j < |curve| ==> PctAt(curve, j) <= pct)
    && exists j :: 0 <= j < |curve| && PctAt(curve, j) == pct
  }

  datatype Fall = Fall(drop: real, peak: real)

  /** The fall whose percentage is reported: the last record drop from a positive peak. */
  function ReportedFall(curve: seq<real>): Option<Fall>
    requires curve != []
  {
    if |curve| == 1 then None
    else
      var front, e := curve[..|curve| - 1], curve[|curve| - 1];
      var t := Track(TrackAll(front), e);
      if t.maxDrop > TrackAll(front).maxDrop && t.peak > 0.0 then Some(Fall(t.maxDrop, t.peak)) else ReportedFall(front)
  }

  ghost predicate FallsThere(curve: seq<real>, f: Fall, j: nat)
  {
    j < |curve| && PeakAt(curve, j) == f.peak && DropAt(curve, j) == f.drop
  }

  /** The tracker's percentage is that of the reported fall, which happened on the curve. */
  ghost predicate Reported(curve: seq<real>, pct: real, fall: Option<Fall>)
  {
    match fall
    case None => pct == 0.0
    case Some(f) =>
      f.peak > 0.0 && f.drop > 0.0 && pct == Share(f.drop, f.peak) && exists j :: FallsThere(curve, f, j)
  }

  lemma PeakAtFront(front: seq<real>, e: real, j: nat)
    requires j < |front|
    ensures PeakAt(front + [e], j) == PeakAt(front, j) && DropAt(front + [e], j) == DropAt(front, j)
  {
    assert (front + [e])[..j + 1] == front[..j + 1];
  }

  lemma PeakAtEnd(front: seq<real>, e: real)
    requires front != []
    ensures PeakAt(front + [e], |front|) == Track(TrackAll(front), e).peak
  {
    assert (front + [e])[..|front| + 1] == front + [e];
    TrackAppend(front, e);
  }

  /** The step breaks the record from a positive peak. */
  predicate BreaksRecord(front: seq<real>, e: real)
    requires front != []
  {
    var t := Track(TrackAll(front), e);
    t.maxDrop > TrackAll(front).maxDrop && t.peak > 0.0
  }

  lemma RecordReported(front: seq<real>, e: real)
    requires front != [] && TrackAll(front).maxDrop >= 0.0 && BreaksRecord(front, e)
    ensures Reported(front + [e], TrackAll(front + [e]).maxDropPct, ReportedFall(front + [e]))
  {
    var curve := front + [e];
    assert curve[..|curve| - 1] == front;
    TrackAppend(front, e);
    PeakAtEnd(front, e);
    assert FallsThere(curve, ReportedFall(curve).value, |front|);
  }

  lemma EarlierFallKept(front: seq<real>, e: real, pct: real, fall: Option<Fall>)
    requires Reported(front, pct, fall)
    ensures Reported(front + [e], pct, fall)
  {
    if fall.Some? {
      var j :| FallsThere(front, fall.value, j);
      PeakAtFront(front, e, j);
      assert FallsThere(front + [e], fall.value, j);
    }
  }

  lemma NoRecordKeeps(front: seq<real>, e: real)
    requires front != [] && !BreaksRecord(front, e)
    ensures TrackAll(front + [e]).maxDropPct == TrackAll(front).maxDropPct && ReportedFall(front + [e]) == ReportedFall(front)
  {
    assert (front + [e])[..|front|] == front;
    TrackAppend(front, e);
  }

  lemma ReportedStep(front: seq<real>, e: real)
    requires front != [] && TrackAll(front).maxDrop >= 0.0
    requires Reported(front, TrackAll(front).maxDropPct, ReportedFall(front))
    ensures Reported(front + [e], TrackAll(front + [e]).maxDropPct, ReportedFall(front + [e]))
  {
    if BreaksRecord(front, e) {
      RecordReported(front, e);
    } else {
      NoRecordKeeps(front, e);
      EarlierFallKept(front, e, TrackAll(front).maxDropPct, ReportedFall(front));
    }
  }

  lemma {:induction false} PercentageIsReported(curve: seq<real>)
    requires curve != []
    ensures Reported(curve, TrackAll(curve).maxDropPct, ReportedFall(curve))
  {
    var front, e := curve[..|curve| - 1], curve[|curve| - 1];
    if front != [] {
      PercentageIsReported(front);
      TrackerExact(front);
      ReportedStep(front, e);
      assert curve == front + [e];
    }
  }

  /** A smaller drop from a peak at least as high is a smaller percentage. */
  lemma SmallerShare(drop: real, peak: real, f: Fall)
    requires f.peak > 0.0 && f.drop > 0.0 && drop <= f.drop && peak >= f.peak
    ensures Share(drop, peak) <= Share(f.drop, f.peak)
  {
    var share := f.drop / f.peak;
    QuotientTimes(f.drop, f.peak);
    DivideAtLeast(f.drop, f.peak, 0.0);
    TimesMonotone(f.peak, peak, share);
    DivideAtMost(drop, peak, share);
  }

  /** The falls that the reported one does not dominate: from a lower positive peak, or larger in money. */
  predicate Uncovered(curve: seq<real>, j: nat)
    requires j < |curve|
  {
    PeakAt(curve, j) > 0.0 &&
    match ReportedFall(curve)
    case None => true
    case Some(f) => PeakAt(curve, j) < f.peak || DropAt(curve, j) > f.drop
  }

  lemma ShareNonNegative(f: Fall)
    requires f.peak > 0.0 && f.drop > 0.0
    ensures Share(f.drop, f.peak) >= 0.0
  {
    DivideAtLeast(f.drop, f.peak, 0.0);
  }

  lemma CoveredFall(curve: seq<real>, j: nat, pct: real)
    requires j < |curve| && !Uncovered(curve, j) && Reported(curve, pct, ReportedFall(curve))
    ensures PctAt(curve, j) <= pct
  {
    if ReportedFall(curve).Some? {
      var f := ReportedFall(curve).value;
      ShareNonNegative(f);
      if PeakAt(curve, j) > 0.0 {
        SmallerShare(DropAt(curve, j), PeakAt(curve, j), f);
      }
    }
  }

  lemma PercentageAttained(curve: seq<real>)
    requires curve != []
    ensures exists j :: 0 <= j < |curve| && PctAt(curve, j) == TrackAll(curve).maxDropPct
  {
    PercentageIsReported(curve);
    if ReportedFall(curve).Some? {
      var j :| FallsThere(curve, ReportedFall(curve).value, j);
      assert PctAt(curve, j) == TrackAll(curve).maxDropPct;
    } else {
      assert curve[..1] == [curve[0]];
      assert PctAt(curve, 0) == 0.0;
    }
  }

  /** From any start: the reported percentage is the largest one exactly if no undominated fall exceeds it. */
  lemma PercentageMaximalExactly(curve: seq<real>)
    requires curve != []
    ensures IsMaxPct(TrackAll(curve).maxDropPct, curve) <==>
            forall j :: 0 <= j < |curve| && Uncovered(curve, j) ==> PctAt(curve, j) <= TrackAll(curve).maxDropPct
  {
    PercentageAttained(curve);
    PercentageIsReported(curve);
    forall j | 0 <= j < |curve| && !Uncovered(curve, j)
      ensures PctAt(curve, j) <= TrackAll(curve).maxDropPct
    {
      CoveredFall(curve, j, TrackAll(curve).maxDropPct);
    }
  }

  /** A point of the curve falls by no more than the tracker's drop, from a peak no lower than the start. */
  lemma PointWithinDrop(curve: seq<real>, j: nat)
    requires j < |curve|
    ensures 0.0 <= DropAt(curve, j) <= TrackAll(curve).maxDrop && PeakAt(curve, j) >= curve[0]
  {
    var part := curve[..j + 1];
    TrackerExact(part);
    TrackerExact(curve);
    var i :| 0 <= i < |part| && part[i] == TrackAll(part).peak;
    assert part[j] == curve[j] && part[0] == curve[0] && part[i] == curve[i];
    assert curve[i] - curve[j] <= TrackAll(curve).maxDrop;
  }

  /** From a positive start the reported fall is the largest in money, and is missing only if nothing ever fell. */
  lemma {:induction false} PositiveStartReports(curve: seq<real>)
    requires curve != [] && curve[0] > 0.0
    ensures TrackAll(curve).maxDrop == if ReportedFall(curve).Some? then ReportedFall(curve).value.drop else 0.0
  {
    var front, e := curve[..|curve| - 1], curve[|curve| - 1];
    if front != [] {
      PositiveStartReports(front);
      TrackerExact(front);
      assert front[0] <= TrackAll(front).peak;
    }
  }

  /** Point j falls from a peak below that of the reported fall. */
  predicate FromLowerPeak(curve: seq<real>, j: nat)
    requires j < |curve|
  {
    ReportedFall(curve).Some? && PeakAt(curve, j) < ReportedFall(curve).value.peak
  }

  /** From a positive start only falls from lower peaks can be undominated, unless nothing ever fell. */
  lemma UncoveredFromPositiveStart(curve: seq<real>, j: nat)
    requires j < |curve| && curve[0] > 0.0
    ensures FromLowerPeak(curve, j) ==> Uncovered(curve, j)
    ensures Uncovered(curve, j) ==> FromLowerPeak(curve, j) || DropAt(curve, j) == 0.0
  {
    PositiveStartReports(curve);
    PointWithinDrop(curve, j);
  }

  lemma PercentageNonNegative(curve: seq<real>)
    requires curve != []
    ensures TrackAll(curve).maxDropPct >= 0.0
  {
    PercentageIsReported(curve);
    if ReportedFall(curve).Some? {
      ShareNonNegative(ReportedFall(curve).value);
    }
  }

  lemma NoDropNoPercentage(curve: seq<real>, j: nat)
    requires j < |curve| && DropAt(curve, j) == 0.0
    ensures PctAt(curve, j) == 0.0
  {
    if PeakAt(curve, j) > 0.0 {
      assert 0.0 / PeakAt(curve, j) == 0.0;
    }
  }

  /**
   * From a positive start, the reported percentage is the largest percentage fall if and only if no
   * fall from a peak below that of the reported one exceeds it.
   */
  lemma PercentageMaximalFromPositiveStart(curve: seq<real>)
    requires curve != [] && curve[0] > 0.0
    ensures IsMaxPct(TrackAll(curve).maxDropPct, curve) <==>
            forall j :: 0 <= j < |curve| && FromLowerPeak(curve, j) ==> PctAt(curve, j) <= TrackAll(curve).maxDropPct
  {
    PercentageMaximalExactly(curve);
    PercentageNonNegative(curve);
    forall j | 0 <= j < |curve|
      ensures FromLowerPeak(curve, j) ==> Uncovered(curve, j)
      ensures Uncovered(curve, j) && !FromLowerPeak(curve, j) ==> PctAt(curve, j) == 0.0
    {
      UncoveredFromPositiveStart(curve, j);
      if DropAt(curve, j) == 0.0 {
        NoDropNoPercentage(curve, j);
      }
    }
  }
}
