/** The threshold ladder shared by the speed and lane-count scorers: an
    ordered list of (threshold, score) rungs, the first threshold that is at
    least the value wins, and a value no threshold admits falls through to
    the last rung. A missing value (NaN) fails every comparison. */
module Ladder {
  import opened Wrappers

  datatype Bound = AtMost(t: real) | Unbounded

  datatype Rung = Rung(bound: Bound, score: real)

  /** `value <= threshold`, where NaN compares false even with infinity. */
  predicate Admits(b: Bound, x: Option<real>) {
    x.Some? && (b.Unbounded? || x.value <= b.t)
  }

  /** Rungs with strictly rising thresholds and non-increasing scores. */
  predicate Descending(rungs: seq<Rung>) {
    && (forall i, j :: 0 <= i < j < |rungs| ==> rungs[j].score <= rungs[i].score)
    && (forall i :: 0 <= i < |rungs| - 1 ==> rungs[i].bound.AtMost?)
    && (forall i, j :: 0 <= i < j < |rungs| && rungs[i].bound.AtMost? && rungs[j].bound.AtMost?
          ==> rungs[i].bound.t < rungs[j].bound.t)
  }

  /** The loop `for threshold, score in rankings` from rung `i` on, with the
      fallback `rankings[-1][1]`. */
  function ClimbFrom(rungs: seq<Rung>, x: Option<real>, i: nat): (s: real)
    requires 0 < |rungs| && i <= |rungs|
    ensures i < |rungs| ==> exists j :: i <= j < |rungs| && s == rungs[j].score
    ensures i == |rungs| ==> s == rungs[|rungs| - 1].score
    decreases |rungs| - i
  {
    if i == |rungs| then rungs[|rungs| - 1].score
    else if Admits(rungs[i].bound, x) then rungs[i].score
    else ClimbFrom(rungs, x, i + 1)
  }

  function Climb(rungs: seq<Rung>, x: Option<real>): real
    requires |rungs| > 0
  {
    ClimbFrom(rungs, x, 0)
  }

  /** The score is that of the first rung admitting the value, or the last
      rung's when none does. */
  lemma {:induction false} ClimbFirstAdmitting(rungs: seq<Rung>, x: Option<real>, i: nat)
    requires 0 < |rungs| && i <= |rungs|
    ensures (exists j :: i <= j < |rungs| && Admits(rungs[j].bound, x)
              && ClimbFrom(rungs, x, i) == rungs[j].score
              && forall k :: i <= k < j ==> !Admits(rungs[k].bound, x))
         || ((forall k :: i <= k < |rungs| ==> !Admits(rungs[k].bound, x))
              && ClimbFrom(rungs, x, i) == rungs[|rungs| - 1].score)
    decreases |rungs| - i
  {
    if i < |rungs| && !Admits(rungs[i].bound, x) {
      ClimbFirstAdmitting(rungs, x, i + 1);
    }
  }

  /** On a descending ladder a larger value never scores higher. */
  lemma {:induction false} ClimbMonotone(rungs: seq<Rung>, x: real, y: real, i: nat)
    requires 0 < |rungs| && i <= |rungs|
    requires Descending(rungs)
    requires x <= y
    ensures ClimbFrom(rungs, Some(y), i) <= ClimbFrom(rungs, Some(x), i)
    decreases |rungs| - i
  {
    if i < |rungs| {
      if Admits(rungs[i].bound, Some(y)) {
      } else if Admits(rungs[i].bound, Some(x)) {
        var s := ClimbFrom(rungs, Some(y), i + 1);
        if i + 1 < |rungs| {
          var j :| i + 1 <= j < |rungs| && s == rungs[j].score;
          assert rungs[j].score <= rungs[i].score;
        }
      } else {
        ClimbMonotone(rungs, x, y, i + 1);
      }
    }
  }

  /** A missing value scores the last rung, the lowest on a descending
      ladder. */
  lemma {:induction false} ClimbMissing(rungs: seq<Rung>, i: nat)
    requires 0 < |rungs| && i <= |rungs|
    ensures ClimbFrom(rungs, None, i) == rungs[|rungs| - 1].score
    decreases |rungs| - i
  {
    if i < |rungs| {
      ClimbMissing(rungs, i + 1);
    }
  }
}
