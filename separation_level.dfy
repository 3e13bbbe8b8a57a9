/** backend/src/stressmodel/separation_level.py: how far the cyclist is kept
    from motor traffic. The cycleway tags of an edge are gathered into one
    list of candidate levels, upgraded when a buffer is tagged, downgraded
    when a "track" is only separated by posts or parking, and the best
    candidate is kept; dedicated cycleways and designated paths are always
    "separate". */
module SeparationLevel {
  import opened Wrappers
  import opened PyValue
  import Seqs

  /** `RANKING`: the level names and their scores, higher is better. */
  const Ranking: map<string, real> := map[
    "none" := 0.0,
    "shared_lane" := 2.0,
    "share_busway" := 5.0,
    "lane" := 7.0,
    "lane_buffered" := 7.5,
    "track" := 8.0,
    "separate" := 10.0
  ]

  /** The cycleway columns, in the order their values are gathered. */
  const CycleColumns: seq<string> := ["cycleway", "cycleway:both", "cycleway:left", "cycleway:right"]

  /** The columns `run` indexes directly, and so must exist. */
  predicate HasSeparationColumns(row: Row) {
    && "cycleway" in row && "cycleway:both" in row && "cycleway:left" in row && "cycleway:right" in row
    && "highway" in row && "bicycle" in row
  }

  /** `RANKING.get(v, 0)`: unknown names and non-strings weigh 0. */
  function Rank(v: Scalar): (r: real)
    ensures r in {0.0, 2.0, 5.0, 7.0, 7.5, 8.0, 10.0}
    ensures v.Str? && v.s in Ranking ==> r == Ranking[v.s]
    ensures !(v.Str? && v.s in Ranking) ==> r == 0.0
  {
    if v.Str? && v.s in Ranking then Ranking[v.s] else 0.0
  }

  /** What one cycleway column adds to the candidates: a list adds its
      elements unchanged, a missing scalar (None, "no" or NaN) adds "none",
      any other scalar adds itself. */
  function Contribution(v: Value): seq<Scalar> {
    match v
    case Many(items) => items
    case One(s) => if s.Null? || s == Str("no") || s.NaN? then [Str("none")] else [s]
  }

  /** The candidates gathered from the first `k` cycleway columns. */
  function Gathered(row: Row, k: nat): seq<Scalar>
    requires HasSeparationColumns(row) && k <= |CycleColumns|
  {
    if k == 0 then [] else Gathered(row, k - 1) + Contribution(row[CycleColumns[k - 1]])
  }

  /** What `combine_cycleways` returns. */
  function Candidates(row: Row): seq<Scalar>
    requires HasSeparationColumns(row)
  {
    Gathered(row, |CycleColumns|)
  }

  /** `combine_cycleways`: append a scalar, extend by a list, column by
      column. */
  method CombineCycleways(row: Row) returns (values: seq<Scalar>)
    requires HasSeparationColumns(row)
    ensures values == Candidates(row)
  {
    values := [];
    for k := 0 to |CycleColumns|
      invariant values == Gathered(row, k)
    {
      var v := row[CycleColumns[k]];
      match v {
        case Many(items) =>
          values := values + items;
        case One(s) =>
          if s.Null? || s == Str("no") || s.NaN? {
            s := Str("none");
          }
          values := values + [s];
      }
    }
  }

  /** The candidates are the four columns' contributions, in column order. */
  lemma {:induction false} CandidatesInOrder(row: Row)
    requires HasSeparationColumns(row)
    ensures Candidates(row) == Contribution(row["cycleway"]) + Contribution(row["cycleway:both"])
                             + Contribution(row["cycleway:left"]) + Contribution(row["cycleway:right"])
    ensures |Candidates(row)| == |Contribution(row["cycleway"])| + |Contribution(row["cycleway:both"])|
                               + |Contribution(row["cycleway:left"])| + |Contribution(row["cycleway:right"])|
  {
    var a, b, c, d := Contribution(row["cycleway"]), Contribution(row["cycleway:both"]),
                      Contribution(row["cycleway:left"]), Contribution(row["cycleway:right"]);
    assert Gathered(row, 1) == [] + a == a;
    assert Gathered(row, 2) == a + b;
    assert Gathered(row, 3) == a + b + c;
    assert Gathered(row, 4) == a + b + c + d;
  }

  /** A scalar column adds exactly one candidate, never a missing one: a
      present value is kept, a missing one becomes "none". */
  lemma {:induction false} ScalarContribution(s: Scalar)
    ensures |Contribution(One(s))| == 1
    ensures Contribution(One(s))[0] == if s.Null? || s == Str("no") || s.NaN? then Str("none") else s
    ensures !Contribution(One(s))[0].Null? && !Contribution(One(s))[0].NaN?
    ensures Contribution(One(s))[0] != Str("no")
  {
  }

  /** The level depends only on the four cycleway columns, `highway`,
      `bicycle` and the two buffer tags: rows that agree on those have the
      same level. */
  lemma {:induction false} LevelSameTags(p: Row, q: Row)
    requires HasSeparationColumns(p) && HasSeparationColumns(q)
    requires p["cycleway"] == q["cycleway"] && p["cycleway:both"] == q["cycleway:both"]
    requires p["cycleway:left"] == q["cycleway:left"] && p["cycleway:right"] == q["cycleway:right"]
    requires p["highway"] == q["highway"] && p["bicycle"] == q["bicycle"]
    requires Get(p, "cycleway:buffer") == Get(q, "cycleway:buffer")
    requires Get(p, "cycleway:separation") == Get(q, "cycleway:separation")
    ensures Level(p) == Level(q)
  {
    CandidatesInOrder(p);
    CandidatesInOrder(q);
  }

  /** `pick_best`: the first candidate of largest rank, or None for an
      empty list. */
  function PickBest(values: seq<Scalar>): (best: Option<Scalar>)
    ensures best.None? <==> |values| == 0
    ensures best.Some? ==> best.value in values
    ensures best.Some? ==> forall i :: 0 <= i < |values| ==> Rank(values[i]) <= Rank(best.value)
  {
    if |values| == 0 then None else Some(values[Seqs.ArgMaxFirst(values, Rank)])
  }

  /** Ties go to the earliest candidate: every candidate before the chosen
      one ranks strictly lower. */
  lemma {:induction false} PickBestFirst(values: seq<Scalar>)
    requires |values| > 0
    ensures exists k :: 0 <= k < |values| && PickBest(values) == Some(values[k])
                     && forall j :: 0 <= j < k ==> Rank(values[j]) < Rank(values[k])
  {
    var k := Seqs.ArgMaxFirst(values, Rank);
    assert PickBest(values) == Some(values[k]);
  }

  /** The score of a level: `RANKING.get(level, 0)`, with None weighing 0. */
  function LevelScore(level: Option<Scalar>): (r: real)
    ensures r in {0.0, 2.0, 5.0, 7.0, 7.5, 8.0, 10.0}
  {
    match level
    case None => 0.0
    case Some(v) => Rank(v)
  }

  /** Every element equal to `from` replaced by `to`, the rest unchanged. */
  function Rename(values: seq<Scalar>, from: string, to: string): (r: seq<Scalar>)
    ensures |r| == |values|
    ensures forall i :: 0 <= i < |values| ==> r[i] == if values[i] == Str(from) then Str(to) else values[i]
  {
    seq(|values|, i requires 0 <= i < |values| => if values[i] == Str(from) then Str(to) else values[i])
  }

  /** The buffer tag: `cycleway:buffer`, or `cycleway:separation` when the
      former reads as None. */
  function BufferValue(row: Row): Value {
    if Get(row, "cycleway:buffer") == One(Null) then Get(row, "cycleway:separation")
    else Get(row, "cycleway:buffer")
  }

  /** A buffer is present unless the tag is None, "no" or NaN. */
  predicate HasBuffer(b: Value) {
    b != One(Null) && b != One(Str("no")) && b != One(NaN)
  }

  /** `apply_buffer_to_list`. */
  function ApplyBuffer(values: seq<Scalar>, row: Row): seq<Scalar> {
    if HasBuffer(BufferValue(row)) then Rename(values, "lane", "lane_buffered") else values
  }

  /** `adjust_track_with_separation`: a track separated only by flexible
      posts or a parking lane counts as a buffered lane. */
  function AdjustTrack(values: seq<Scalar>, row: Row): seq<Scalar> {
    var separation := Get(row, "cycleway:separation");
    if Str("track") in values && (separation == One(Str("flex_post")) || separation == One(Str("parking_lane")))
    then Rename(values, "track", "lane_buffered")
    else values
  }

  /** The override: a cycleway, or a path designated for bicycles. */
  predicate IsCycleway(row: Row)
    requires "highway" in row && "bicycle" in row
  {
    row["highway"] == One(Str("cycleway"))
    || (row["highway"] == One(Str("path")) && row["bicycle"] == One(Str("designated")))
  }

  /** The separation level of one edge, stage by stage: gather, buffer,
      track, pick, override. */
  function Level(row: Row): Option<Scalar>
    requires HasSeparationColumns(row)
  {
    if IsCycleway(row) then Some(Str("separate"))
    else PickBest(AdjustTrack(ApplyBuffer(Candidates(row), row), row))
  }

  /** One row of `run`: the candidate list is rewritten in place stage by
      stage, then the best is picked and the override applied. */
  method LevelOf(row: Row) returns (level: Option<Scalar>)
    requires HasSeparationColumns(row)
    ensures level == Level(row)
  {
    var all := CombineCycleways(row);
    all := ApplyBuffer(all, row);
    all := AdjustTrack(all, row);
    level := PickBest(all);
    if IsCycleway(row) {
      level := Some(Str("separate"));
    }
  }

  /** `run`: the level and score of every edge, in order. */
  method Run(rows: seq<Row>) returns (levels: seq<Option<Scalar>>, scores: seq<real>)
    requires forall i :: 0 <= i < |rows| ==> HasSeparationColumns(rows[i])
    ensures |levels| == |rows| && |scores| == |rows|
    ensures forall i :: 0 <= i < |rows| ==> levels[i] == Level(rows[i])
    ensures forall i :: 0 <= i < |rows| ==> scores[i] == LevelScore(levels[i])
  {
    levels := [];
    scores := [];
    for k := 0 to |rows|
      invariant |levels| == k && |scores| == k
      invariant forall i :: 0 <= i < k ==> levels[i] == Level(rows[i])
      invariant forall i :: 0 <= i < k ==> scores[i] == LevelScore(levels[i])
    {
      var level := LevelOf(rows[k]);
      var score := LevelScore(level);
      levels := levels + [level];
      scores := scores + [score];
      assert levels[k] == level && scores[k] == score;
    }
  }

  /** The best score of a list does not drop when every element is replaced
      by one ranked at least as high. */
  lemma {:induction false} BestScoreMonotone(a: seq<Scalar>, b: seq<Scalar>)
    requires |a| == |b|
    requires forall i :: 0 <= i < |a| ==> Rank(a[i]) <= Rank(b[i])
    ensures LevelScore(PickBest(a)) <= LevelScore(PickBest(b))
  {
    if |a| > 0 {
      var k :| 0 <= k < |a| && a[k] == PickBest(a).value;
      assert Rank(a[k]) <= Rank(b[k]) <= Rank(PickBest(b).value);
    }
  }

  /** The buffer upgrade keeps the length, only turns "lane" into
      "lane_buffered", and never lowers the best score. */
  lemma {:induction false} BufferUpgrades(values: seq<Scalar>, row: Row)
    ensures |ApplyBuffer(values, row)| == |values|
    ensures forall i :: 0 <= i < |values| ==>
      ApplyBuffer(values, row)[i] == values[i]
      || (values[i] == Str("lane") && ApplyBuffer(values, row)[i] == Str("lane_buffered"))
    ensures !HasBuffer(BufferValue(row)) ==> ApplyBuffer(values, row) == values
    ensures LevelScore(PickBest(values)) <= LevelScore(PickBest(ApplyBuffer(values, row)))
  {
    var r := ApplyBuffer(values, row);
    forall i | 0 <= i < |values|
      ensures Rank(values[i]) <= Rank(r[i])
    {
    }
    BestScoreMonotone(values, r);
  }

  /** The track downgrade keeps the length, only turns "track" into
      "lane_buffered", and never raises the best score. */
  lemma {:induction false} TrackDowngrades(values: seq<Scalar>, row: Row)
    ensures |AdjustTrack(values, row)| == |values|
    ensures forall i :: 0 <= i < |values| ==>
      AdjustTrack(values, row)[i] == values[i]
      || (values[i] == Str("track") && AdjustTrack(values, row)[i] == Str("lane_buffered"))
    ensures Str("track") !in values ==> AdjustTrack(values, row) == values
    ensures LevelScore(PickBest(AdjustTrack(values, row))) <= LevelScore(PickBest(values))
  {
    var r := AdjustTrack(values, row);
    forall i | 0 <= i < |values|
      ensures Rank(r[i]) <= Rank(values[i])
    {
    }
    BestScoreMonotone(r, values);
  }

  /** A cycleway or designated path is "separate", the top score, whatever
      its cycleway tags say; any other edge gets the best of its adjusted
      candidates. */
  lemma {:induction false} OverrideSeparate(row: Row)
    requires HasSeparationColumns(row)
    ensures IsCycleway(row) ==> Level(row) == Some(Str("separate")) && LevelScore(Level(row)) == 10.0
    ensures !IsCycleway(row) ==> Level(row) == PickBest(AdjustTrack(ApplyBuffer(Candidates(row), row), row))
    ensures forall lv :: LevelScore(lv) <= LevelScore(Some(Str("separate")))
  {
  }

  /** An edge whose cycleway tags are all missing scalars has level "none"
      and scores 0, unless the override applies. */
  lemma {:induction false} NoInfrastructure(row: Row)
    requires HasSeparationColumns(row)
    requires forall col | col in CycleColumns :: row[col] == One(Null) || row[col] == One(NaN) || row[col] == One(Str("no"))
    requires !IsCycleway(row)
    ensures Level(row) == Some(Str("none"))
    ensures LevelScore(Level(row)) == 0.0
  {
    var none := Str("none");
    AllMissingCandidates(row);
    var c := Candidates(row);
    NoneUnchanged(c, row);
    assert PickBest(c).value in c;
  }

  /** Four missing cycleway tags give four "none" candidates. */
  lemma {:induction false} AllMissingCandidates(row: Row)
    requires HasSeparationColumns(row)
    requires forall col | col in CycleColumns :: row[col] == One(Null) || row[col] == One(NaN) || row[col] == One(Str("no"))
    ensures Candidates(row) == [Str("none"), Str("none"), Str("none"), Str("none")]
  {
    var none := Str("none");
    assert CycleColumns[0] == "cycleway" && CycleColumns[1] == "cycleway:both";
    assert CycleColumns[2] == "cycleway:left" && CycleColumns[3] == "cycleway:right";
    assert Contribution(row["cycleway"]) == [none];
    assert Contribution(row["cycleway:both"]) == [none];
    assert Contribution(row["cycleway:left"]) == [none];
    assert Contribution(row["cycleway:right"]) == [none];
    CandidatesInOrder(row);
  }

  /** Neither the buffer nor the track stage touches a list of "none". */
  lemma {:induction false} NoneUnchanged(c: seq<Scalar>, row: Row)
    requires forall i :: 0 <= i < |c| ==> c[i] == Str("none")
    ensures AdjustTrack(ApplyBuffer(c, row), row) == c
  {
    var buffered := ApplyBuffer(c, row);
    assert buffered == c by {
      if HasBuffer(BufferValue(row)) {
        var r := Rename(c, "lane", "lane_buffered");
        assert forall i :: 0 <= i < |c| ==> r[i] == c[i];
      }
    }
    assert Str("track") !in c;
  }
}
