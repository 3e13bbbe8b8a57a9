/** backend/src/stressmodel/lanes.py: the number of traffic lanes read from
    the `lanes` tag and scored on a ladder from 8 (two lanes or fewer) down
    to 1 (six or more); an unknown count scores 0. */
module Lanes {
  import opened Wrappers
  import opened PyValue
  import Text
  import opened Decimal
  import Seqs
  import opened Ladder

  /** `LANES_RANKINGS`: (threshold in lanes, score). */
  const LanesRankings: seq<Rung> := [
    Rung(AtMost(2.0), 8.0),
    Rung(AtMost(3.0), 6.0),
    Rung(AtMost(4.0), 4.0),
    Rung(AtMost(5.0), 2.0),
    Rung(Unbounded, 1.0)
  ]

  /** `parse_lanes`: an int becomes a float, a float passes through (NaN
      stays missing), a string is stripped and read by `float()`; anything
      else is missing. */
  function ParseLanes(v: Scalar): (r: Option<real>)
    ensures v.Null? || v.NaN? ==> r.None?
    ensures v.Int? ==> r == Some(v.i as real)
    ensures v.Float? ==> r == Some(v.x)
    ensures v.Str? && r.Some? ==> HasDigit(v.s)
  {
    match v
    case Int(i) => Some(i as real)
    case Float(x) => Some(x)
    case Str(s) =>
      var t := Text.Strip(s);
      var r := ParseFloat(t);
      if r.Some? then
        assert HasDigit(s) by {
          var i :| 0 <= i < |t| && IsDigit(t[i]);
          assert t[i] in s;
        }
        r
      else r
    case _ => None
  }

  /** `extract_lanes`: the largest count among the list items that parse,
      None as missing, or the single value's count. */
  function ExtractLanes(value: Value): Option<real> {
    match value
    case Many(items) => Seqs.MaxParsed(items, ParseLanes)
    case One(Null) => None
    case One(v) => ParseLanes(v)
  }

  /** `get_lanes_score`: missing scores 0, otherwise the ladder. */
  function LanesScore(lanes: Option<real>): real {
    if lanes.None? then 0.0 else Climb(LanesRankings, lanes)
  }

  /** `run`: the lane count and the score of every edge, in order. No
      default count is filled in for a missing one. */
  method Run(lanes: seq<Value>) returns (counts: seq<Option<real>>, scores: seq<real>)
    ensures |counts| == |lanes| && |scores| == |lanes|
    ensures forall i :: 0 <= i < |lanes| ==> counts[i] == ExtractLanes(lanes[i])
    ensures forall i :: 0 <= i < |lanes| ==> scores[i] == LanesScore(counts[i])
  {
    counts := [];
    scores := [];
    for k := 0 to |lanes|
      invariant |counts| == k && |scores| == k
      invariant forall i :: 0 <= i < k ==> counts[i] == ExtractLanes(lanes[i])
      invariant forall i :: 0 <= i < k ==> scores[i] == LanesScore(counts[i])
    {
      var n := ExtractLanes(lanes[k]);
      var score := LanesScore(n);
      counts := counts + [n];
      scores := scores + [score];
      assert counts[k] == n && scores[k] == score;
    }
  }

  /** The ladder written out: a missing count scores 0, otherwise the first
      threshold at least the count wins. */
  lemma {:induction false} LanesScoreTable(lanes: Option<real>)
    ensures LanesScore(lanes) ==
      if lanes.None? then 0.0
      else if lanes.value <= 2.0 then 8.0
      else if lanes.value <= 3.0 then 6.0
      else if lanes.value <= 4.0 then 4.0
      else if lanes.value <= 5.0 then 2.0
      else 1.0
  {
  }

  /** More lanes never score higher. */
  lemma {:induction false} LanesScoreMonotone(x: real, y: real)
    requires x <= y
    ensures LanesScore(Some(y)) <= LanesScore(Some(x))
  {
    assert Descending(LanesRankings);
    ClimbMonotone(LanesRankings, x, y, 0);
  }

  /** Every score is one of the ladder scores or 0, and an unknown count
      scores lowest of all, below even six lanes. */
  lemma {:induction false} LanesScoreRange(lanes: Option<real>)
    ensures LanesScore(lanes) in {0.0, 1.0, 2.0, 4.0, 6.0, 8.0}
    ensures LanesScore(None) == 0.0 < LanesScore(Some(if lanes.Some? then lanes.value else 0.0))
  {
    LanesScoreTable(lanes);
    LanesScoreTable(Some(if lanes.Some? then lanes.value else 0.0));
  }

  /** A list is read item by item: items that do not parse are dropped, an
      empty or all-bad list is missing, otherwise the largest count wins. */
  lemma {:induction false} LanesOfList(items: seq<Scalar>)
    ensures ExtractLanes(Many(items)).None? <==> forall i :: 0 <= i < |items| ==> ParseLanes(items[i]).None?
    ensures ExtractLanes(Many(items)).Some? ==>
      exists i :: 0 <= i < |items| && ParseLanes(items[i]) == ExtractLanes(Many(items))
    ensures ExtractLanes(Many(items)).Some? ==>
      forall i :: 0 <= i < |items| && ParseLanes(items[i]).Some? ==>
        ParseLanes(items[i]).value <= ExtractLanes(Many(items)).value
  {
    Seqs.MaxParsedIs(items, ParseLanes);
  }

  /** A count written as digits, padded or not, reads as that count. */
  lemma {:induction false} LanesDigits(d: string, pad: string)
    requires |d| > 0 && AllDigits(d)
    requires forall i :: 0 <= i < |pad| ==> pad[i] == ' '
    ensures ExtractLanes(One(Str(d + pad))) == Some(DigitsValue(d) as real)
  {
    Text.StripTrailing(d, pad);
    ParseFloatDigits(d);
  }
}
