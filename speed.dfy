/** backend/src/stressmodel/speed.py: the posted speed limit (`maxspeed`)
    read from its tag and scored on a ladder from 10 (20 mph or less) down to
    1 (over 50 mph or unknown). */
module Speed {
  import opened Wrappers
  import opened PyValue
  import Text
  import opened Decimal
  import Seqs
  import opened Ladder

  /** `SPEED_RANKINGS`: (threshold in mph, score). */
  const SpeedRankings: seq<Rung> := [
    Rung(AtMost(20.0), 10.0),
    Rung(AtMost(25.0), 8.0),
    Rung(AtMost(30.0), 5.0),
    Rung(AtMost(40.0), 3.0),
    Rung(AtMost(50.0), 2.0),
    Rung(Unbounded, 1.0)
  ]

  /** `parse_speed`: a float passes through (NaN stays missing); a string has
      every "mph" removed, is stripped and read by `float()`; anything else,
      an int or None included, is missing. */
  function ParseSpeed(v: Scalar): (r: Option<real>)
    ensures v.Null? || v.NaN? || v.Int? ==> r.None?
    ensures v.Float? ==> r == Some(v.x)
    ensures v.Str? && r.Some? ==> HasDigit(v.s)
  {
    match v
    case Float(x) => Some(x)
    case Str(s) =>
      var t := Text.Strip(Text.RemoveAll(s, "mph"));
      var r := ParseFloat(t);
      if r.Some? then
        assert HasDigit(s) by {
          var i :| 0 <= i < |t| && IsDigit(t[i]);
          assert t[i] in s;
        }
        r
      else r
    case _ => None
  }

  /** `extract_maxspeed`: the largest speed among the list items that parse,
      or the single value's speed. */
  function ExtractMaxspeed(value: Value): Option<real> {
    match value
    case Many(items) => Seqs.MaxParsed(items, ParseSpeed)
    case One(v) => ParseSpeed(v)
  }

  /** `get_speed_score`; a missing speed fails every comparison. */
  function SpeedScore(mph: Option<real>): real {
    Climb(SpeedRankings, mph)
  }

  /** `run`: the speed and the score of every edge, in order. No default
      speed is filled in for a missing one. */
  method Run(maxspeed: seq<Value>) returns (speeds: seq<Option<real>>, scores: seq<real>)
    ensures |speeds| == |maxspeed| && |scores| == |maxspeed|
    ensures forall i :: 0 <= i < |maxspeed| ==> speeds[i] == ExtractMaxspeed(maxspeed[i])
    ensures forall i :: 0 <= i < |maxspeed| ==> scores[i] == SpeedScore(speeds[i])
  {
    speeds := [];
    scores := [];
    for k := 0 to |maxspeed|
      invariant |speeds| == k && |scores| == k
      invariant forall i :: 0 <= i < k ==> speeds[i] == ExtractMaxspeed(maxspeed[i])
      invariant forall i :: 0 <= i < k ==> scores[i] == SpeedScore(speeds[i])
    {
      var mph := ExtractMaxspeed(maxspeed[k]);
      var score := SpeedScore(mph);
      speeds := speeds + [mph];
      scores := scores + [score];
      assert speeds[k] == mph && scores[k] == score;
    }
  }

  /** The ladder written out: the first threshold at least the speed wins,
      and a missing speed scores 1. */
  lemma {:induction false} SpeedScoreTable(mph: Option<real>)
    ensures SpeedScore(mph) ==
      if mph.None? then 1.0
      else if mph.value <= 20.0 then 10.0
      else if mph.value <= 25.0 then 8.0
      else if mph.value <= 30.0 then 5.0
      else if mph.value <= 40.0 then 3.0
      else if mph.value <= 50.0 then 2.0
      else 1.0
  {
    if mph.None? {
      ClimbMissing(SpeedRankings, 0);
    }
  }

  /** A faster street never scores higher. */
  lemma {:induction false} SpeedScoreMonotone(x: real, y: real)
    requires x <= y
    ensures SpeedScore(Some(y)) <= SpeedScore(Some(x))
  {
    assert Descending(SpeedRankings);
    ClimbMonotone(SpeedRankings, x, y, 0);
  }

  /** Every score is one of the six ladder scores, and an unknown speed gets
      the lowest of them. */
  lemma {:induction false} SpeedScoreRange(mph: Option<real>)
    ensures SpeedScore(mph) in {1.0, 2.0, 3.0, 5.0, 8.0, 10.0}
    ensures SpeedScore(None) == 1.0 <= SpeedScore(mph)
  {
    SpeedScoreTable(mph);
    SpeedScoreTable(None);
  }

  /** A list is read item by item: items that do not parse are dropped, an
      empty or all-bad list is missing, otherwise the largest speed wins. */
  lemma {:induction false} MaxspeedOfList(items: seq<Scalar>)
    ensures ExtractMaxspeed(Many(items)).None? <==> forall i :: 0 <= i < |items| ==> ParseSpeed(items[i]).None?
    ensures ExtractMaxspeed(Many(items)).Some? ==>
      exists i :: 0 <= i < |items| && ParseSpeed(items[i]) == ExtractMaxspeed(Many(items))
    ensures ExtractMaxspeed(Many(items)).Some? ==>
      forall i :: 0 <= i < |items| && ParseSpeed(items[i]).Some? ==>
        ParseSpeed(items[i]).value <= ExtractMaxspeed(Many(items)).value
  {
    Seqs.MaxParsedIs(items, ParseSpeed);
  }

  /** A whole number of mph, with or without spaces before the unit, reads
      as that number: "25 mph" is 25 and "30mph" is 30. */
  lemma {:induction false} SpeedWithUnit(d: string, pad: string)
    requires |d| > 0 && AllDigits(d)
    requires forall i :: 0 <= i < |pad| ==> pad[i] == ' '
    ensures ParseSpeed(Str(d + pad + "mph")) == Some(DigitsValue(d) as real)
  {
    var unit := pad + "mph";
    assert d + pad + "mph" == d + unit;
    assert Text.RemoveAll("mph", "mph") == "";
    assert "mph" == "mph" + "";
    Text.RemoveAllKeepsPrefix(pad, "mph", "mph");
    assert Text.RemoveAll(unit, "mph") == pad by {
      assert pad + "" == pad;
    }
    Text.RemoveAllKeepsPrefix(d, unit, "mph");
    Text.StripTrailing(d, pad);
    ParseFloatDigits(d);
  }

  /** Text with no digit, "mph" and "abc mph" and the empty string among
      them, is missing. */
  lemma {:induction false} SpeedNoDigit(s: string)
    requires !HasDigit(s)
    ensures ParseSpeed(Str(s)) == None
  {
  }

  /** "abc mph", the empty string and the empty list are missing. */
  lemma {:induction false} SpeedMissingExamples()
    ensures ParseSpeed(Str("abc mph")) == None
    ensures ParseSpeed(Str("")) == None
    ensures ExtractMaxspeed(Many([])) == None
  {
    assert !HasDigit("abc mph") by {
      forall i | 0 <= i < |"abc mph"| ensures !IsDigit("abc mph"[i]) {}
    }
    SpeedNoDigit("abc mph");
    SpeedNoDigit("");
  }
}
