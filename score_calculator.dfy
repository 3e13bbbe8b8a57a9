/** frontend/src/utils/scoreCalculator.ts: the map re-scores each street on
    the 0 to 5 scale of the frontend tables (lower is better), from its
    separation level, its street classification and its speed limit, and
    combines the scores it has into a weighted average. A factor whose data
    is missing or unknown gives no score (`null`) and is left out of the
    average instead of counting as 0. */
module ScoreCalculator {
  import opened Wrappers
  import opened Js
  import opened BikeData
  import Decimal
  import Seqs
  import SeparationLevel
  import Classification

  /** The street properties the scorers read. A category that is
      `undefined` or `null` is `None`. */
  datatype StreetProperties = StreetProperties(
    separationLevel: Option<string>,
    streetClassification: Option<string>,
    maxspeedInt: JsValue)

  /** The four values `calculateAllScores` returns. */
  datatype AllScores = AllScores(
    separationLevelScore: Option<real>,
    streetClassificationScore: Option<real>,
    maxspeedIntScore: Option<real>,
    compositeScore: Option<real>)

  /** A category looked up in a table: a missing or empty category and a
      category the table does not name give no score. */
  function CategoryScore(category: Option<string>, categories: map<string, real>): (r: Option<real>)
    ensures r.None? <==> category.None? || category.value == "" || category.value !in categories
    ensures r.Some? ==> r.value == categories[category.value]
  {
    if category.None? || category.value == "" then None
    else if category.value in categories then Some(categories[category.value])
    else None
  }

  /** `calculateSeparationScore`: no score for a missing, empty or unknown
      level, otherwise the configured score of the level. */
  function SeparationScore(p: StreetProperties, config: Model): (r: Option<real>)
    ensures r.None? <==>
      p.separationLevel.None? || p.separationLevel.value == "" || p.separationLevel.value !in config.separationLevel
    ensures r.Some? ==> r.value == config.separationLevel[p.separationLevel.value]
  {
    CategoryScore(p.separationLevel, config.separationLevel)
  }

  /** `calculateStreetClassificationScore`: the same rules over the street
      classification table. */
  function StreetClassificationScore(p: StreetProperties, config: Model): (r: Option<real>)
    ensures r.None? <==>
      p.streetClassification.None? || p.streetClassification.value == ""
      || p.streetClassification.value !in config.streetClassification
    ensures r.Some? ==> r.value == config.streetClassification[p.streetClassification.value]
  {
    CategoryScore(p.streetClassification, config.streetClassification)
  }

  /** `speedToCategory`: the speed category a limit in mph falls in. */
  function SpeedToCategory(speed: real): (c: string)
    ensures c in SpeedLimitCategories
  {
    if speed <= 20.0 then "20_mph_or_less"
    else if speed <= 25.0 then "25_mph"
    else if speed <= 30.0 then "30_mph"
    else if speed <= 40.0 then "40_mph"
    else if speed <= 50.0 then "50_mph"
    else "over_50_mph"
  }

  /** The speed `calculateSpeedScore` reads: a number is used as it is, any
      other value goes through `parseInt`; `undefined`, `null` and `NaN`
      give no speed. */
  function SpeedValue(v: JsValue): (r: Option<real>)
    ensures v.Undefined? || v.Null? || v.NaN? ==> r.None?
    ensures v.Num? ==> r == Some(v.x)
    ensures v.Str? ==> (r.Some? <==> Decimal.ParseIntPrefix(v.s).Some?)
    ensures v.Str? && r.Some? ==> Decimal.HasDigit(v.s) && r.value == Decimal.ParseIntPrefix(v.s).value as real
  {
    match v
    case Num(x) => Some(x)
    case Str(s) =>
      var n := Decimal.ParseIntPrefix(s);
      if n.Some? then Some(n.value as real) else None
    case _ => None
  }

  /** `calculateSpeedScore`: no score without a speed, otherwise the score
      of the speed's category, or none when the configuration lacks that
      category. */
  function SpeedScore(p: StreetProperties, config: Model): (r: Option<real>)
    ensures r.Some? ==> SpeedValue(p.maxspeedInt).Some?
    ensures r.Some? <==>
      SpeedValue(p.maxspeedInt).Some? && SpeedToCategory(SpeedValue(p.maxspeedInt).value) in config.speedLimit
    ensures r.Some? ==> r.value == config.speedLimit[SpeedToCategory(SpeedValue(p.maxspeedInt).value)]
  {
    var speed := SpeedValue(p.maxspeedInt);
    if speed.None? then None
    else
      var category := SpeedToCategory(speed.value);
      if category in config.speedLimit then Some(config.speedLimit[category]) else None
  }

  /** One entry of `availableScores`. */
  datatype Weighted = Weighted(score: real, weight: real)

  /** `availableScores.reduce((sum, item) => sum + item.weight, 0)`. */
  function TotalWeight(items: seq<Weighted>): real {
    if |items| == 0 then 0.0 else TotalWeight(items[..|items| - 1]) + items[|items| - 1].weight
  }

  /** `availableScores.reduce((sum, item) => sum + item.score * item.weight, 0)`. */
  function WeightedSum(items: seq<Weighted>): real {
    if |items| == 0 then 0.0
    else WeightedSum(items[..|items| - 1]) + items[|items| - 1].score * items[|items| - 1].weight
  }

  /** `availableScores`: the present scores, each with the weight of its
      factor (separation with `separation_level`, speed with `speed`,
      classification with `busyness`), in that order. */
  function Available(separation: Option<real>, streetClass: Option<real>, speed: Option<real>, w: ModelWeights): (items: seq<Weighted>)
    ensures |items| == 0 <==> separation.None? && streetClass.None? && speed.None?
    ensures |items| <= 3
  {
    Entry(separation, w.separationLevel) + Entry(speed, w.speed) + Entry(streetClass, w.busyness)
  }

  /** The entry a score contributes: one when present, none when missing. */
  function Entry(score: Option<real>, weight: real): (items: seq<Weighted>)
    ensures |items| == if score.Some? then 1 else 0
  {
    if score.Some? then [Weighted(score.value, weight)] else []
  }

  /** The weighted average of the present scores: none when no score is
      present or when the present scores' weights add up to 0. */
  function WeightedAverage(separation: Option<real>, streetClass: Option<real>, speed: Option<real>, w: ModelWeights): (r: Option<real>)
    ensures r.None? <==>
      (separation.None? && streetClass.None? && speed.None?)
      || TotalWeight(Available(separation, streetClass, speed, w)) == 0.0
  {
    var items := Available(separation, streetClass, speed, w);
    if |items| == 0 then None
    else if TotalWeight(items) == 0.0 then None
    else Some(WeightedSum(items) / TotalWeight(items))
  }

  /** `calculateCompositeScore`: collect the present scores with their
      weights, then divide their weighted sum by their total weight. */
  method CalculateCompositeScore(separation: Option<real>, streetClass: Option<real>, speed: Option<real>, w: ModelWeights)
    returns (r: Option<real>)
    ensures r == WeightedAverage(separation, streetClass, speed, w)
  {
    var available: seq<Weighted> := [];
    if separation.Some? {
      available := available + [Weighted(separation.value, w.separationLevel)];
    }
    if speed.Some? {
      available := available + [Weighted(speed.value, w.speed)];
    }
    if streetClass.Some? {
      available := available + [Weighted(streetClass.value, w.busyness)];
    }
    assert available == Available(separation, streetClass, speed, w);
    if |available| == 0 {
      return None;
    }
    var totalWeight := TotalWeight(available);
    if totalWeight == 0.0 {
      return None;
    }
    var weightedSum := WeightedSum(available);
    return Some(weightedSum / totalWeight);
  }

  /** The module-level state of scoreCalculator.ts: how many calculations
      have been logged, which stops growing at 5. */
  class Calculator {
    var calculationCount: nat

    constructor()
      ensures calculationCount == 0
    {
      calculationCount := 0;
    }

    /** `calculateAllScores`: the three factor scores and their composite;
        the counter only decides whether the calculation is logged. */
    method CalculateAllScores(p: StreetProperties, config: Model, w: ModelWeights) returns (r: AllScores)
      modifies this
      ensures r.separationLevelScore == SeparationScore(p, config)
      ensures r.streetClassificationScore == StreetClassificationScore(p, config)
      ensures r.maxspeedIntScore == SpeedScore(p, config)
      ensures r.compositeScore == WeightedAverage(r.separationLevelScore, r.streetClassificationScore, r.maxspeedIntScore, w)
      ensures calculationCount == if old(calculationCount) < 5 then old(calculationCount) + 1 else old(calculationCount)
    {
      var separationScore := SeparationScore(p, config);
      var streetClassScore := StreetClassificationScore(p, config);
      var speedScore := SpeedScore(p, config);
      var compositeScore := CalculateCompositeScore(separationScore, streetClassScore, speedScore, w);
      if calculationCount < 5 {
        calculationCount := calculationCount + 1;
      }
      return AllScores(separationScore, streetClassScore, speedScore, compositeScore);
    }
  }

  /** With the default tables, a separation level gets a score exactly when
      it is one of the levels the backend computes, and every score is on
      the 0 to 5 scale. */
  lemma {:induction false} DefaultSeparationScore(p: StreetProperties)
    ensures SeparationScore(p, BikeInfrastructureData).Some? <==>
      p.separationLevel.Some? && p.separationLevel.value in SeparationLevel.Ranking
    ensures SeparationScore(p, BikeInfrastructureData).Some? ==>
      0.0 <= SeparationScore(p, BikeInfrastructureData).value <= 5.0
  {
    TablesOnScale();
    if p.separationLevel.Some? {
      SeparationMatchesBackend("none", "none");
      assert "" !in SeparationCategories;
    }
  }

  /** With the default tables, a street classification gets a score exactly
      when it is one of the backend's four buckets, on the 0 to 5 scale. */
  lemma {:induction false} DefaultStreetClassificationScore(p: StreetProperties)
    ensures StreetClassificationScore(p, BikeInfrastructureData).Some? <==>
      p.streetClassification.Some? && p.streetClassification.value in Classification.Buckets
    ensures StreetClassificationScore(p, BikeInfrastructureData).Some? ==>
      0.0 <= StreetClassificationScore(p, BikeInfrastructureData).value <= 5.0
  {
    TablesOnScale();
    if p.streetClassification.Some? {
      ClassificationMatchesBackend("motorway", "motorway");
    }
  }

  /** With the default tables every category `speedToCategory` can return
      is known, so a speed score is missing exactly when the speed is, and
      it is on the 0 to 5 scale. */
  lemma {:induction false} DefaultSpeedScore(p: StreetProperties)
    ensures SpeedScore(p, BikeInfrastructureData).None? <==> SpeedValue(p.maxspeedInt).None?
    ensures SpeedScore(p, BikeInfrastructureData).Some? ==>
      0.0 <= SpeedScore(p, BikeInfrastructureData).value <= 5.0
  {
    TablesOnScale();
  }

  /** A higher speed limit never scores better (lower) with the default
      tables. */
  lemma {:induction false} SpeedScoreMonotone(x: real, y: real)
    requires x <= y
    ensures SpeedLimitCategories[SpeedToCategory(x)] <= SpeedLimitCategories[SpeedToCategory(y)]
  {
    SpeedScoresRise();
    var i := SpeedIndex(x);
    var j := SpeedIndex(y);
    assert i <= j;
    if i < j {
      assert SpeedLimitCategories[SpeedOrder[i]] < SpeedLimitCategories[SpeedOrder[j]];
    }
  }

  /** The position of a speed's category in the speed order. */
  function SpeedIndex(speed: real): (i: nat)
    ensures i < |SpeedOrder| && SpeedOrder[i] == SpeedToCategory(speed)
  {
    if speed <= 20.0 then 0
    else if speed <= 25.0 then 1
    else if speed <= 30.0 then 2
    else if speed <= 40.0 then 3
    else if speed <= 50.0 then 4
    else 5
  }

  /** A limit written as digits followed by anything else, such as
      "25 mph", reads as the number its digits spell. */
  lemma {:induction false} SpeedOfText(d: string, rest: string)
    requires |d| > 0 && Decimal.AllDigits(d)
    requires |rest| > 0 ==> !Decimal.IsDigit(rest[0])
    ensures SpeedValue(Str(d + rest)) == Some(Decimal.DigitsValue(d) as real)
  {
    Decimal.ParseIntDigits(d, rest);
  }

  /** A limit behind JavaScript whitespace still reads; one behind an
      information separator (U+001C) does not, so it gets no speed score. */
  lemma {:induction false} SpeedBehindSpace(config: Model)
    ensures SpeedValue(Str("\U{A0}25")) == Some(25.0)
    ensures SpeedValue(Str("\U{1C}25")) == None
    ensures SpeedScore(StreetProperties(None, None, Str("\U{1C}25")), config) == None
  {
    Decimal.ParseIntSkipsNoBreakSpace();
    Decimal.ParseIntStopsAtSeparator();
  }

  /** The total weight and weighted sum of three entries. */
  lemma {:induction false} ThreeEntries(a: Weighted, b: Weighted, c: Weighted)
    ensures TotalWeight([a, b, c]) == a.weight + b.weight + c.weight
    ensures WeightedSum([a, b, c]) == a.score * a.weight + b.score * b.weight + c.score * c.weight
  {
    assert [a][..0] == [];
    assert TotalWeight([a]) == a.weight && WeightedSum([a]) == a.score * a.weight;
    assert [a, b][..1] == [a];
    assert TotalWeight([a, b]) == a.weight + b.weight;
    assert WeightedSum([a, b]) == a.score * a.weight + b.score * b.weight;
    assert [a, b, c][..2] == [a, b];
  }

  /** With all three scores present and a positive total weight, the
      composite is their weighted sum over the total weight. */
  lemma {:induction false} AllPresent(separation: real, streetClass: real, speed: real, w: ModelWeights)
    requires w.separationLevel + w.speed + w.busyness > 0.0
    ensures WeightedAverage(Some(separation), Some(streetClass), Some(speed), w)
      == Some((separation * w.separationLevel + speed * w.speed + streetClass * w.busyness)
              / (w.separationLevel + w.speed + w.busyness))
  {
    var items := Available(Some(separation), Some(streetClass), Some(speed), w);
    assert items == [Weighted(separation, w.separationLevel), Weighted(speed, w.speed), Weighted(streetClass, w.busyness)];
    ThreeEntries(items[0], items[1], items[2]);
    assert TotalWeight(items) == w.separationLevel + w.speed + w.busyness;
    assert WeightedSum(items) == separation * w.separationLevel + speed * w.speed + streetClass * w.busyness;
    assert WeightedAverage(Some(separation), Some(streetClass), Some(speed), w) == Some(WeightedSum(items) / TotalWeight(items));
  }

  /** A missing score is skipped, not counted as 0: the weight of its
      factor has no effect on the composite. */
  lemma {:induction false} MissingWeightIgnored(separation: Option<real>, streetClass: Option<real>, speed: Option<real>, w: ModelWeights, other: real)
    ensures separation.None? ==>
      WeightedAverage(separation, streetClass, speed, w)
        == WeightedAverage(separation, streetClass, speed, w.(separationLevel := other))
    ensures streetClass.None? ==>
      WeightedAverage(separation, streetClass, speed, w)
        == WeightedAverage(separation, streetClass, speed, w.(busyness := other))
    ensures speed.None? ==>
      WeightedAverage(separation, streetClass, speed, w)
        == WeightedAverage(separation, streetClass, speed, w.(speed := other))
  {
  }

  /** A score that is the only one present, with a weight other than 0, is
      the composite. */
  lemma {:induction false} OnlyScorePresent(x: real, w: ModelWeights)
    ensures w.separationLevel != 0.0 ==> WeightedAverage(Some(x), None, None, w) == Some(x)
    ensures w.busyness != 0.0 ==> WeightedAverage(None, Some(x), None, w) == Some(x)
    ensures w.speed != 0.0 ==> WeightedAverage(None, None, Some(x), w) == Some(x)
  {
    OneEntry(x, w.separationLevel);
    assert Available(Some(x), None, None, w) == [Weighted(x, w.separationLevel)];
    OneEntry(x, w.busyness);
    assert Available(None, Some(x), None, w) == [Weighted(x, w.busyness)];
    OneEntry(x, w.speed);
    assert Available(None, None, Some(x), w) == [Weighted(x, w.speed)];
  }

  /** The weighted average of a single entry with a weight other than 0 is
      its score. */
  lemma {:induction false} OneEntry(x: real, weight: real)
    ensures TotalWeight([Weighted(x, weight)]) == weight
    ensures weight != 0.0 ==> WeightedSum([Weighted(x, weight)]) / TotalWeight([Weighted(x, weight)]) == x
  {
    var items := [Weighted(x, weight)];
    assert items[..0] == [];
    assert WeightedSum(items) == x * weight;
    if weight != 0.0 {
      assert (x * weight) / weight == x;
    }
  }

  /** A weighted score lies between its weighted bounds. */
  lemma {:induction false} ScaleBetween(s: real, w: real, lo: real, hi: real)
    requires w >= 0.0 && lo <= s <= hi
    ensures w * lo <= s * w <= w * hi
  {
    assert s * w - w * lo == w * (s - lo);
    assert w * hi - s * w == w * (hi - s);
  }

  /** Entries with non-negative weights and scores within bounds have a
      weighted sum within their total weight times the bounds. */
  lemma {:induction false} WeightedSumBetween(items: seq<Weighted>, lo: real, hi: real)
    requires forall i :: 0 <= i < |items| ==> items[i].weight >= 0.0 && lo <= items[i].score <= hi
    ensures TotalWeight(items) >= 0.0
    ensures TotalWeight(items) * lo <= WeightedSum(items) <= TotalWeight(items) * hi
  {
    if |items| > 0 {
      var init := items[..|items| - 1];
      var last := items[|items| - 1];
      WeightedSumBetween(init, lo, hi);
      AddBounds(TotalWeight(init), WeightedSum(init), last.weight, last.score, lo, hi);
    }
  }

  /** Adding one weighted score within the bounds to a weighted sum within
      its total weight times the bounds keeps it so. */
  lemma {:induction false} AddBounds(t: real, s: real, w: real, score: real, lo: real, hi: real)
    requires t * lo <= s <= t * hi && w >= 0.0 && lo <= score <= hi
    ensures (t + w) * lo <= s + score * w <= (t + w) * hi
  {
    ScaleBetween(score, w, lo, hi);
    assert (t + w) * lo == t * lo + w * lo;
    assert (t + w) * hi == t * hi + w * hi;
  }

  /** The present scores of the three factors, each within the bounds. */
  lemma {:induction false} AvailableBetween(separation: Option<real>, streetClass: Option<real>, speed: Option<real>, w: ModelWeights, lo: real, hi: real)
    requires w.separationLevel >= 0.0 && w.speed >= 0.0 && w.busyness >= 0.0
    requires separation.Some? ==> lo <= separation.value <= hi
    requires streetClass.Some? ==> lo <= streetClass.value <= hi
    requires speed.Some? ==> lo <= speed.value <= hi
    ensures forall i :: 0 <= i < |Available(separation, streetClass, speed, w)| ==>
      Available(separation, streetClass, speed, w)[i].weight >= 0.0
      && lo <= Available(separation, streetClass, speed, w)[i].score <= hi
  {
  }

  /** With non-negative weights, the composite lies between any bounds of
      the present scores, so between the smallest and the largest of them. */
  lemma {:induction false} CompositeBetween(separation: Option<real>, streetClass: Option<real>, speed: Option<real>, w: ModelWeights, lo: real, hi: real)
    requires w.separationLevel >= 0.0 && w.speed >= 0.0 && w.busyness >= 0.0
    requires separation.Some? ==> lo <= separation.value <= hi
    requires streetClass.Some? ==> lo <= streetClass.value <= hi
    requires speed.Some? ==> lo <= speed.value <= hi
    ensures WeightedAverage(separation, streetClass, speed, w).Some? ==>
      lo <= WeightedAverage(separation, streetClass, speed, w).value <= hi
  {
    var items := Available(separation, streetClass, speed, w);
    var r := WeightedAverage(separation, streetClass, speed, w);
    if r.Some? {
      AvailableBetween(separation, streetClass, speed, w, lo, hi);
      WeightedSumBetween(items, lo, hi);
      var sum, total := WeightedSum(items), TotalWeight(items);
      assert total > 0.0;
      Seqs.DivideBetween(sum, total, lo, hi);
      assert r.value == sum / total;
    }
  }
}
