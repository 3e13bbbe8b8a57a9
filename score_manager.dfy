/** frontend/src/utils/scoreManager.ts: re-computes the composite score of
    every street of a GeoJSON data set from the component scores stored in
    its properties. Unlike scoreCalculator.ts, a missing component counts
    as 0 instead of being left out, and the weights are fractions rather
    than percentages. The data arrive through `JSON.parse`, so a property
    holds `null` or a number, never `NaN`. */
module ScoreManager {
  import opened Wrappers
  import opened Js
  import Seqs
  import BikeData
  import ScoreCalculator

  /** `ScoreWeights`: the weight of each component score. */
  datatype ScoreWeights = ScoreWeights(
    maxspeedIntScore: real,
    separationLevelScore: real,
    streetClassificationScore: real,
    lanesIntScore: real)

  /** `StreetProperties`: any named values; the component scores and the
      composite are read and written under their own names. */
  type Properties = map<string, JsValue>

  /** `GeoJsonFeature`; the geometry is carried along untouched. */
  datatype Feature<G> = Feature(kind: string, properties: Properties, geometry: G)

  /** `GeoJsonData`. */
  datatype GeoJsonData<G> = GeoJsonData(kind: string, features: seq<Feature<G>>)

  /** The statistics `getScoreStats` reports. */
  datatype ScoreStats = ScoreStats(min: real, max: real, avg: real, count: nat)

  const MaxspeedKey: string := "maxspeed_int_score"
  const SeparationKey: string := "separation_level_score"
  const StreetClassificationKey: string := "street_classification_score"
  const LanesKey: string := "lanes_int_score"
  const CompositeKey: string := "composite_score"

  /** `defaultWeights`: separation 0.5, speed 0.25, classification 0.25,
      lanes 0. */
  const DefaultWeights: ScoreWeights := ScoreWeights(0.25, 0.5, 0.25, 0.0)

  /** The sum of the four weights. */
  function TotalWeight(w: ScoreWeights): real {
    w.maxspeedIntScore + w.separationLevelScore + w.streetClassificationScore + w.lanesIntScore
  }

  /** A score property as the interface types it: absent, `null` or a
      number. */
  predicate IsScoreValue(p: Properties, key: string) {
    key in p ==> p[key].Undefined? || p[key].Null? || p[key].Num?
  }

  /** The component scores and the composite all hold scores. */
  predicate ScoresAreNumbers(p: Properties) {
    && IsScoreValue(p, MaxspeedKey) && IsScoreValue(p, SeparationKey)
    && IsScoreValue(p, StreetClassificationKey) && IsScoreValue(p, LanesKey)
    && IsScoreValue(p, CompositeKey)
  }

  /** A component score as the weighted sum uses it: the destructuring
      default 0 when it is absent or `undefined`, 0 for `null` as arithmetic
      converts it, otherwise the number. */
  function Component(p: Properties, key: string): (x: real)
    requires IsScoreValue(p, key)
    ensures key !in p || !p[key].Num? ==> x == 0.0
    ensures key in p && p[key].Num? ==> x == p[key].x
  {
    if key in p && p[key].Num? then p[key].x else 0.0
  }

  /** The weighted sum of the four components. */
  function WeightedSum(p: Properties, w: ScoreWeights): real
    requires ScoresAreNumbers(p)
  {
    Component(p, MaxspeedKey) * w.maxspeedIntScore
    + Component(p, SeparationKey) * w.separationLevelScore
    + Component(p, StreetClassificationKey) * w.streetClassificationScore
    + Component(p, LanesKey) * w.lanesIntScore
  }

  /** `calculateCompositeScore`: the weighted average of the four
      components, or 0 when the weights do not add up to a positive
      total. */
  function CalculateCompositeScore(p: Properties, w: ScoreWeights): (r: real)
    requires ScoresAreNumbers(p)
    ensures TotalWeight(w) <= 0.0 ==> r == 0.0
    ensures TotalWeight(w) > 0.0 ==> r * TotalWeight(w) == WeightedSum(p, w)
  {
    if TotalWeight(w) > 0.0 then WeightedSum(p, w) / TotalWeight(w) else 0.0
  }

  /** A feature with its composite score recomputed and nothing else
      changed. */
  function WithComposite<G>(f: Feature<G>, w: ScoreWeights): (g: Feature<G>)
    requires ScoresAreNumbers(f.properties)
    ensures g.kind == f.kind && g.geometry == f.geometry
    ensures g.properties.Keys == f.properties.Keys + {CompositeKey}
    ensures g.properties[CompositeKey] == Num(CalculateCompositeScore(f.properties, w))
    ensures forall k :: k in f.properties && k != CompositeKey ==> g.properties[k] == f.properties[k]
  {
    f.(properties := f.properties[CompositeKey := Num(CalculateCompositeScore(f.properties, w))])
  }

  /** Every feature's properties hold scores. */
  predicate AllScoresAreNumbers<G>(features: seq<Feature<G>>) {
    forall i :: 0 <= i < |features| ==> ScoresAreNumbers(features[i].properties)
  }

  /** `recalculateAllScores`: a copy of the data set in which every
      feature's composite score is recomputed, in order; the input is a
      value, so it is not changed. */
  method RecalculateAllScores<G>(data: GeoJsonData<G>, w: ScoreWeights) returns (updated: GeoJsonData<G>)
    requires AllScoresAreNumbers(data.features)
    ensures updated.kind == data.kind
    ensures |updated.features| == |data.features|
    ensures forall i :: 0 <= i < |data.features| ==> updated.features[i] == WithComposite(data.features[i], w)
  {
    var features := data.features;
    for i := 0 to |features|
      invariant |features| == |data.features|
      invariant forall j :: 0 <= j < i ==> features[j] == WithComposite(data.features[j], w)
      invariant forall j :: i <= j < |features| ==> features[j] == data.features[j]
    {
      var feature := features[i];
      features := features[i := WithComposite(feature, w)];
    }
    updated := GeoJsonData(data.kind, features);
  }

  /** The composite scores that are defined, in order: an absent or
      `undefined` composite is dropped, `null` reads as 0. */
  function DefinedScores<G>(features: seq<Feature<G>>): (scores: seq<real>)
    requires AllScoresAreNumbers(features)
    ensures |scores| <= |features|
  {
    if |features| == 0 then []
    else
      var init := DefinedScores(features[..|features| - 1]);
      var p := features[|features| - 1].properties;
      if CompositeKey !in p || p[CompositeKey].Undefined? then init
      else init + [Component(p, CompositeKey)]
  }

  /** `getScoreStats`: the smallest, largest and mean defined composite
      score and how many there are; all zeros when there is none. */
  function GetScoreStats<G>(features: seq<Feature<G>>): (st: ScoreStats)
    requires AllScoresAreNumbers(features)
    ensures st.count == |DefinedScores(features)|
    ensures st.count == 0 ==> st == ScoreStats(0.0, 0.0, 0.0, 0)
    ensures st.count > 0 ==> st.min in DefinedScores(features) && st.max in DefinedScores(features)
    ensures forall x :: x in DefinedScores(features) ==> st.min <= x <= st.max
    ensures st.min <= st.avg <= st.max
  {
    Stats(DefinedScores(features))
  }

  /** The statistics of a list of scores: its count, its least and
      greatest score and its mean, which lies between them; all zeros for
      no score. */
  function Stats(scores: seq<real>): (st: ScoreStats)
    ensures st.count == |scores|
    ensures st.count == 0 ==> st == ScoreStats(0.0, 0.0, 0.0, 0)
    ensures st.count > 0 ==> st.min in scores && st.max in scores
    ensures forall x :: x in scores ==> st.min <= x <= st.max
    ensures st.count > 0 ==> st.avg * (st.count as real) == Seqs.Sum(scores)
    ensures st.min <= st.avg <= st.max
  {
    if |scores| == 0 then ScoreStats(0.0, 0.0, 0.0, 0)
    else
      var lo := Seqs.MinOf(scores).value;
      var hi := Seqs.MaxOf(scores).value;
      MeanBetween(scores, lo, hi);
      var avg := Seqs.Sum(scores) / |scores| as real;
      MeanTimesCount(Seqs.Sum(scores), |scores| as real);
      ScoreStats(lo, hi, avg, |scores|)
  }

  /** A mean times the count gives back the sum. */
  lemma {:induction false} MeanTimesCount(sum: real, n: real)
    requires n > 0.0
    ensures (sum / n) * n == sum
  {
  }

  /** The mean of a non-empty list lies between any bounds of its items. */
  lemma {:induction false} MeanBetween(scores: seq<real>, lo: real, hi: real)
    requires |scores| > 0
    requires forall i :: 0 <= i < |scores| ==> lo <= scores[i] <= hi
    ensures lo <= Seqs.Sum(scores) / |scores| as real <= hi
  {
    Seqs.SumBetween(scores, lo, hi);
    Seqs.DivideBetween(Seqs.Sum(scores), |scores| as real, lo, hi);
  }

  /** `percentagesToWeights`: percentages become fractions of their total,
      so the three add up to 1; a total that is not positive leaves each
      percentage divided by 100. Lanes always weigh 0. */
  function PercentagesToWeights(percentages: BikeData.ModelWeights): (w: ScoreWeights)
    ensures w.lanesIntScore == 0.0
    ensures var total := percentages.separationLevel + percentages.speed + percentages.busyness;
      && (total > 0.0 ==>
            && w.separationLevelScore == percentages.separationLevel / total
            && w.maxspeedIntScore == percentages.speed / total
            && w.streetClassificationScore == percentages.busyness / total
            && TotalWeight(w) == 1.0)
      && (total <= 0.0 ==>
            && w.separationLevelScore == percentages.separationLevel / 100.0
            && w.maxspeedIntScore == percentages.speed / 100.0
            && w.streetClassificationScore == percentages.busyness / 100.0)
  {
    var total := percentages.separationLevel + percentages.speed + percentages.busyness;
    var normalize := if total > 0.0 then 100.0 / total else 1.0;
    FractionsOfTotal(percentages.separationLevel, percentages.speed, percentages.busyness, normalize);
    ScoreWeights(
      (percentages.speed / 100.0) * normalize,
      (percentages.separationLevel / 100.0) * normalize,
      (percentages.busyness / 100.0) * normalize,
      0.0)
  }

  /** Percentages over 100, scaled by 100 over their total when it is
      positive, are their fractions of the total and add up to 1; scaled by
      1 they stay fractions of 100. */
  lemma {:induction false} FractionsOfTotal(a: real, b: real, c: real, normalize: real)
    requires normalize == if a + b + c > 0.0 then 100.0 / (a + b + c) else 1.0
    ensures a + b + c > 0.0 ==>
      && (a / 100.0) * normalize == a / (a + b + c)
      && (b / 100.0) * normalize == b / (a + b + c)
      && (c / 100.0) * normalize == c / (a + b + c)
      && (b / 100.0) * normalize + (a / 100.0) * normalize + (c / 100.0) * normalize + 0.0 == 1.0
    ensures a + b + c <= 0.0 ==>
      (a / 100.0) * normalize == a / 100.0 && (b / 100.0) * normalize == b / 100.0 && (c / 100.0) * normalize == c / 100.0
  {
    var total := a + b + c;
    if total > 0.0 {
      assert a / total + b / total + c / total == total / total;
    }
  }

  /** The default weights add up to 1, with lanes left out, and are the
      frontend's default percentages turned into fractions. */
  lemma {:induction false} DefaultWeightsNormalised()
    ensures TotalWeight(DefaultWeights) == 1.0 && DefaultWeights.lanesIntScore == 0.0
    ensures PercentagesToWeights(BikeData.DefaultWeights) == DefaultWeights
  {
  }

  /** Recomputing is idempotent: the composite does not read the composite
      it replaces. */
  lemma {:induction false} RecalculateIdempotent<G>(f: Feature<G>, w: ScoreWeights)
    requires ScoresAreNumbers(f.properties)
    ensures ScoresAreNumbers(WithComposite(f, w).properties)
    ensures WithComposite(WithComposite(f, w), w) == WithComposite(f, w)
  {
    var g := WithComposite(f, w);
    assert forall k :: k != CompositeKey ==> (k in g.properties <==> k in f.properties);
    assert Component(g.properties, MaxspeedKey) == Component(f.properties, MaxspeedKey);
    assert Component(g.properties, SeparationKey) == Component(f.properties, SeparationKey);
    assert Component(g.properties, StreetClassificationKey) == Component(f.properties, StreetClassificationKey);
    assert Component(g.properties, LanesKey) == Component(f.properties, LanesKey);
    SameComponents(g.properties, f.properties, w);
    assert g.properties[CompositeKey := Num(CalculateCompositeScore(g.properties, w))] == g.properties;
  }

  /** A missing component is not skipped: it weighs in as a 0. */
  lemma {:induction false} MissingCountsAsZero(p: Properties, w: ScoreWeights, key: string)
    requires ScoresAreNumbers(p)
    requires key in {MaxspeedKey, SeparationKey, StreetClassificationKey, LanesKey} && key !in p
    ensures ScoresAreNumbers(p[key := Num(0.0)])
    ensures CalculateCompositeScore(p, w) == CalculateCompositeScore(p[key := Num(0.0)], w)
  {
    var q := p[key := Num(0.0)];
    assert forall k :: k != key ==> (k in q <==> k in p) && (k in p ==> q[k] == p[k]);
    assert Component(q, MaxspeedKey) == Component(p, MaxspeedKey);
    assert Component(q, SeparationKey) == Component(p, SeparationKey);
    assert Component(q, StreetClassificationKey) == Component(p, StreetClassificationKey);
    assert Component(q, LanesKey) == Component(p, LanesKey);
    SameComponents(q, p, w);
  }

  /** The composite reads the properties only through the four
      components. */
  lemma {:induction false} SameComponents(p: Properties, q: Properties, w: ScoreWeights)
    requires ScoresAreNumbers(p) && ScoresAreNumbers(q)
    requires Component(p, MaxspeedKey) == Component(q, MaxspeedKey)
    requires Component(p, SeparationKey) == Component(q, SeparationKey)
    requires Component(p, StreetClassificationKey) == Component(q, StreetClassificationKey)
    requires Component(p, LanesKey) == Component(q, LanesKey)
    ensures CalculateCompositeScore(p, w) == CalculateCompositeScore(q, w)
  {
    assert WeightedSum(p, w) == WeightedSum(q, w);
  }

  /** Scaling every weight by the same positive factor leaves the composite
      unchanged. */
  lemma {:induction false} CompositeScaleInvariant(p: Properties, w: ScoreWeights, c: real)
    requires ScoresAreNumbers(p) && c > 0.0
    ensures CalculateCompositeScore(p, w) == CalculateCompositeScore(p, ScaledWeights(w, c))
  {
    var sum, total := WeightedSum(p, w), TotalWeight(w);
    ScaledSums(p, w, c);
    if total > 0.0 {
      DivideScaled(sum, total, c);
    }
  }

  /** Every weight multiplied by `c`. */
  function ScaledWeights(w: ScoreWeights, c: real): ScoreWeights {
    ScoreWeights(c * w.maxspeedIntScore, c * w.separationLevelScore,
                 c * w.streetClassificationScore, c * w.lanesIntScore)
  }

  /** Scaling the weights scales their total and the weighted sum alike. */
  lemma {:induction false} ScaledSums(p: Properties, w: ScoreWeights, c: real)
    requires ScoresAreNumbers(p)
    ensures TotalWeight(ScaledWeights(w, c)) == c * TotalWeight(w)
    ensures WeightedSum(p, ScaledWeights(w, c)) == c * WeightedSum(p, w)
  {
    var a, b, d, e := w.maxspeedIntScore, w.separationLevelScore, w.streetClassificationScore, w.lanesIntScore;
    var x, y, z, u := Component(p, MaxspeedKey), Component(p, SeparationKey),
                      Component(p, StreetClassificationKey), Component(p, LanesKey);
    assert c * a + c * b + c * d + c * e == c * (a + b + d + e);
    assert x * (c * a) + y * (c * b) + z * (c * d) + u * (c * e) == c * (x * a + y * b + z * d + u * e);
  }

  /** A quotient is unchanged when both sides are scaled by the same
      positive factor. */
  lemma {:induction false} DivideScaled(sum: real, total: real, c: real)
    requires total > 0.0 && c > 0.0
    ensures c * total > 0.0
    ensures (c * sum) / (c * total) == sum / total
  {
    var q := sum / total;
    assert q * total == sum;
    assert (c * total) * q == c * sum;
  }

  /** A weighted sum of four values with non-negative weights lies between
      the total weight times any bounds of the values. */
  lemma {:induction false} SumBetween4(a: real, b: real, c: real, d: real, x: real, y: real, z: real, u: real, lo: real, hi: real)
    requires a >= 0.0 && b >= 0.0 && c >= 0.0 && d >= 0.0
    requires lo <= x <= hi && lo <= y <= hi && lo <= z <= hi && lo <= u <= hi
    ensures (a + b + c + d) * lo <= x * a + y * b + z * c + u * d <= (a + b + c + d) * hi
  {
    var items := [ScoreCalculator.Weighted(x, a), ScoreCalculator.Weighted(y, b),
                  ScoreCalculator.Weighted(z, c), ScoreCalculator.Weighted(u, d)];
    ScoreCalculator.WeightedSumBetween(items, lo, hi);
    assert items[..3] == [items[0], items[1], items[2]];
    ScoreCalculator.ThreeEntries(items[0], items[1], items[2]);
  }

  /** With non-negative weights, the weighted sum of the four components
      lies between the total weight times any bounds of the components. */
  lemma {:induction false} WeightedSumWithin(p: Properties, w: ScoreWeights, lo: real, hi: real)
    requires ScoresAreNumbers(p)
    requires w.maxspeedIntScore >= 0.0 && w.separationLevelScore >= 0.0
    requires w.streetClassificationScore >= 0.0 && w.lanesIntScore >= 0.0
    requires lo <= Component(p, MaxspeedKey) <= hi && lo <= Component(p, SeparationKey) <= hi
    requires lo <= Component(p, StreetClassificationKey) <= hi && lo <= Component(p, LanesKey) <= hi
    ensures TotalWeight(w) * lo <= WeightedSum(p, w) <= TotalWeight(w) * hi
  {
    var a, b, c, d := w.maxspeedIntScore, w.separationLevelScore, w.streetClassificationScore, w.lanesIntScore;
    var x, y, z, u := Component(p, MaxspeedKey), Component(p, SeparationKey),
                      Component(p, StreetClassificationKey), Component(p, LanesKey);
    SumBetween4(a, b, c, d, x, y, z, u, lo, hi);
  }

  /** With non-negative weights of positive total, the composite lies
      between any bounds of the four components, missing ones read as 0. */
  lemma {:induction false} CompositeBetween(p: Properties, w: ScoreWeights, lo: real, hi: real)
    requires ScoresAreNumbers(p)
    requires w.maxspeedIntScore >= 0.0 && w.separationLevelScore >= 0.0
    requires w.streetClassificationScore >= 0.0 && w.lanesIntScore >= 0.0 && TotalWeight(w) > 0.0
    requires lo <= Component(p, MaxspeedKey) <= hi && lo <= Component(p, SeparationKey) <= hi
    requires lo <= Component(p, StreetClassificationKey) <= hi && lo <= Component(p, LanesKey) <= hi
    ensures lo <= CalculateCompositeScore(p, w) <= hi
  {
    WeightedSumWithin(p, w, lo, hi);
    Seqs.DivideBetween(WeightedSum(p, w), TotalWeight(w), lo, hi);
  }

  /** After recomputing, every feature has a defined composite, so the
      statistics count them all. */
  lemma {:induction false} StatsCountAll<G>(features: seq<Feature<G>>, w: ScoreWeights)
    requires AllScoresAreNumbers(features)
    ensures AllScoresAreNumbers(Recomputed(features, w))
    ensures GetScoreStats(Recomputed(features, w)).count == |features|
  {
    var r := Recomputed(features, w);
    forall i | 0 <= i < |r|
      ensures ScoresAreNumbers(r[i].properties)
      ensures CompositeKey in r[i].properties && r[i].properties[CompositeKey].Num?
    {
      assert r[i] == WithComposite(features[i], w);
    }
    AllDefined(r);
  }

  /** Features that all carry a numeric composite keep every composite. */
  lemma {:induction false} AllDefined<G>(features: seq<Feature<G>>)
    requires AllScoresAreNumbers(features)
    requires forall i :: 0 <= i < |features| ==>
      CompositeKey in features[i].properties && features[i].properties[CompositeKey].Num?
    ensures |DefinedScores(features)| == |features|
  {
    if |features| > 0 {
      var init := features[..|features| - 1];
      assert forall i :: 0 <= i < |init| ==> init[i] == features[i];
      AllDefined(init);
    }
  }

  /** The features `RecalculateAllScores` returns. */
  function Recomputed<G>(features: seq<Feature<G>>, w: ScoreWeights): (r: seq<Feature<G>>)
    requires AllScoresAreNumbers(features)
    ensures |r| == |features|
    ensures forall i :: 0 <= i < |features| ==> r[i] == WithComposite(features[i], w)
  {
    seq(|features|, i requires 0 <= i < |features| => WithComposite(features[i], w))
  }

  /** When all three factor scores are present and the percentages add up
      to a positive total, the two composites agree: scoreCalculator.ts
      with percentages and scoreManager.ts with the fractions they give. */
  lemma {:induction false} CompositesAgree(p: Properties, separation: real, streetClass: real, speed: real, percentages: BikeData.ModelWeights)
    requires ScoresAreNumbers(p)
    requires percentages.separationLevel + percentages.speed + percentages.busyness > 0.0
    requires Component(p, SeparationKey) == separation && Component(p, StreetClassificationKey) == streetClass
    requires Component(p, MaxspeedKey) == speed
    ensures ScoreCalculator.WeightedAverage(Some(separation), Some(streetClass), Some(speed), percentages)
      == Some(CalculateCompositeScore(p, PercentagesToWeights(percentages)))
  {
    var total := percentages.separationLevel + percentages.speed + percentages.busyness;
    ScoreCalculator.AllPresent(separation, streetClass, speed, percentages);
    ManagerWithPercentages(p, percentages);
    Normalised(separation * percentages.separationLevel + speed * percentages.speed + streetClass * percentages.busyness,
      separation, speed, streetClass, Component(p, LanesKey),
      percentages.separationLevel, percentages.speed, percentages.busyness, total);
    var sum := separation * percentages.separationLevel + speed * percentages.speed + streetClass * percentages.busyness;
    assert ScoreCalculator.WeightedAverage(Some(separation), Some(streetClass), Some(speed), percentages) == Some(sum / total);
    assert CalculateCompositeScore(p, PercentagesToWeights(percentages)) ==
      speed * (percentages.speed / total) + separation * (percentages.separationLevel / total)
      + streetClass * (percentages.busyness / total) + Component(p, LanesKey) * 0.0;
    assert sum / total == CalculateCompositeScore(p, PercentagesToWeights(percentages));
  }

  /** The composite with the fractions of positive percentages: each
      component weighed by its percentage over the total, lanes by 0. */
  lemma {:induction false} ManagerWithPercentages(p: Properties, percentages: BikeData.ModelWeights)
    requires ScoresAreNumbers(p)
    requires percentages.separationLevel + percentages.speed + percentages.busyness > 0.0
    ensures var total := percentages.separationLevel + percentages.speed + percentages.busyness;
      CalculateCompositeScore(p, PercentagesToWeights(percentages)) ==
        Component(p, MaxspeedKey) * (percentages.speed / total)
        + Component(p, SeparationKey) * (percentages.separationLevel / total)
        + Component(p, StreetClassificationKey) * (percentages.busyness / total)
        + Component(p, LanesKey) * 0.0
  {
    var w := PercentagesToWeights(percentages);
    assert TotalWeight(w) == 1.0;
  }

  /** Dividing each weight by the total, instead of the weighted sum by it,
      gives the same average. */
  lemma {:induction false} Normalised(sum: real, x: real, y: real, z: real, u: real, a: real, b: real, c: real, t: real)
    requires t == a + b + c && t > 0.0 && sum == x * a + y * b + z * c
    ensures sum / t == y * (b / t) + x * (a / t) + z * (c / t) + u * 0.0
  {
    assert x * (a / t) == (x * a) / t;
    assert y * (b / t) == (y * b) / t;
    assert z * (c / t) == (z * c) / t;
  }
}
