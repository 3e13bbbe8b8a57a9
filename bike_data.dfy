/** frontend/src/data/bikeData.ts: the score tables the map re-scores streets
    with, on the frontend's own scale: 0 to 5, LOWER is better, the reverse
    of the backend's 0 to 10 scale. Only the scores of the categories are
    modelled; their pictures, notes and links are display text. */
module BikeData {
  import SeparationLevel
  import Classification

  /** `BikeInfrastructureModel`: the category scores of the three factors. */
  datatype Model = Model(
    separationLevel: map<string, real>,
    streetClassification: map<string, real>,
    speedLimit: map<string, real>)

  /** `ModelWeights`: the weight of each factor, as percentages. */
  datatype ModelWeights = ModelWeights(separationLevel: real, speed: real, busyness: real)

  /** `separation_level.categories`, from fully separated (0) to none (5). */
  const SeparationCategories: map<string, real> := map[
    "separate" := 0.0,
    "track" := 1.0,
    "lane_buffered" := 2.0,
    "lane" := 3.0,
    "share_busway" := 4.0,
    "shared_lane" := 4.5,
    "none" := 5.0
  ]

  /** `street_classification.categories`, from dedicated paths (0) to
      motorways (5). */
  const StreetClassificationCategories: map<string, real> := map[
    "dedicated_path" := 0.0,
    "residential" := 2.0,
    "medium-capacity" := 4.0,
    "motorway" := 5.0
  ]

  /** `speed_limit.categories`, from 20 mph or less (0) to over 50 mph (5). */
  const SpeedLimitCategories: map<string, real> := map[
    "20_mph_or_less" := 0.0,
    "25_mph" := 1.0,
    "30_mph" := 3.0,
    "40_mph" := 4.0,
    "50_mph" := 4.5,
    "over_50_mph" := 5.0
  ]

  /** `BIKE_INFRASTRUCTURE_DATA`. */
  const BikeInfrastructureData: Model :=
    Model(SeparationCategories, StreetClassificationCategories, SpeedLimitCategories)

  /** `DEFAULT_WEIGHTS`: separation 50 %, speed 25 %, busyness 25 %. */
  const DefaultWeights: ModelWeights := ModelWeights(50.0, 25.0, 25.0)

  /** The separation levels, best first. */
  const SeparationOrder: seq<string> :=
    ["separate", "track", "lane_buffered", "lane", "share_busway", "shared_lane", "none"]

  /** The speed categories, slowest first. */
  const SpeedOrder: seq<string> :=
    ["20_mph_or_less", "25_mph", "30_mph", "40_mph", "50_mph", "over_50_mph"]

  /** The road buckets, quietest first. */
  const ClassificationOrder: seq<string> := ["dedicated_path", "residential", "medium-capacity", "motorway"]

  /** Each name of `order` has a score, and each scores below the next. */
  predicate StepsRise(table: map<string, real>, order: seq<string>) {
    && (forall i :: 0 <= i < |order| ==> order[i] in table)
    && (forall i :: 0 <= i < |order| - 1 ==> table[order[i]] < table[order[i + 1]])
  }

  /** Scores that rise step by step rise from any name to any later one. */
  lemma {:induction false} StepsRisePair(table: map<string, real>, order: seq<string>, i: nat, j: nat)
    requires StepsRise(table, order) && i < j < |order|
    ensures table[order[i]] < table[order[j]]
    decreases j - i
  {
    if i + 1 < j {
      StepsRisePair(table, order, i + 1, j);
    }
  }

  lemma {:induction false} StepsRiseAll(table: map<string, real>, order: seq<string>)
    requires StepsRise(table, order)
    ensures forall i, j :: 0 <= i < j < |order| ==> table[order[i]] < table[order[j]]
  {
    forall i, j | 0 <= i < j < |order|
      ensures table[order[i]] < table[order[j]]
    {
      StepsRisePair(table, order, i, j);
    }
  }

  /** Every score of a table lies on the 0 to 5 scale. */
  predicate OnScale(table: map<string, real>) {
    forall k :: k in table ==> 0.0 <= table[k] <= 5.0
  }

  /** The separation scores rise strictly from "separate" to "none". */
  lemma {:induction false} SeparationScoresRise()
    ensures forall i, j :: 0 <= i < j < |SeparationOrder| ==>
      SeparationCategories[SeparationOrder[i]] < SeparationCategories[SeparationOrder[j]]
  {
    assert StepsRise(SeparationCategories, SeparationOrder);
    StepsRiseAll(SeparationCategories, SeparationOrder);
  }

  /** The street classification scores rise strictly from dedicated paths to
      motorways. */
  lemma {:induction false} ClassificationScoresRise()
    ensures forall i, j :: 0 <= i < j < |ClassificationOrder| ==>
      StreetClassificationCategories[ClassificationOrder[i]] < StreetClassificationCategories[ClassificationOrder[j]]
  {
    assert StepsRise(StreetClassificationCategories, ClassificationOrder);
    StepsRiseAll(StreetClassificationCategories, ClassificationOrder);
  }

  /** The speed scores rise strictly with the speed. */
  lemma {:induction false} SpeedScoresRise()
    ensures forall i, j :: 0 <= i < j < |SpeedOrder| ==>
      SpeedLimitCategories[SpeedOrder[i]] < SpeedLimitCategories[SpeedOrder[j]]
  {
    assert StepsRise(SpeedLimitCategories, SpeedOrder);
    StepsRiseAll(SpeedLimitCategories, SpeedOrder);
  }

  /** Each order lists exactly the names of its table. */
  lemma {:induction false} OrdersComplete()
    ensures SeparationCategories.Keys == set k | k in SeparationOrder
    ensures StreetClassificationCategories.Keys == set k | k in ClassificationOrder
    ensures SpeedLimitCategories.Keys == set k | k in SpeedOrder
  {
  }

  /** Every score of the three tables lies on the 0 to 5 scale. */
  lemma {:induction false} TablesOnScale()
    ensures OnScale(SeparationCategories)
    ensures OnScale(StreetClassificationCategories)
    ensures OnScale(SpeedLimitCategories)
  {
  }

  /** The default weights add up to 100 %. */
  lemma {:induction false} DefaultWeightsSum()
    ensures DefaultWeights.separationLevel + DefaultWeights.speed + DefaultWeights.busyness == 100.0
  {
  }

  /** The frontend names exactly the separation levels the backend computes,
      and ranks them the other way round: a level scores better (lower) here
      exactly when it scores better (higher) in the backend. */
  lemma {:induction false} SeparationMatchesBackend(a: string, b: string)
    requires a in SeparationCategories && b in SeparationCategories
    ensures SeparationCategories.Keys == SeparationLevel.Ranking.Keys
    ensures SeparationCategories[a] < SeparationCategories[b] <==>
      SeparationLevel.Ranking[a] > SeparationLevel.Ranking[b]
  {
  }

  /** The frontend names exactly the backend's road buckets, and ranks them
      the other way round. */
  lemma {:induction false} ClassificationMatchesBackend(a: string, b: string)
    requires a in StreetClassificationCategories && b in StreetClassificationCategories
    ensures StreetClassificationCategories.Keys == Classification.Buckets
    ensures StreetClassificationCategories[a] < StreetClassificationCategories[b] <==>
      Classification.ClassificationScores[a] > Classification.ClassificationScores[b]
  {
  }
}
