# Bike stress model in Dafny

A verified model of the scoring core of the bike-stress-model project. The
project rates every street segment of an OpenStreetMap bike network for
how stressful it is to cycle on.

The backend works on the edge table that osmnx returns. It:
- normalises the raw `maxspeed`, `lanes`, `highway`, `cycleway*` and
  `width` tags;
- turns each of the first four factors into a 0–10 score where HIGHER is
  better;
- averages the four scores into a `composite_score`;
- routes census blocks to a school over that score.

The frontend re-scores the same streets in the browser. It uses its own
0–5 tables, where LOWER is better, and a weighted average that the user
tunes with percentage sliders.

Modules, one per core source file:

| Dafny module | file | what it holds |
|---|---|---|
| `Util` | `util.py` | width parsing (feet, feet-and-inches, metres), `first_if_list` |
| `Speed` | `backend/src/stressmodel/speed.py` | `maxspeed` normalisation and its score ladder |
| `Lanes` | `backend/src/stressmodel/lanes.py` | `lanes` normalisation and its score ladder |
| `SeparationLevel` | `backend/src/stressmodel/separation_level.py` | cycleway gathering, buffer and track adjustments, cycleway override |
| `Classification` | `backend/src/stressmodel/classification.py` | road buckets and their scores |
| `Osm` | `backend/osm.py` | the edge table as a class: `process_network`, the prepare pipeline, the composite, the output slug |
| `Route` | `backend/src/route.py` | one route and the batch of routes to a school |
| `BikeData` | `frontend/src/data/bikeData.ts` | the frontend score tables and default percentages |
| `ScoreCalculator` | `frontend/src/utils/scoreCalculator.ts` | frontend factor scores and the weighted composite over present scores |
| `ScoreManager` | `frontend/src/utils/scoreManager.ts` | the four-score composite with missing scores as zero, batch recalculation, statistics, percentage conversion |

The shared helpers are:
- `PyValue`: the cells of an edge table (`None`, NaN, int, float, str, a list of these);
- `Js`: frontend property values;
- `Text`: `strip`, `replace`, `lower`, `split`, `sorted`, integer printing;
- `Decimal`: `float()` on decimal text, the `\d+(?:\.\d+)?` regular expression, `parseInt`;
- `Seqs`: `max` and `min` over lists, sums;
- `Ladder`: the threshold ladder shared by the speed and lane scorers;
- `Wrappers`: `Option` and `Result`.

Design choices:
- Python scalars are `PyValue.Scalar`, and a tag may be a list of them.
- A missing number is `Option<real>`: NaN and `None` both read as `None`.
- The edge table is a class with a `columns` sequence and one map per row.
  Each pandas column assignment becomes a method. The method states the new
  `columns` and `rows` exactly, as functions of the old ones.
- The per-row loops of the scorers' `run` functions, of `extract_width`,
  of the width columns, of the route hops and of the route batch, and the
  score manager's `forEach` are methods with a `for` loop. Each is proved
  equal, position by position, to the pure function of a single row.
  `first_if_list` is the exception: its `apply` is the function
  `Util.FirstIfList`, defined position by position.

Calls the model cannot see are parameters:
- `ox.nearest_nodes` is the `nearest` function;
- `ox.shortest_path` is the `shortest` function. It is trusted to return a
  path that starts and ends at the requested nodes and whose nodes exist
  (`Route.SoundOracle`).

Where the code and its comments disagree, the model follows the code:
- `speed.py` documents a 25 mph default, but `DEFAULT_SPEED_LIMIT` is
  `None`, so a missing speed scores the last rung (1).
- `lanes.py` likewise sets `DEFAULT_LANES` to `None`. A missing lane count
  stays missing and scores 0.

## Model

| member | source | states |
|---|---|---|
| Util.ParseSingleWidth | util.py:37-65 | `None`/NaN give no width (39-40); any width read is non-negative |
| Util.NoDigitNoWidth | util.py:43-65 | a text with no digit has no width, whichever branch it takes |
| Util.MetresFirstNumber | util.py:43-63 | a text without a foot mark reads as the first number the regex finds in the stripped text |
| Util.FeetPatternWhole | util.py:46-52 | the feet pattern reads `d'` followed by optional inches as (feet + inches/12) × 0.3048 |
| Util.FeetOnly | util.py:46-58 | `d'` alone reads as d × 0.3048 m |
| Util.FeetInchesPattern | util.py:48-52 | `d'e"` matched at the start reads as (d + e/12) × 0.3048 |
| Util.FeetInchesText | util.py:43-52 | a whole text `d'e"` parses to (d + e/12) × 0.3048 |
| Util.FeetAndInches | util.py:43-52 | `ParseSingleWidth(d + "'" + e + "\"")` is (d + e/12) × FEET_TO_M for all digit strings d, e |
| Util.ExtractWidth | util.py:12-34 | the loop computes `Widest`: the maximum of the parsed list items, `None` for a list where nothing parses, the single parse otherwise |
| Util.WidestOfList | util.py:21-27 | a list's width is missing iff no item parses; otherwise it is one item's width and no smaller than any parsed item |
| Util.FirstIfList | util.py:68-88 | a non-empty list becomes its first element; everything else is unchanged, position by position |
| Util.FirstIfListIdempotent | util.py:68-88 | after one pass no cell is a non-empty list, so a second pass changes nothing |
| Speed.ParseSpeed | backend/src/stressmodel/speed.py:30-38 | `None`/NaN/int give no speed; a float is itself; a text speed needs a digit |
| Speed.MaxspeedOfList | backend/src/stressmodel/speed.py:40-42 | a list's speed is missing iff no item parses, else it is the largest parsed item |
| Speed.SpeedWithUnit | backend/src/stressmodel/speed.py:34-35 | `"NN mph"` (any spaces before `mph`) reads as NN |
| Speed.SpeedNoDigit | backend/src/stressmodel/speed.py:34-37 | a text with no digit is a missing speed |
| Speed.SpeedMissingExamples | backend/src/stressmodel/speed.py:34-42 | `"abc mph"`, `""` and the empty list are missing speeds |
| Speed.SpeedScoreTable | backend/src/stressmodel/speed.py:9-16 | the score ladder: ≤20→10, ≤25→8, ≤30→5, ≤40→3, ≤50→2, else and missing→1 |
| Speed.SpeedScoreMonotone | backend/src/stressmodel/speed.py:47-54 | a faster street never scores higher |
| Speed.SpeedScoreRange | backend/src/stressmodel/speed.py:47-54 | scores are on the ladder; a missing speed scores the minimum |
| Speed.Run | backend/src/stressmodel/speed.py:57-83 | each row's speed is the normalised tag and its score is the ladder score of that speed |
| Lanes.ParseLanes | backend/src/stressmodel/lanes.py:30-40 | `None`/NaN give none; an int or float is itself; a text count needs a digit |
| Lanes.LanesOfList | backend/src/stressmodel/lanes.py:42-44 | a list's count is missing iff no item parses, else it is the largest |
| Lanes.LanesDigits | backend/src/stressmodel/lanes.py:36-37 | digits with trailing spaces read as their value |
| Lanes.LanesScoreTable | backend/src/stressmodel/lanes.py:8-14 | the score ladder: ≤2→8, ≤3→6, ≤4→4, ≤5→2, else→1, missing→0 |
| Lanes.LanesScoreMonotone | backend/src/stressmodel/lanes.py:52-61 | more lanes never score higher |
| Lanes.LanesScoreRange | backend/src/stressmodel/lanes.py:52-61 | scores are on the ladder; missing (0) is below any present count |
| Lanes.Run | backend/src/stressmodel/lanes.py:64-88 | each row's count is the normalised tag and its score the ladder score |
| Classification.ClassOf | backend/src/stressmodel/classification.py:10-47 | every highway type maps to one of the four buckets; unknown types to `medium-capacity` |
| Classification.BucketScores | backend/src/stressmodel/classification.py:39-44 | dedicated path 10, residential 7, medium-capacity 3, motorway 0, and these are all the buckets |
| Classification.StreetTypeOfList | backend/src/stressmodel/classification.py:63-75 | a list without strings gives `""`; otherwise the chosen type is one of its strings with the best score |
| Classification.StreetTypeFirstOnTies | backend/src/stressmodel/classification.py:69-75 | like Python's `max`, the chosen type is the first string of the list with the best score: every earlier string scores strictly less |
| Classification.StringsPosition | backend/src/stressmodel/classification.py:65 | the k-th string kept by the filter sits in the list after exactly the first k strings |
| Classification.GetStreetClassification | backend/src/stressmodel/classification.py:83-87 | a missing type stays missing; a present one always lands in a bucket |
| Classification.UnknownType | backend/src/stressmodel/classification.py:83-96 | an unlisted type is `medium-capacity` and scores 3 |
| Classification.GetStreetScore | backend/src/stressmodel/classification.py:90-96 | scores are 0, 3, 7 or 10; a missing class scores 0 |
| Classification.Run | backend/src/stressmodel/classification.py:99-122 | each row's class is the classification of its extracted type and its score that class's score, always a bucket and a valid score |
| SeparationLevel.Rank | backend/src/stressmodel/separation_level.py:8-16 | the ranking of a level, 0 for anything unranked |
| SeparationLevel.CombineCycleways | backend/src/stressmodel/separation_level.py:19-44 | the loop gathers the four cycleway columns' values in column order |
| SeparationLevel.CandidatesInOrder | backend/src/stressmodel/separation_level.py:19-44 | the candidates are the four columns' contributions concatenated, in order |
| SeparationLevel.ScalarContribution | backend/src/stressmodel/separation_level.py:30-42 | a single missing or `"no"` value contributes `"none"`; anything else itself |
| SeparationLevel.PickBest | backend/src/stressmodel/separation_level.py:47-48 | no candidate gives `None`; otherwise a candidate of maximal rank |
| SeparationLevel.PickBestFirst | backend/src/stressmodel/separation_level.py:47-48 | of equally ranked candidates, `max` picks the first |
| SeparationLevel.BufferUpgrades | backend/src/stressmodel/separation_level.py:51-68 | a buffer only turns `lane` into `lane_buffered`; no buffer changes nothing; the best level never gets worse |
| SeparationLevel.TrackDowngrades | backend/src/stressmodel/separation_level.py:71-81 | only `track` may become `lane_buffered`; without a track nothing changes; the best level never gets better |
| SeparationLevel.BestScoreMonotone | backend/src/stressmodel/separation_level.py:47-48 | raising candidates' ranks never lowers the best score |
| SeparationLevel.LevelOf | backend/src/stressmodel/separation_level.py:84-132 | computes a row's level: cycleway override, else the best adjusted candidate |
| SeparationLevel.OverrideSeparate | backend/src/stressmodel/separation_level.py:129-132 | a cycleway row is `separate` and scores 10, the top score; others take the best adjusted candidate |
| SeparationLevel.NoInfrastructure | backend/src/stressmodel/separation_level.py:19-135 | a non-cycleway row whose four cycleway tags are missing or `"no"` is `none` and scores 0 |
| SeparationLevel.Run | backend/src/stressmodel/separation_level.py:84-138 | each row's level is its computed level and its score that level's ranking |
| Osm.WidthFloat | backend/osm.py:57-60 | the parsed width, or 10 m when missing; never negative |
| Osm.WidthCells | backend/osm.py:57-63 | one row's `width_float` and `width_half` cells |
| Osm.WidthsOf | backend/osm.py:57-63 | the loop over a width column yields each cell's width (10 when missing) and half width, position by position |
| Osm.EdgeTable.WidthColumns | backend/osm.py:57-63 | each row's width (10 when missing) and half width, read from the table's `width` column |
| Osm.ProcessedRowWidth | backend/osm.py:57-63 | a processed row holds its width, 10 when missing, and half of it; its other kept cells are unchanged |
| Osm.EdgeTable.Drop | backend/osm.py:52-54 | fails and changes nothing when a dropped column is absent; otherwise removes exactly those columns from every row |
| Osm.EdgeTable.SortColumns | backend/osm.py:66 | the columns are put in sorted order; rows are unchanged |
| Osm.EdgeTable.AddWidths | backend/osm.py:57-63 | adds `width_float` and `width_half` to every row |
| Osm.EdgeTable.ProcessNetwork | backend/osm.py:50-68 | succeeds iff the dropped columns and `width` exist; then rows are processed rows and columns the sorted processed set; on failure the table is unchanged |
| Osm.ProcessedColumnsShape | backend/osm.py:50-68 | processed columns are sorted and are the original ones minus the dropped, plus the two width columns |
| Osm.ScoredTagsKept | backend/osm.py:52-54 | `process_network` drops none of the tags the scorers read |
| Osm.ProcessedKeepsScoringColumns | backend/osm.py:50-96 | a table fit for `prepare` still has every scoring column after processing |
| Osm.SpeedStage | backend/osm.py:80 | the speed step adds exactly `maxspeed_int` and its score |
| Osm.SeparationStage | backend/osm.py:84-86 | the separation step adds exactly the level and its score |
| Osm.ClassificationStage | backend/osm.py:90-92 | the classification step adds exactly the class and its score |
| Osm.LanesStage | backend/osm.py:96 | the lanes step adds exactly `lanes_int` and its score |
| Osm.CopyStage | backend/osm.py:102-104 | `street_0`, `maxspeed_0` and `lanes_0` copy the original tags |
| Osm.SpeedStageKeeps | backend/osm.py:80 | the speed step leaves every other cell alone |
| Osm.SeparationStageKeeps | backend/osm.py:84-86 | the separation step leaves every other cell alone |
| Osm.ClassificationStageKeeps | backend/osm.py:90-92 | the classification step leaves every other cell alone |
| Osm.LanesStageKeeps | backend/osm.py:96 | the lanes step leaves every other cell alone |
| Osm.CopyStageKeeps | backend/osm.py:102-104 | the copy step leaves every other cell alone |
| Osm.StagedRow | backend/osm.py:80-104 | after all scoring steps, every cell not written by a step is unchanged |
| Osm.StagedSpeedScore | backend/osm.py:80 | the staged speed score is the speed scorer on the row's `maxspeed` |
| Osm.SpeedStageLevel | backend/osm.py:80-86 | the speed stage, which runs first, does not change the separation level `run` computes on the row |
| Osm.StagedSeparationScore | backend/osm.py:84-86 | the staged separation score is the ranking of the level of the row's own tags, so one of the ranking values |
| SeparationLevel.LevelSameTags | backend/src/stressmodel/separation_level.py:21-135 | the level reads only the four cycleway columns, `highway`, `bicycle`, `cycleway:buffer` and `cycleway:separation` |
| Osm.StagedClassificationScore | backend/osm.py:90-92 | the staged classification score is the classifier on the row's `highway` |
| Osm.StagedLanesScore | backend/osm.py:96 | the staged lanes score is the lanes scorer on the row's `lanes` |
| Osm.OriginalTagsNotStaged | backend/osm.py:102-104 | the copied tags are not overwritten by any scoring step |
| Osm.StageColumnsDistinct | backend/osm.py:80-104 | the four score columns are distinct from each other and from every other written column |
| Osm.EdgeTable.ScoreSpeed | backend/osm.py:80 | every row goes through the speed step; two columns are added |
| Osm.EdgeTable.ScoreSeparation | backend/osm.py:84-86 | every row goes through the separation step |
| Osm.EdgeTable.ScoreClassification | backend/osm.py:90-92 | every row goes through the classification step |
| Osm.EdgeTable.ScoreLanes | backend/osm.py:96 | every row goes through the lanes step |
| Osm.EdgeTable.CopyOriginals | backend/osm.py:102-104 | every row gets the three copies |
| Osm.EdgeTable.ScoreAll | backend/osm.py:80-104 | every row becomes its staged row; columns gain exactly the staged ones |
| Osm.CompositeOfScores | backend/osm.py:112-118 | the composite is the mean of the four scores |
| Osm.CompositeMissingIsZero | backend/osm.py:118 | a missing (NaN/None) score counts as 0 in the row sum |
| Osm.CompositeMonotone | backend/osm.py:112-118 | raising one score by d raises the composite by exactly d/4 |
| Osm.StagedComposite | backend/osm.py:80-118 | a fully scored row's composite lies between 0.25 and 9.5 |
| Osm.EdgeTable.AddComposite | backend/osm.py:112-118 | every row gets `composite_score` = its composite |
| Osm.PreparedComposite | backend/osm.py:71-118 | a prepared row's `composite_score` is the composite of its scores, between 0.25 and 9.5 |
| Osm.CompositeIsNew | backend/osm.py:107-118 | `composite_score` is not written by any earlier step |
| Osm.PreparedColumnsShape | backend/osm.py:71-118 | prepared columns are the kept originals plus every added column; `composite_score` comes last after the sorted rest |
| Osm.EdgeTable.PrepareChecked | backend/osm.py:76-118 | a table with all required columns becomes the prepared rows and columns |
| Osm.EdgeTable.Prepare | backend/osm.py:71-120 | succeeds iff every required column is present; on failure (a `KeyError`) the table is unchanged |
| Osm.Slug | backend/osm.py:124 | the slug is the text before the first comma, character by character: a space becomes `_`, anything else is lower-cased; so it has no comma, space or capital |
| Osm.SlugFirstPart | backend/osm.py:124 | only the text before the first comma matters |
| Osm.SlugIdempotent | backend/osm.py:124 | slugging a slug changes nothing |
| Osm.BeforeFirstComma | backend/osm.py:124 | `split(",")[0]` is the part before the first comma |
| Route.XYOf | backend/src/route.py:28-36 | a point and an (x, y) tuple give their coordinates |
| Route.Hops | backend/src/route.py:49 | consecutive pairs of the path; one fewer than its nodes |
| Route.HopWeight | backend/src/route.py:52-58 | a missing edge or attribute weighs 0; otherwise the first parallel edge's attribute |
| Route.Average | backend/src/route.py:60 | `None` exactly for no hops |
| Route.AverageBetween | backend/src/route.py:60 | the average lies between bounds of the weights |
| Route.Polyline | backend/src/route.py:63-64 | one coordinate per path node, in order |
| Route.GetRoute | backend/src/route.py:9-74 | the loop over the hops returns exactly the route `RouteOf` describes, whose shape `RouteShape` states |
| Route.RouteShape | backend/src/route.py:39-64 | fails with "No route found" iff no path, with shapely's single-point error iff the path is one node; else the line runs from the start's nearest node to the end's and the average is present |
| Route.RouteWeightBetween | backend/src/route.py:49-60 | the average weight stays within the bounds of the edge attribute, 0 included |
| Route.Routes | backend/src/route.py:99-114 | at most one route per block |
| Route.Errors | backend/src/route.py:104-107 | at most one error per block |
| Route.OneOutcomePerBlock | backend/src/route.py:99-114 | every block yields exactly one route or one error |
| Route.RoutesTagged | backend/src/route.py:110-114 | each route is a block's route, tagged with that block's id and the school's name and id |
| Route.ErrorsNamed | backend/src/route.py:104-107 | each error line names the index of a block whose route failed, with the no-route or the single-point message |
| Route.NoRoutesIffAllFail | backend/src/route.py:99-118 | no routes exactly when every block fails |
| Route.Batch | backend/src/route.py:77-119 | fails (concat of nothing) iff no route; otherwise returns the routes and errors |
| BikeData.SeparationScoresRise | frontend/src/data/bikeData.ts:26-62 | separation scores rise strictly from `separate` to `none` |
| BikeData.ClassificationScoresRise | frontend/src/data/bikeData.ts:70-91 | classification scores rise strictly from dedicated paths to motorways |
| BikeData.SpeedScoresRise | frontend/src/data/bikeData.ts:99-130 | speed scores rise strictly with speed |
| BikeData.OrdersComplete | frontend/src/data/bikeData.ts:26-130 | the orders list exactly each table's names |
| BikeData.TablesOnScale | frontend/src/data/bikeData.ts:26-130 | all scores lie on the 0–5 scale |
| BikeData.DefaultWeightsSum | frontend/src/data/bikeData.ts:140-144 | the default percentages add to 100 |
| BikeData.SeparationMatchesBackend | frontend/src/data/bikeData.ts:26-62 | the frontend names the backend's separation levels and ranks them in reverse |
| BikeData.ClassificationMatchesBackend | frontend/src/data/bikeData.ts:70-91 | the frontend names the backend's buckets and ranks them in reverse |
| ScoreCalculator.CategoryScore | frontend/src/utils/scoreCalculator.ts:7-51 | missing, empty or unknown categories score null; others their table score |
| ScoreCalculator.SeparationScore | frontend/src/utils/scoreCalculator.ts:7-26 | null iff the level is missing, empty or unknown; else its table score |
| ScoreCalculator.StreetClassificationScore | frontend/src/utils/scoreCalculator.ts:32-51 | null iff the class is missing, empty or unknown; else its table score |
| ScoreCalculator.SpeedToCategory | frontend/src/utils/scoreCalculator.ts:64-71 | every speed maps to a speed category |
| ScoreCalculator.SpeedValue | frontend/src/utils/scoreCalculator.ts:74-84 | undefined/null/NaN give no speed; numbers are themselves; strings go through `parseInt` |
| ScoreCalculator.SpeedOfText | frontend/src/utils/scoreCalculator.ts:79 | `"25 mph"`-like text reads its leading digits |
| ScoreCalculator.SpeedBehindSpace | frontend/src/utils/scoreCalculator.ts:79-84 | `parseInt` skips a leading no-break space but not a U+001C separator, which leaves no speed score |
| Decimal.ParseIntSkipsNoBreakSpace | frontend/src/utils/scoreCalculator.ts:79 | `parseInt("\u00A025")` is 25 |
| Decimal.ParseIntStopsAtSeparator | frontend/src/utils/scoreCalculator.ts:79 | `parseInt("\u001C25")` is `NaN` |
| ScoreCalculator.SpeedScore | frontend/src/utils/scoreCalculator.ts:57-95 | a score exists iff the speed reads and its category is in the table; it is that category's score |
| ScoreCalculator.SpeedScoreMonotone | frontend/src/utils/scoreCalculator.ts:64-94 | a faster street never scores better (lower) |
| ScoreCalculator.SpeedIndex | frontend/src/utils/scoreCalculator.ts:64-71 | the category lies in the slowest-first order |
| ScoreCalculator.DefaultSeparationScore | frontend/src/utils/scoreCalculator.ts:7-26 | with the default tables, a separation score exists iff the level is a backend level, and lies in 0–5 |
| ScoreCalculator.DefaultStreetClassificationScore | frontend/src/utils/scoreCalculator.ts:32-51 | with the default tables, a class score exists iff the class is a backend bucket, and lies in 0–5 |
| ScoreCalculator.DefaultSpeedScore | frontend/src/utils/scoreCalculator.ts:57-95 | with the default tables, a speed score exists iff the speed reads, and lies in 0–5 |
| ScoreCalculator.Available | frontend/src/utils/scoreCalculator.ts:109-119 | no entries iff every score is missing; at most three |
| ScoreCalculator.WeightedAverage | frontend/src/utils/scoreCalculator.ts:102-137 | null iff every score is missing or the present weights sum to 0 |
| ScoreCalculator.CalculateCompositeScore | frontend/src/utils/scoreCalculator.ts:102-137 | computes the weighted average of the present scores |
| ScoreCalculator.ThreeEntries | frontend/src/utils/scoreCalculator.ts:127-134 | the reductions over three entries, written out |
| ScoreCalculator.AllPresent | frontend/src/utils/scoreCalculator.ts:102-137 | all three present: the composite is the weighted mean of the three |
| ScoreCalculator.MissingWeightIgnored | frontend/src/utils/scoreCalculator.ts:109-136 | a missing score's weight has no effect on the composite |
| ScoreCalculator.OnlyScorePresent | frontend/src/utils/scoreCalculator.ts:109-136 | a lone present score with non-zero weight is the composite |
| ScoreCalculator.WeightedSumBetween | frontend/src/utils/scoreCalculator.ts:127-134 | the weighted sum lies between the total weight times the bounds |
| ScoreCalculator.CompositeBetween | frontend/src/utils/scoreCalculator.ts:102-137 | with non-negative weights the composite lies between bounds of the present scores |
| ScoreCalculator.Calculator.CalculateAllScores | frontend/src/utils/scoreCalculator.ts:142-194 | returns the three factor scores and their composite; the debug counter rises only up to 5 |
| ScoreManager.Component | frontend/src/utils/scoreManager.ts:56-61 | a missing score counts as 0 |
| ScoreManager.CalculateCompositeScore | frontend/src/utils/scoreManager.ts:52-80 | 0 when the weights sum to ≤ 0; otherwise composite × total weight = weighted sum |
| ScoreManager.MissingCountsAsZero | frontend/src/utils/scoreManager.ts:56-61 | a missing score gives the same composite as a score of 0 |
| ScoreManager.CompositeScaleInvariant | frontend/src/utils/scoreManager.ts:64-79 | scaling all weights by a positive factor does not change the composite |
| ScoreManager.CompositeBetween | frontend/src/utils/scoreManager.ts:52-80 | with non-negative weights of positive total, the composite lies between bounds of the four scores |
| ScoreManager.WithComposite | frontend/src/utils/scoreManager.ts:93-95 | a feature gains `composite_score`; everything else is unchanged |
| ScoreManager.RecalculateAllScores | frontend/src/utils/scoreManager.ts:85-98 | every feature gets its composite, in order, and the collection kind is kept |
| ScoreManager.Recomputed | frontend/src/utils/scoreManager.ts:93-95 | every feature gets its composite |
| ScoreManager.RecalculateIdempotent | frontend/src/utils/scoreManager.ts:85-98 | recalculating twice with the same weights changes nothing more |
| ScoreManager.DefinedScores | frontend/src/utils/scoreManager.ts:104-106 | the defined composites, no more of them than features |
| ScoreManager.Stats | frontend/src/utils/scoreManager.ts:108-117 | all zeros when empty; otherwise min and max are scores bounding all, and the mean lies between them and times the count gives the sum |
| ScoreManager.GetScoreStats | frontend/src/utils/scoreManager.ts:103-118 | the statistics of the defined composites |
| ScoreManager.MeanBetween | frontend/src/utils/scoreManager.ts:115 | the mean lies between bounds of the scores |
| ScoreManager.StatsCountAll | frontend/src/utils/scoreManager.ts:85-118 | after recalculation every feature's composite is counted |
| ScoreManager.PercentagesToWeights | frontend/src/utils/scoreManager.ts:127-143 | positive total: each weight is its share of the total and they sum to 1; otherwise percentages / 100; lanes weight 0 |
| ScoreManager.FractionsOfTotal | frontend/src/utils/scoreManager.ts:132-142 | (p/100) × (100/total) is p/total, and the three shares sum to 1 |
| ScoreManager.DefaultWeightsNormalised | frontend/src/utils/scoreManager.ts:41-46 | the default weights sum to 1 and are the default percentages converted |
| ScoreManager.ManagerWithPercentages | frontend/src/utils/scoreManager.ts:52-143 | with converted percentages the composite is each score times its share |
| ScoreManager.CompositesAgree | frontend/src/utils/scoreManager.ts:52-143 | with all three scores present, the calculator's composite equals the manager's composite with converted percentages |

## Left out

- Network I/O, file output and console printing are left out. This covers `get_network`, `save_data_for_place`, `main`, the `print` progress lines and the `console.log` debug output. `calculationCount` is modelled because it gates the logging.
- `ox.nearest_nodes` and `ox.shortest_path` are oracle parameters. A shortest path is trusted to join the requested nodes through existing nodes. Minimality of the path is not modelled.
- Route.GetRoute: the single-point failure carries shapely 1.x's message. shapely 2 raises a GEOS error with other text; either way the batch records it as an "Error on index i" line.
- Route.Batch: two per-block failures are modelled: the "no route" exception, and shapely's rejection of the one-point line when a block and the school snap to the same node. Each becomes an "Error on index i" line, and `OneOutcomePerBlock`, `Errors` and `NoRoutesIffAllFail` count it as a failure. Other exceptions, such as a missing node, are outside the oracle contract.
- The CRS (`use_crs`) and the GeoDataFrame wrapping are left out. Only the geometry and the average weight are kept.
- Floating-point arithmetic is modelled by exact reals. This covers `FEET_TO_M`, divisions and sums. NaN is a separate case of each value type, and infinities are left out.
- Decimal.ParseFloat covers Python's `float()` only for `[+-]?digits[.digits]`. Exponents, `inf`, `nan` and underscores are not modelled.
- Decimal.ParseIntPrefix covers JavaScript's `parseInt` only for decimal text. `0x` prefixes are not modelled.
- Util.ParseSingleWidth reads a non-string number through `str()` as its magnitude. `str()` of a very large or very small float uses scientific notation, which is not modelled.
- Decimal (and so Util.ParseSingleWidth, Speed.ParseSpeed and Lanes.ParseLanes): a digit is an ASCII digit. Python's `re` `\d` and `float()` also accept other Unicode decimal digits, such as Arabic-Indic ones; those are not modelled.
- Text.Lower and Text.IsSpace cover ASCII only. Unicode case folding and Unicode whitespace in Python's `str.lower` and `str.isspace` are not modelled. JavaScript's `parseInt` trims its own whitespace set (`Decimal.IsJsSpace`), which is modelled in full.
- Lanes.Run: the source casts the counts to nullable `Int64` before scoring (lanes.py:78). That cast raises on a fractional count such as `"2.5"`. A missing count becomes `pd.NA`, where `np.isnan` gives NA and the `if` in `get_lanes_score` raises (lanes.py:56). So the source raises on such a column, while the model scores it: a fractional count by the ladder, a missing one as 0. Counts stay reals.
- Speed.Run: with `DEFAULT_SPEED_LIMIT` set to `None` the source skips its default-filling branch, and so does the model. The `Int64` cast in that branch is not modelled.
- Osm.EdgeTable.Prepare: it states for each stage which cells it writes and which it keeps. A single "every original tag survives prepare" statement is not proved as one lemma; it follows from StagedRow and the per-stage lemmas.
- Nested lists inside a tag are not modelled. A list holds scalars only.
- pandas copies rather than aliases when a column is assigned. The model works on values, so aliasing does not arise.
- ScoreManager: score fields holding strings, NaN or objects are excluded by `ScoresAreNumbers`. JavaScript would coerce them in arithmetic.
- `Js.JsValue` has no booleans, objects or arrays.
- The category images, notes and links of `bikeData.ts` are left out. They are display text.
- The frontend deep copy (`JSON.parse(JSON.stringify(...))`) is modelled as working on values. Loss of non-JSON values in the copy is left out.
- `extract_width`, `extract_maxspeed` and `extract_lanes` take NaN from `pd.isna`. Other pandas missing markers (`pd.NaT`, `pd.NA`) are folded into `None`.
