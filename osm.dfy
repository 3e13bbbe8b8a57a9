/** backend/osm.py: the edge table of a place's bike network is cleaned
    (unused tags dropped, the width parsed), scored by the four stress
    factors in turn, and given a composite score. The table is a class whose
    methods assign columns in place, as pandas does. */
module Osm {
  import opened Wrappers
  import opened PyValue
  import Text
  import Util
  import Speed
  import SeparationLevel
  import Classification
  import Lanes

  /** The tags `process_network` drops. */
  const DroppedSet: set<string> := {"ref", "service", "access", "bridge", "tunnel", "junction"}

  /** The width, in metres, given to an edge whose width is missing. */
  const DefaultWidth: real := 10.0

  /** The four factor scores the composite averages. */
  const ScoreColumns: seq<string> :=
    ["maxspeed_int_score", "separation_level_score", "street_classification_score", "lanes_int_score"]

  function ColumnSet(columns: seq<string>): set<string> {
    set c | c in columns
  }

  /** The column order after assigning `name`: a new column is appended,
      an existing one keeps its place. */
  function WithColumn(columns: seq<string>, name: string): (r: seq<string>)
    ensures forall c :: c in r <==> c in columns || c == name
    ensures ColumnSet(r) == ColumnSet(columns) + {name}
  {
    if name in columns then columns else columns + [name]
  }

  /** `columns` without any of `names`, in order. */
  function Without(columns: seq<string>, names: set<string>): (r: seq<string>)
    ensures forall c :: c in r <==> c in columns && c !in names
    ensures ColumnSet(r) == ColumnSet(columns) - names
  {
    if |columns| == 0 then []
    else
      var init := Without(columns[..|columns| - 1], names);
      var last := columns[|columns| - 1];
      assert columns == columns[..|columns| - 1] + [last];
      if last in names then init else init + [last]
  }

  /** Every row with `name` set to the matching value. */
  function Assigned(rows: seq<Row>, name: string, values: seq<Value>): (r: seq<Row>)
    requires |values| == |rows|
    ensures |r| == |rows|
    ensures forall i :: 0 <= i < |rows| ==> r[i] == rows[i][name := values[i]]
  {
    seq(|rows|, i requires 0 <= i < |rows| => rows[i][name := values[i]])
  }

  /** A number as a float cell. */
  function FloatCell(x: real): Value {
    One(Float(x))
  }

  /** A column of floats. */
  function FloatCells(xs: seq<real>): (r: seq<Value>)
    ensures |r| == |xs| && forall i :: 0 <= i < |xs| ==> r[i] == FloatCell(xs[i])
  {
    seq(|xs|, i requires 0 <= i < |xs| => FloatCell(xs[i]))
  }

  /** A column of numbers that may be missing (NaN). */
  function NumberCells(xs: seq<Option<real>>): (r: seq<Value>)
    ensures |r| == |xs| && forall i :: 0 <= i < |xs| ==> r[i] == NumberCell(xs[i])
  {
    seq(|xs|, i requires 0 <= i < |xs| => NumberCell(xs[i]))
  }

  /** A column of strings. */
  function StringCells(xs: seq<string>): (r: seq<Value>)
    ensures |r| == |xs| && forall i :: 0 <= i < |xs| ==> r[i] == One(Str(xs[i]))
  {
    seq(|xs|, i requires 0 <= i < |xs| => One(Str(xs[i])))
  }

  /** A column of separation levels. */
  function LevelCells(xs: seq<Option<Scalar>>): (r: seq<Value>)
    ensures |r| == |xs| && forall i :: 0 <= i < |xs| ==> r[i] == LevelCell(xs[i])
  {
    seq(|xs|, i requires 0 <= i < |xs| => LevelCell(xs[i]))
  }

  // ---- one row through the pipeline ----

  /** `width_float`: the parsed width, or the default when it is missing. */
  function WidthFloat(width: Value): (w: real)
    ensures w >= 0.0
    ensures Util.Widest(width).Some? ==> w == Util.Widest(width).value
    ensures Util.Widest(width).None? ==> w == DefaultWidth
  {
    match width
    case Many(items) =>
      Util.WidestOfList(items);
      Util.Widest(width).GetOr(DefaultWidth)
    case One(_) => Util.Widest(width).GetOr(DefaultWidth)
  }

  /** `fillna(10.0)` on the parsed width gives `width_float`. */
  lemma {:induction false} WidthOfParsed(width: Value, parsed: Option<real>)
    requires parsed == Util.Widest(width)
    ensures parsed.GetOr(DefaultWidth) == WidthFloat(width)
  {
  }

  /** One row's `width_float` and `width_half` cells: `extract_width`, then
      the default for a missing width. */
  method WidthCells(width: Value) returns (cell: Value, half: Value)
    ensures cell == FloatCell(WidthFloat(width))
    ensures half == FloatCell(WidthFloat(width) / 2.0)
  {
    var parsed := Util.ExtractWidth(width);
    WidthOfParsed(width, parsed);
    var w := parsed.GetOr(DefaultWidth);
    cell, half := FloatCell(w), FloatCell(w / 2.0);
  }

  /** `extract_width` then `fillna`, and the halves, over a whole column. */
  method WidthsOf(width: seq<Value>) returns (widths: seq<Value>, halves: seq<Value>)
    ensures |widths| == |width| && |halves| == |width|
    ensures forall i :: 0 <= i < |width| ==>
      widths[i] == FloatCell(WidthFloat(width[i])) && halves[i] == FloatCell(WidthFloat(width[i]) / 2.0)
  {
    widths := [];
    halves := [];
    for k := 0 to |width|
      invariant |widths| == k && |halves| == k
      invariant forall i :: 0 <= i < k ==>
        widths[i] == FloatCell(WidthFloat(width[i])) && halves[i] == FloatCell(WidthFloat(width[i]) / 2.0)
    {
      var cell, half := WidthCells(width[k]);
      widths := widths + [cell];
      halves := halves + [half];
    }
  }

  /** The columns `process_network` and `prepare_data_for_place` index
      directly: a missing one raises KeyError. */
  const RequiredColumns: set<string> := DroppedSet + {
    "width", "maxspeed", "lanes", "highway", "bicycle",
    "cycleway", "cycleway:both", "cycleway:left", "cycleway:right"
  }

  predicate PrepareColumnsPresent(columns: set<string>) {
    RequiredColumns <= columns
  }

  /** The two width columns of `process_network`: the parsed width (the
      default when missing) and its half. */
  function WithWidths(d: Row): (s: Row)
    requires "width" in d
    ensures s.Keys == d.Keys + {"width_float", "width_half"}
  {
    var w := WidthFloat(d["width"]);
    d["width_float" := FloatCell(w)]["width_half" := FloatCell(w / 2.0)]
  }

  /** A row of `process_network`. */
  function ProcessedRow(r: Row): (s: Row)
    requires "width" in r
    ensures s.Keys == r.Keys - DroppedSet + {"width_float", "width_half"}
  {
    ScoredTagsKept();
    WithWidths(r - DroppedSet)
  }

  /** The speed stage's two columns. */
  function SpeedStage(r: Row): (s: Row)
    requires "maxspeed" in r
    ensures s.Keys == r.Keys + {"maxspeed_int", "maxspeed_int_score"}
  {
    var mph := Speed.ExtractMaxspeed(r["maxspeed"]);
    r["maxspeed_int" := NumberCell(mph)]["maxspeed_int_score" := FloatCell(Speed.SpeedScore(mph))]
  }

  /** The separation level as stored in its column: None when no candidate. */
  function LevelCell(level: Option<Scalar>): Value {
    match level
    case None => One(Null)
    case Some(s) => One(s)
  }

  /** The separation stage's two columns. */
  function SeparationStage(r: Row): (s: Row)
    requires SeparationLevel.HasSeparationColumns(r)
    ensures s.Keys == r.Keys + {"separation_level", "separation_level_score"}
  {
    var level := SeparationLevel.Level(r);
    r["separation_level" := LevelCell(level)]["separation_level_score" := FloatCell(SeparationLevel.LevelScore(level))]
  }

  /** The classification stage's two columns. */
  function ClassificationStage(r: Row): (s: Row)
    requires "highway" in r
    ensures s.Keys == r.Keys + {"street_classification", "street_classification_score"}
  {
    var c := Classification.GetStreetClassification(Some(Classification.ExtractStreetType(r["highway"])));
    r["street_classification" := One(Str(c.value))]
     ["street_classification_score" := FloatCell(Classification.GetStreetScore(c))]
  }

  /** The lane-count stage's two columns. */
  function LanesStage(r: Row): (s: Row)
    requires "lanes" in r
    ensures s.Keys == r.Keys + {"lanes_int", "lanes_int_score"}
  {
    var n := Lanes.ExtractLanes(r["lanes"]);
    r["lanes_int" := NumberCell(n)]["lanes_int_score" := FloatCell(Lanes.LanesScore(n))]
  }

  /** The copies of the original tags kept for comparison. */
  function CopyStage(r: Row): (s: Row)
    requires "highway" in r && "maxspeed" in r && "lanes" in r
    ensures s.Keys == r.Keys + {"street_0", "maxspeed_0", "lanes_0"}
    ensures s["street_0"] == r["highway"] && s["maxspeed_0"] == r["maxspeed"] && s["lanes_0"] == r["lanes"]
  {
    r["street_0" := r["highway"]]["maxspeed_0" := r["maxspeed"]]["lanes_0" := r["lanes"]]
  }

  /** `edges[scores].sum(axis=1) / len(scores)`: missing scores count as 0
      but the divisor stays 4. */
  function Composite(r: Row): real
    requires "maxspeed_int_score" in r && "separation_level_score" in r
    requires "street_classification_score" in r && "lanes_int_score" in r
  {
    (SumTerm(r["maxspeed_int_score"]) + SumTerm(r["separation_level_score"])
     + SumTerm(r["street_classification_score"]) + SumTerm(r["lanes_int_score"])) / 4.0
  }

  /** The tags the scoring stages read are not among the dropped ones. */
  lemma {:induction false} ScoredTagsKept()
    ensures "width" !in DroppedSet
    ensures "maxspeed" !in DroppedSet && "lanes" !in DroppedSet && "highway" !in DroppedSet
    ensures "bicycle" !in DroppedSet && "cycleway" !in DroppedSet && "cycleway:both" !in DroppedSet
    ensures "cycleway:left" !in DroppedSet && "cycleway:right" !in DroppedSet
  {
  }

  /** The tags the scoring stages and the copies read. */
  predicate ScoringColumnsPresent(keys: set<string>) {
    && "maxspeed" in keys && "lanes" in keys && "highway" in keys && "bicycle" in keys
    && "cycleway" in keys && "cycleway:both" in keys && "cycleway:left" in keys && "cycleway:right" in keys
  }

  /** A processed row through the four scoring stages and the copies. */
  function StagedRow(p: Row): (s: Row)
    requires ScoringColumnsPresent(p.Keys)
    ensures forall k :: k in p && !AddedByStages(k) ==> k in s && s[k] == p[k]
  {
    var a := SpeedStage(p);
    var b := SeparationStage(a);
    var c := ClassificationStage(b);
    var d := LanesStage(c);
    assert forall k :: k in p && !AddedByStages(k) ==> k in CopyStage(d) && CopyStage(d)[k] == p[k] by {
      forall k | k in p && !AddedByStages(k)
        ensures k in CopyStage(d) && CopyStage(d)[k] == p[k]
      {
        SpeedStageKeeps(p, k);
        SeparationStageKeeps(a, k);
        ClassificationStageKeeps(b, k);
        LanesStageKeeps(c, k);
        CopyStageKeeps(d, k);
      }
    }
    CopyStage(d)
  }

  /** The speed stage writes only its own two columns. */
  lemma {:induction false} SpeedStageKeeps(r: Row, k: string)
    requires "maxspeed" in r && k in r && k != "maxspeed_int" && k != "maxspeed_int_score"
    ensures k in SpeedStage(r) && SpeedStage(r)[k] == r[k]
  {
  }

  /** The separation stage writes only its own two columns. */
  lemma {:induction false} SeparationStageKeeps(r: Row, k: string)
    requires SeparationLevel.HasSeparationColumns(r) && k in r
    requires k != "separation_level" && k != "separation_level_score"
    ensures k in SeparationStage(r) && SeparationStage(r)[k] == r[k]
  {
  }

  /** The classification stage writes only its own two columns. */
  lemma {:induction false} ClassificationStageKeeps(r: Row, k: string)
    requires "highway" in r && k in r && k != "street_classification" && k != "street_classification_score"
    ensures k in ClassificationStage(r) && ClassificationStage(r)[k] == r[k]
  {
  }

  /** The lane-count stage writes only its own two columns. */
  lemma {:induction false} LanesStageKeeps(r: Row, k: string)
    requires "lanes" in r && k in r && k != "lanes_int" && k != "lanes_int_score"
    ensures k in LanesStage(r) && LanesStage(r)[k] == r[k]
  {
  }

  /** The copies write only their own three columns. */
  lemma {:induction false} CopyStageKeeps(r: Row, k: string)
    requires "highway" in r && "maxspeed" in r && "lanes" in r && k in r && !CopyColumn(k)
    ensures k in CopyStage(r) && CopyStage(r)[k] == r[k]
  {
  }

  /** The row after the scoring stages and the copies, before the composite. */
  function ScoredRow(r: Row): (s: Row)
    requires PrepareColumnsPresent(r.Keys)
  {
    ScoredTagsKept();
    StagedRow(ProcessedRow(r))
  }

  /** A row of `prepare_data_for_place`. */
  function PreparedRow(r: Row): (s: Row)
    requires PrepareColumnsPresent(r.Keys)
  {
    var q := ScoredRow(r);
    q["composite_score" := FloatCell(Composite(q))]
  }

  /** `width_float` is the parsed width, 10 m when it is missing, and
      `width_half` is half of it; every tag but the dropped ones is kept. */
  lemma {:induction false} ProcessedRowWidth(r: Row)
    requires "width" in r
    ensures ProcessedRow(r)["width_float"] == FloatCell(WidthFloat(r["width"]))
    ensures ProcessedRow(r)["width_half"] == FloatCell(WidthFloat(r["width"]) / 2.0)
    ensures Util.Widest(r["width"]).Some? ==> WidthFloat(r["width"]) == Util.Widest(r["width"]).value
    ensures Util.Widest(r["width"]).None? ==> WidthFloat(r["width"]) == 10.0
    ensures forall k :: k in r && k !in DroppedSet && k != "width_float" && k != "width_half" ==>
      ProcessedRow(r)[k] == r[k]
  {
    ScoredTagsKept();
    assert ProcessedRow(r) == WithWidths(r - DroppedSet);
  }

  /** The speed score cell, computed from the row's `maxspeed`, survives
      the later stages. */
  lemma {:induction false} StagedSpeedScore(p: Row)
    requires ScoringColumnsPresent(p.Keys)
    ensures StagedRow(p)["maxspeed_int_score"] == FloatCell(Speed.SpeedScore(Speed.ExtractMaxspeed(p["maxspeed"])))
  {
    StageColumnsDistinct();
    var a := SpeedStage(p);
    var b := SeparationStage(a);
    var c := ClassificationStage(b);
    var d := LanesStage(c);
    SeparationStageKeeps(a, "maxspeed_int_score");
    ClassificationStageKeeps(b, "maxspeed_int_score");
    LanesStageKeeps(c, "maxspeed_int_score");
    CopyStageKeeps(d, "maxspeed_int_score");
  }

  /** The speed stage leaves the separation level of a row as it was. */
  lemma {:induction false} SpeedStageLevel(p: Row)
    requires ScoringColumnsPresent(p.Keys)
    ensures SeparationLevel.HasSeparationColumns(SpeedStage(p))
    ensures SeparationLevel.Level(SpeedStage(p)) == SeparationLevel.Level(p)
  {
    var a := SpeedStage(p);
    SpeedStageKeeps(p, "cycleway");
    SpeedStageKeeps(p, "cycleway:both");
    SpeedStageKeeps(p, "cycleway:left");
    SpeedStageKeeps(p, "cycleway:right");
    SpeedStageKeeps(p, "highway");
    SpeedStageKeeps(p, "bicycle");
    if "cycleway:buffer" in p {
      SpeedStageKeeps(p, "cycleway:buffer");
    }
    if "cycleway:separation" in p {
      SpeedStageKeeps(p, "cycleway:separation");
    }
    SeparationLevel.LevelSameTags(a, p);
  }

  /** The separation score cell, computed from the row's own cycleway,
      highway, bicycle and buffer tags; one of the ranking's scores. */
  lemma {:induction false} StagedSeparationScore(p: Row)
    requires ScoringColumnsPresent(p.Keys)
    ensures StagedRow(p)["separation_level_score"] == FloatCell(SeparationLevel.LevelScore(SeparationLevel.Level(p)))
    ensures exists x :: x in {0.0, 2.0, 5.0, 7.0, 7.5, 8.0, 10.0} && StagedRow(p)["separation_level_score"] == FloatCell(x)
  {
    StageColumnsDistinct();
    var a := SpeedStage(p);
    var b := SeparationStage(a);
    var c := ClassificationStage(b);
    var d := LanesStage(c);
    SpeedStageLevel(p);
    var level := SeparationLevel.LevelScore(SeparationLevel.Level(p));
    assert b["separation_level_score"] == FloatCell(level);
    ClassificationStageKeeps(b, "separation_level_score");
    LanesStageKeeps(c, "separation_level_score");
    CopyStageKeeps(d, "separation_level_score");
  }

  /** The classification score cell, computed from the row's `highway`. */
  lemma {:induction false} StagedClassificationScore(p: Row)
    requires ScoringColumnsPresent(p.Keys)
    ensures StagedRow(p)["street_classification_score"] ==
      FloatCell(Classification.GetStreetScore(Classification.GetStreetClassification(Some(Classification.ExtractStreetType(p["highway"])))))
  {
    StageColumnsDistinct();
    OriginalTagsNotStaged();
    var a := SpeedStage(p);
    var b := SeparationStage(a);
    var c := ClassificationStage(b);
    var d := LanesStage(c);
    SpeedStageKeeps(p, "highway");
    SeparationStageKeeps(a, "highway");
    LanesStageKeeps(c, "street_classification_score");
    CopyStageKeeps(d, "street_classification_score");
  }

  /** The lane-count score cell, computed from the row's `lanes`. */
  lemma {:induction false} StagedLanesScore(p: Row)
    requires ScoringColumnsPresent(p.Keys)
    ensures StagedRow(p)["lanes_int_score"] == FloatCell(Lanes.LanesScore(Lanes.ExtractLanes(p["lanes"])))
  {
    StageColumnsDistinct();
    OriginalTagsNotStaged();
    var a := SpeedStage(p);
    var b := SeparationStage(a);
    var c := ClassificationStage(b);
    var d := LanesStage(c);
    SpeedStageKeeps(p, "lanes");
    SeparationStageKeeps(a, "lanes");
    ClassificationStageKeeps(b, "lanes");
    CopyStageKeeps(d, "lanes_int_score");
  }

  /** The tags the stages read are not among the columns they write. */
  lemma {:induction false} OriginalTagsNotStaged()
    ensures !AddedByStages("highway") && !AddedByStages("lanes") && !AddedByStages("maxspeed")
  {
  }

  /** Each stage column survives the stages after it. */
  lemma {:induction false} StageColumnsDistinct()
    ensures "maxspeed_int_score" != "separation_level" && "maxspeed_int_score" != "separation_level_score"
    ensures "maxspeed_int_score" != "street_classification" && "maxspeed_int_score" != "street_classification_score"
    ensures "maxspeed_int_score" != "lanes_int" && "maxspeed_int_score" != "lanes_int_score"
    ensures "separation_level_score" != "street_classification" && "separation_level_score" != "street_classification_score"
    ensures "separation_level_score" != "lanes_int" && "separation_level_score" != "lanes_int_score"
    ensures "street_classification_score" != "lanes_int" && "street_classification_score" != "lanes_int_score"
    ensures !CopyColumn("maxspeed_int_score") && !CopyColumn("separation_level_score")
    ensures !CopyColumn("street_classification_score") && !CopyColumn("lanes_int_score")
  {
  }

  /** The three copy columns. */
  predicate CopyColumn(c: string) {
    c == "street_0" || c == "maxspeed_0" || c == "lanes_0"
  }

  /** With all four scores present the composite is their mean. */
  lemma {:induction false} CompositeOfScores(q: Row, speed: real, separation: real, street: real, lanes: real)
    requires "maxspeed_int_score" in q && q["maxspeed_int_score"] == FloatCell(speed)
    requires "separation_level_score" in q && q["separation_level_score"] == FloatCell(separation)
    requires "street_classification_score" in q && q["street_classification_score"] == FloatCell(street)
    requires "lanes_int_score" in q && q["lanes_int_score"] == FloatCell(lanes)
    ensures Composite(q) == (speed + separation + street + lanes) / 4.0
  {
  }

  /** The composite of a staged row lies between 0.25 and 9.5. */
  lemma {:induction false} StagedComposite(p: Row)
    requires ScoringColumnsPresent(p.Keys)
    ensures 0.25 <= Composite(StagedRow(p)) <= 9.5
  {
    var q := StagedRow(p);
    StagedSpeedScore(p);
    var speed := Speed.SpeedScore(Speed.ExtractMaxspeed(p["maxspeed"]));
    Speed.SpeedScoreRange(Speed.ExtractMaxspeed(p["maxspeed"]));
    assert 1.0 <= speed <= 10.0;
    StagedSeparationScore(p);
    var separation :| separation in {0.0, 2.0, 5.0, 7.0, 7.5, 8.0, 10.0} && q["separation_level_score"] == FloatCell(separation);
    assert 0.0 <= separation <= 10.0;
    StagedClassificationScore(p);
    var street := Classification.GetStreetScore(Classification.GetStreetClassification(Some(Classification.ExtractStreetType(p["highway"]))));
    assert 0.0 <= street <= 10.0;
    StagedLanesScore(p);
    var lanes := Lanes.LanesScore(Lanes.ExtractLanes(p["lanes"]));
    Lanes.LanesScoreRange(Lanes.ExtractLanes(p["lanes"]));
    assert 0.0 <= lanes <= 8.0;
    CompositeOfScores(q, speed, separation, street, lanes);
  }

  /** The composite of a prepared row: the four scores averaged, so it lies
      between 0.25 (speed can score no lower than 1, the others 0) and 9.5
      (lanes score at most 8, the others 10). */
  lemma {:induction false} PreparedComposite(r: Row)
    requires PrepareColumnsPresent(r.Keys)
    ensures PreparedRow(r)["composite_score"] == FloatCell(Composite(ScoredRow(r)))
    ensures 0.25 <= Composite(ScoredRow(r)) <= 9.5
  {
    ScoredTagsKept();
    StagedComposite(ProcessedRow(r));
  }

  /** A missing score (NaN or None) adds nothing to the row sum, so it
      counts as a score of 0 while the divisor stays 4. */
  lemma {:induction false} CompositeMissingIsZero(q: Row, k: string)
    requires "maxspeed_int_score" in q && "separation_level_score" in q
    requires "street_classification_score" in q && "lanes_int_score" in q
    requires k in ScoreColumns && (q[k] == One(NaN) || q[k] == One(Null))
    ensures Composite(q) == Composite(q[k := FloatCell(0.0)])
  {
  }

  /** Raising one of the four scores never lowers the composite, and
      raising it by 4 raises the composite by exactly 1. */
  lemma {:induction false} CompositeMonotone(q: Row, k: string, x: real, y: real)
    requires "maxspeed_int_score" in q && "separation_level_score" in q
    requires "street_classification_score" in q && "lanes_int_score" in q
    requires k in ScoreColumns && q[k] == FloatCell(x) && x <= y
    ensures Composite(q) <= Composite(q[k := FloatCell(y)])
    ensures Composite(q[k := FloatCell(y)]) - Composite(q) == (y - x) / 4.0
  {
  }

  // ---- the place slug ----

  /** `place.split(",")[0].replace(" ", "_").lower()`: the name of the
      output files of a place. */
  function Slug(place: string): (slug: string)
    ensures |slug| <= |place|
    ensures |slug| < |place| ==> place[|slug|] == ','
    ensures forall i :: 0 <= i < |slug| ==>
      place[i] != ',' && slug[i] == if place[i] == ' ' then '_' else Text.LowerChar(place[i])
    ensures ',' !in slug && ' ' !in slug
    ensures forall i :: 0 <= i < |slug| ==> !('A' <= slug[i] <= 'Z')
  {
    var first := Text.BeforeFirst(place, ',');
    var r := Text.Lower(Text.ReplaceChar(first, ' ', '_'));
    assert forall i :: 0 <= i < |first| ==> first[i] == place[i] && first[i] != ',' by {
      forall i | 0 <= i < |first| ensures first[i] == place[i] && first[i] != ',' {
        assert first[i] in first;
      }
    }
    assert ',' !in r && ' ' !in r by {
      forall i | 0 <= i < |r| ensures r[i] != ',' && r[i] != ' ' {
        assert first[i] in first;
      }
    }
    r
  }

  /** Only the part before the first comma names the place. */
  lemma {:induction false} SlugFirstPart(name: string, rest: string)
    requires ',' !in name
    ensures Slug(name + [','] + rest) == Slug(name)
  {
    BeforeFirstComma(name, rest);
  }

  /** A slug is its own slug. */
  lemma {:induction false} SlugIdempotent(place: string)
    ensures Slug(Slug(place)) == Slug(place)
  {
    var s := Slug(place);
    assert Text.BeforeFirst(s, ',') == s;
    assert Text.ReplaceChar(s, ' ', '_') == s;
    assert Text.Lower(s) == s;
  }

  /** The text before the first comma of `name,rest` is `name`. */
  lemma {:induction false} BeforeFirstComma(name: string, rest: string)
    requires ',' !in name
    ensures Text.BeforeFirst(name + [','] + rest, ',') == name
    decreases |name|
  {
    if |name| > 0 {
      assert (name + [','] + rest)[1..] == name[1..] + [','] + rest;
      assert name[0] in name;
      BeforeFirstComma(name[1..], rest);
    }
  }

  // ---- the order of the columns ----

  /** Two columns assigned one after the other. */
  function WithPair(columns: seq<string>, a: string, b: string): (r: seq<string>)
    ensures forall c :: c in r <==> c in columns || c == a || c == b
  {
    WithColumn(WithColumn(columns, a), b)
  }

  /** The columns after `process_network`: the dropped tags gone, the two
      width columns added, all sorted. */
  function ProcessedColumns(columns: seq<string>): seq<string> {
    Text.Sorted(WithPair(Without(columns, DroppedSet), "width_float", "width_half"))
  }

  /** The columns after `prepare_data_for_place`: the stage columns and the
      copies added and sorted again, then the composite assigned last. */
  function PreparedColumns(columns: seq<string>): seq<string> {
    WithColumn(Text.Sorted(StagedColumns(columns)), "composite_score")
  }

  /** Sorting keeps the set of names. */
  lemma {:induction false} SortedColumnSet(columns: seq<string>)
    ensures forall c :: c in Text.Sorted(columns) <==> c in columns
    ensures ColumnSet(Text.Sorted(columns)) == ColumnSet(columns)
  {
    var r := Text.Sorted(columns);
    forall c ensures c in r <==> c in columns {
      assert c in r <==> c in multiset(r);
      assert c in columns <==> c in multiset(columns);
    }
  }

  /** After `process_network` the columns are sorted, none of the dropped
      tags is left, the two width columns are there and every other column
      is kept. */
  lemma {:induction false} ProcessedColumnsShape(columns: seq<string>)
    ensures Text.IsSorted(ProcessedColumns(columns))
    ensures forall c :: c in ProcessedColumns(columns) <==>
      (c in columns && c !in DroppedSet) || c == "width_float" || c == "width_half"
  {
    var w := WithPair(Without(columns, DroppedSet), "width_float", "width_half");
    SortedColumnSet(w);
  }

  /** The column order after the four scoring stages and the copies. */
  function AfterStages(p: seq<string>): (r: seq<string>)
    ensures forall c :: c in r <==> c in p || AddedByStages(c)
  {
    var a := WithPair(p, "maxspeed_int", "maxspeed_int_score");
    var b := WithPair(a, "separation_level", "separation_level_score");
    var c := WithPair(b, "street_classification", "street_classification_score");
    var d := WithPair(c, "lanes_int", "lanes_int_score");
    WithColumn(WithPair(d, "street_0", "maxspeed_0"), "lanes_0")
  }

  /** `process_network` keeps every tag the scoring stages read. */
  lemma {:induction false} ProcessedKeepsScoringColumns(columns: seq<string>)
    requires PrepareColumnsPresent(ColumnSet(columns))
    ensures DroppedSet <= ColumnSet(columns) && "width" in columns
    ensures ScoringColumnsPresent(ColumnSet(ProcessedColumns(columns)))
  {
    ScoredTagsKept();
    ProcessedColumnsShape(columns);
    assert "width" in ColumnSet(columns);
  }

  /** The columns before the final sort: those of `process_network` plus
      the stage and copy columns. */
  function StagedColumns(columns: seq<string>): (r: seq<string>)
    ensures forall c :: c in r <==> c in ProcessedColumns(columns) || AddedByStages(c)
  {
    AfterStages(ProcessedColumns(columns))
  }

  /** The composite column is not one the earlier stages add. */
  lemma {:induction false} CompositeIsNew()
    ensures !AddedByStages("composite_score")
    ensures "composite_score" != "width_float" && "composite_score" != "width_half"
  {
  }

  /** After `prepare_data_for_place` the columns are those of
      `process_network` plus the eleven stage and copy columns and the
      composite; the composite, being new, comes last after the sorted
      others. */
  lemma {:induction false} PreparedColumnsShape(columns: seq<string>)
    ensures forall c :: c in PreparedColumns(columns) <==> (c in columns && c !in DroppedSet) || AddedByPipeline(c)
    ensures "composite_score" !in columns ==>
      && |PreparedColumns(columns)| > 0
      && PreparedColumns(columns)[|PreparedColumns(columns)| - 1] == "composite_score"
      && Text.IsSorted(PreparedColumns(columns)[..|PreparedColumns(columns)| - 1])
  {
    ProcessedColumnsShape(columns);
    var e := StagedColumns(columns);
    SortedColumnSet(e);
    var sorted := Text.Sorted(e);
    if "composite_score" !in columns {
      CompositeIsNew();
      assert "composite_score" !in sorted;
      assert PreparedColumns(columns) == sorted + ["composite_score"];
      assert PreparedColumns(columns)[..|sorted|] == sorted;
    }
  }

  /** The columns the four scoring stages and the copies add. */
  predicate AddedByStages(c: string) {
    || c == "maxspeed_int" || c == "maxspeed_int_score"
    || c == "separation_level" || c == "separation_level_score"
    || c == "street_classification" || c == "street_classification_score"
    || c == "lanes_int" || c == "lanes_int_score"
    || c == "street_0" || c == "maxspeed_0" || c == "lanes_0"
  }

  /** Every column the pipeline adds. */
  predicate AddedByPipeline(c: string) {
    c == "width_float" || c == "width_half" || AddedByStages(c) || c == "composite_score"
  }

  // ---- the edge table ----

  /** An edge table: named columns, and one row per edge mapping every
      column name to its cell. */
  class EdgeTable {
    var columns: seq<string>
    var rows: seq<Row>

    /** Every row has exactly the table's columns. */
    predicate Valid()
      reads this
    {
      forall i :: 0 <= i < |rows| ==> rows[i].Keys == ColumnSet(columns)
    }

    constructor (columns: seq<string>, rows: seq<Row>)
      requires forall i :: 0 <= i < |rows| ==> rows[i].Keys == ColumnSet(columns)
      ensures Valid()
      ensures this.columns == columns && this.rows == rows
    {
      this.columns := columns;
      this.rows := rows;
    }

    /** `edges[name]`. */
    function Column(name: string): (col: seq<Value>)
      reads this
      requires Valid() && name in columns
      ensures |col| == |rows|
      ensures forall i :: 0 <= i < |rows| ==> col[i] == rows[i][name]
    {
      var rs := rows;
      seq(|rs|, i requires 0 <= i < |rs| => rs[i][name])
    }

    /** `edges[name] = values`. */
    method Assign(name: string, values: seq<Value>)
      requires Valid() && |values| == |rows|
      modifies this
      ensures Valid()
      ensures columns == WithColumn(old(columns), name)
      ensures rows == Assigned(old(rows), name, values)
    {
      columns := WithColumn(columns, name);
      rows := Assigned(rows, name, values);
    }

    /** `edges.drop(names, axis=1)`: a name that is not a column raises
      KeyError and leaves the table as it was. */
    method Drop(names: set<string>) returns (ok: bool)
      requires Valid()
      modifies this
      ensures Valid()
      ensures ok <==> names <= ColumnSet(old(columns))
      ensures !ok ==> columns == old(columns) && rows == old(rows)
      ensures ok ==> columns == Without(old(columns), names)
      ensures ok ==> |rows| == |old(rows)|
      ensures ok ==> forall i :: 0 <= i < |rows| ==> rows[i] == old(rows)[i] - names
    {
      ok := names <= ColumnSet(columns);
      if !ok {
        return;
      }
      columns := Without(columns, names);
      var rs := rows;
      rows := seq(|rs|, i requires 0 <= i < |rs| => rs[i] - names);
    }

    /** `edges.reindex(sorted(edges.columns), axis=1)`. */
    method SortColumns()
      requires Valid()
      modifies this
      ensures Valid()
      ensures columns == Text.Sorted(old(columns))
      ensures rows == old(rows)
    {
      SortedColumnSet(columns);
      columns := Text.Sorted(columns);
    }

    /** The parsed width of every edge, the default filling a missing one,
        and its half. */
    method WidthColumns() returns (widths: seq<Value>, halves: seq<Value>)
      requires Valid() && "width" in columns
      ensures |widths| == |rows| && |halves| == |rows|
      ensures forall i :: 0 <= i < |rows| ==> widths[i] == FloatCell(WidthFloat(rows[i]["width"]))
      ensures forall i :: 0 <= i < |rows| ==> halves[i] == FloatCell(WidthFloat(rows[i]["width"]) / 2.0)
    {
      widths, halves := WidthsOf(Column("width"));
    }

    /** The two width columns assigned. */
    method AddWidths()
      requires Valid() && "width" in columns
      modifies this
      ensures Valid()
      ensures columns == WithPair(old(columns), "width_float", "width_half")
      ensures |rows| == |old(rows)|
      ensures forall i :: 0 <= i < |rows| ==> rows[i] == WithWidths(old(rows)[i])
    {
      var widths, halves := WidthColumns();
      Assign("width_float", widths);
      Assign("width_half", halves);
    }

    /** `process_network`. A missing column (one of the dropped tags, or
        `width`) raises KeyError before any assignment reaches the caller's
        table, which is left as it was. */
    method ProcessNetwork() returns (ok: bool)
      requires Valid()
      modifies this
      ensures Valid()
      ensures ok <==> DroppedSet <= ColumnSet(old(columns)) && "width" in old(columns)
      ensures !ok ==> columns == old(columns) && rows == old(rows)
      ensures ok ==> columns == ProcessedColumns(old(columns))
      ensures ok ==> |rows| == |old(rows)|
      ensures ok ==> forall i :: 0 <= i < |rows| ==> rows[i] == ProcessedRow(old(rows)[i])
    {
      ok := DroppedSet <= ColumnSet(columns) && "width" in columns;
      if !ok {
        return;
      }
      ScoredTagsKept();
      var dropped := Drop(DroppedSet);
      AddWidths();
      SortColumns();
    }

    /** `edges["maxspeed_int"], edges["maxspeed_int_score"] = speed.run(edges)`. */
    method ScoreSpeed()
      requires Valid() && "maxspeed" in columns
      modifies this
      ensures Valid()
      ensures columns == WithPair(old(columns), "maxspeed_int", "maxspeed_int_score")
      ensures |rows| == |old(rows)|
      ensures forall i :: 0 <= i < |rows| ==> rows[i] == SpeedStage(old(rows)[i])
    {
      var speeds, scores := Speed.Run(Column("maxspeed"));
      Assign("maxspeed_int", NumberCells(speeds));
      Assign("maxspeed_int_score", FloatCells(scores));
    }

    /** `edges["separation_level"], edges["separation_level_score"] =
        separation_level.run(edges)`. */
    method ScoreSeparation()
      requires Valid()
      requires "cycleway" in columns && "cycleway:both" in columns && "cycleway:left" in columns
      requires "cycleway:right" in columns && "highway" in columns && "bicycle" in columns
      modifies this
      ensures Valid()
      ensures columns == WithPair(old(columns), "separation_level", "separation_level_score")
      ensures |rows| == |old(rows)|
      ensures forall i :: 0 <= i < |rows| ==> rows[i] == SeparationStage(old(rows)[i])
    {
      var levels, scores := SeparationLevel.Run(rows);
      Assign("separation_level", LevelCells(levels));
      Assign("separation_level_score", FloatCells(scores));
    }

    /** `edges["street_classification"], edges["street_classification_score"]
        = classification.run(edges)`. */
    method ScoreClassification()
      requires Valid() && "highway" in columns
      modifies this
      ensures Valid()
      ensures columns == WithPair(old(columns), "street_classification", "street_classification_score")
      ensures |rows| == |old(rows)|
      ensures forall i :: 0 <= i < |rows| ==> rows[i] == ClassificationStage(old(rows)[i])
    {
      var classes, scores := Classification.Run(Column("highway"));
      Assign("street_classification", StringCells(classes));
      Assign("street_classification_score", FloatCells(scores));
    }

    /** `edges["lanes_int"], edges["lanes_int_score"] = lanes.run(edges)`. */
    method ScoreLanes()
      requires Valid() && "lanes" in columns
      modifies this
      ensures Valid()
      ensures columns == WithPair(old(columns), "lanes_int", "lanes_int_score")
      ensures |rows| == |old(rows)|
      ensures forall i :: 0 <= i < |rows| ==> rows[i] == LanesStage(old(rows)[i])
    {
      var counts, scores := Lanes.Run(Column("lanes"));
      Assign("lanes_int", NumberCells(counts));
      Assign("lanes_int_score", FloatCells(scores));
    }

    /** The copies `street_0`, `maxspeed_0` and `lanes_0` of `highway`,
        `maxspeed` and `lanes`. */
    method CopyOriginals()
      requires Valid() && "highway" in columns && "maxspeed" in columns && "lanes" in columns
      modifies this
      ensures Valid()
      ensures columns == WithColumn(WithPair(old(columns), "street_0", "maxspeed_0"), "lanes_0")
      ensures |rows| == |old(rows)|
      ensures forall i :: 0 <= i < |rows| ==> rows[i] == CopyStage(old(rows)[i])
    {
      Assign("street_0", Column("highway"));
      Assign("maxspeed_0", Column("maxspeed"));
      Assign("lanes_0", Column("lanes"));
    }

    /** `edges["composite_score"] = edges[scores].sum(axis=1) / len(scores)`. */
    method AddComposite()
      requires Valid()
      requires "maxspeed_int_score" in columns && "separation_level_score" in columns
      requires "street_classification_score" in columns && "lanes_int_score" in columns
      modifies this
      ensures Valid()
      ensures columns == WithColumn(old(columns), "composite_score")
      ensures |rows| == |old(rows)|
      ensures forall i :: 0 <= i < |rows| ==>
        rows[i] == old(rows)[i]["composite_score" := FloatCell(Composite(old(rows)[i]))]
    {
      var rs := rows;
      Assign("composite_score", seq(|rs|, i requires 0 <= i < |rs| => FloatCell(Composite(rs[i]))));
    }

    /** The four scoring stages, in the order speed, separation,
        classification, lanes, then the copies of the original tags. */
    method ScoreAll()
      requires Valid() && ScoringColumnsPresent(ColumnSet(columns))
      modifies this
      ensures Valid()
      ensures columns == AfterStages(old(columns))
      ensures |rows| == |old(rows)|
      ensures forall i :: 0 <= i < |rows| ==> rows[i] == StagedRow(old(rows)[i])
    {
      ghost var rows0 := rows;
      ScoreSpeed();
      ghost var a := rows;
      ScoreSeparation();
      ghost var b := rows;
      ScoreClassification();
      ghost var c := rows;
      ScoreLanes();
      CopyOriginals();
      forall i | 0 <= i < |rows|
        ensures rows[i] == StagedRow(rows0[i])
      {
        assert a[i] == SpeedStage(rows0[i]);
        assert b[i] == SeparationStage(a[i]);
        assert c[i] == ClassificationStage(b[i]);
      }
    }

    /** `prepare_data_for_place` on a table that has every column it reads. */
    method PrepareChecked()
      requires Valid() && PrepareColumnsPresent(ColumnSet(columns))
      modifies this
      ensures Valid()
      ensures columns == PreparedColumns(old(columns))
      ensures |rows| == |old(rows)|
      ensures forall i :: 0 <= i < |rows| ==> rows[i] == PreparedRow(old(rows)[i])
    {
      ghost var rows0 := rows;
      ProcessedKeepsScoringColumns(columns);
      var processed := ProcessNetwork();
      ghost var p := rows;
      ScoreAll();
      SortedColumnSet(columns);
      SortColumns();
      ghost var e := rows;
      AddComposite();
      forall i | 0 <= i < |rows|
        ensures rows[i] == PreparedRow(rows0[i])
      {
        assert e[i] == StagedRow(p[i]) == ScoredRow(rows0[i]);
      }
    }

    /** The table part of `prepare_data_for_place`: `process_network`, the
        four scoring stages in the order speed, separation, classification,
        lanes, the copies of the original tags, a second sort of the
        columns and the composite. A missing column raises KeyError before
        the caller's table is touched. */
    method Prepare() returns (ok: bool)
      requires Valid()
      modifies this
      ensures Valid()
      ensures ok <==> PrepareColumnsPresent(ColumnSet(old(columns)))
      ensures !ok ==> columns == old(columns) && rows == old(rows)
      ensures ok ==> columns == PreparedColumns(old(columns))
      ensures ok ==> |rows| == |old(rows)|
      ensures ok ==> forall i :: 0 <= i < |rows| ==> rows[i] == PreparedRow(old(rows)[i])
    {
      ok := PrepareColumnsPresent(ColumnSet(columns));
      if !ok {
        return;
      }
      PrepareChecked();
    }
  }
}
