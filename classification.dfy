/** backend/src/stressmodel/classification.py: the road type (the `highway`
    tag) sorted into four buckets, from dedicated paths (10) to
    motorway-like roads (0). */
module Classification {
  import opened Wrappers
  import opened PyValue
  import Text
  import Seqs

  /** `STREET_CLASSIFICATIONS`: road type to bucket. */
  const StreetClassifications: map<string, string> := map[
    "cycleway" := "dedicated_path",
    "path" := "dedicated_path",
    "pedestrian" := "dedicated_path",
    "footway" := "dedicated_path",
    "bridleway" := "dedicated_path",
    "steps" := "dedicated_path",
    "residential" := "residential",
    "living_street" := "residential",
    "service" := "residential",
    "unclassified" := "residential",
    "track" := "residential",
    "tertiary" := "medium-capacity",
    "secondary" := "medium-capacity",
    "secondary_link" := "medium-capacity",
    "primary" := "medium-capacity",
    "primary_link" := "medium-capacity",
    "trunk" := "motorway",
    "trunk_link" := "motorway",
    "motorway" := "motorway",
    "motorway_link" := "motorway",
    "busway" := "motorway"
  ]

  /** `CLASSIFICATION_SCORES`: bucket to score, higher is better. */
  const ClassificationScores: map<string, real> := map[
    "dedicated_path" := 10.0,
    "residential" := 7.0,
    "medium-capacity" := 3.0,
    "motorway" := 0.0
  ]

  /** `DEFAULT_CLASSIFICATION`, the bucket of unlisted road types. */
  const DefaultClassification: string := "medium-capacity"

  /** The four buckets. */
  const Buckets: set<string> := {"dedicated_path", "residential", "medium-capacity", "motorway"}

  /** `STREET_CLASSIFICATIONS.get(t, DEFAULT_CLASSIFICATION)`. */
  function ClassOf(t: string): (c: string)
    ensures c in Buckets
    ensures t !in StreetClassifications ==> c == DefaultClassification
  {
    if t in StreetClassifications then StreetClassifications[t] else DefaultClassification
  }

  /** `CLASSIFICATION_SCORES.get(c, CLASSIFICATION_SCORES[DEFAULT])`. */
  function BucketScore(c: string): (s: real)
    ensures s in {0.0, 3.0, 7.0, 10.0}
    ensures c !in ClassificationScores ==> s == 3.0
  {
    if c in ClassificationScores then ClassificationScores[c] else ClassificationScores[DefaultClassification]
  }

  /** The key `max` uses to rank road types within a list. */
  function TypeScore(t: string): real {
    BucketScore(ClassOf(t))
  }

  /** `[v for v in value if isinstance(v, str)]`. */
  function Strings(items: seq<Scalar>): (r: seq<string>)
    ensures |r| <= |items|
    ensures forall x :: x in r <==> Str(x) in items
  {
    if |items| == 0 then []
    else
      var init := Strings(items[..|items| - 1]);
      var last := items[|items| - 1];
      assert items == items[..|items| - 1] + [last];
      if last.Str? then init + [last.s] else init
  }

  /** `extract_street_type`: NaN gives "", a list its best string for
      cycling (first on ties, "" when it holds none), a string is stripped,
      anything else gives "". */
  function ExtractStreetType(value: Value): string {
    match value
    case Many(items) =>
      var valid := Strings(items);
      if |valid| == 0 then "" else valid[Seqs.ArgMaxFirst(valid, TypeScore)]
    case One(Str(s)) => Text.Strip(s)
    case One(_) => ""
  }

  /** `get_street_classification`: a missing type stays missing, any other
      lands in one of the four buckets. */
  function GetStreetClassification(t: Option<string>): (c: Option<string>)
    ensures t.None? <==> c.None?
    ensures c.Some? ==> c.value in Buckets
  {
    match t
    case None => None
    case Some(s) => Some(ClassOf(s))
  }

  /** `get_street_score`: missing scores 0, an unknown bucket 3. */
  function GetStreetScore(c: Option<string>): (s: real)
    ensures s in {0.0, 3.0, 7.0, 10.0}
    ensures c.None? ==> s == 0.0
  {
    match c
    case None => 0.0
    case Some(b) => BucketScore(b)
  }

  /** `run`: every edge gets a bucket and its score; the extracted type is
      always a string, so none is missing. */
  method Run(highway: seq<Value>) returns (classes: seq<string>, scores: seq<real>)
    ensures |classes| == |highway| && |scores| == |highway|
    ensures forall i :: 0 <= i < |highway| ==>
      Some(classes[i]) == GetStreetClassification(Some(ExtractStreetType(highway[i])))
    ensures forall i :: 0 <= i < |highway| ==> scores[i] == GetStreetScore(Some(classes[i]))
    ensures forall i :: 0 <= i < |highway| ==> classes[i] in Buckets
    ensures forall i :: 0 <= i < |highway| ==> scores[i] in {0.0, 3.0, 7.0, 10.0}
  {
    classes := [];
    scores := [];
    for k := 0 to |highway|
      invariant |classes| == k && |scores| == k
      invariant forall i :: 0 <= i < k ==>
        Some(classes[i]) == GetStreetClassification(Some(ExtractStreetType(highway[i])))
      invariant forall i :: 0 <= i < k ==> scores[i] == GetStreetScore(Some(classes[i]))
      invariant forall i :: 0 <= i < k ==> classes[i] in Buckets
      invariant forall i :: 0 <= i < k ==> scores[i] in {0.0, 3.0, 7.0, 10.0}
    {
      var streetType := ExtractStreetType(highway[k]);
      var c := GetStreetClassification(Some(streetType));
      var score := GetStreetScore(c);
      classes := classes + [c.value];
      scores := scores + [score];
      assert classes[k] == c.value && scores[k] == score;
    }
  }

  /** The bucket scores, best to worst for cycling. */
  lemma {:induction false} BucketScores()
    ensures BucketScore("dedicated_path") == 10.0
    ensures BucketScore("residential") == 7.0
    ensures BucketScore("medium-capacity") == 3.0
    ensures BucketScore("motorway") == 0.0
    ensures ClassificationScores.Keys == Buckets
  {
  }

  /** A list picks a string among its items whose bucket scores at least as
      well as every string in the list; a list with no string gives "". */
  lemma {:induction false} StreetTypeOfList(items: seq<Scalar>)
    ensures (forall i :: 0 <= i < |items| ==> !items[i].Str?) ==> ExtractStreetType(Many(items)) == ""
    ensures (exists i :: 0 <= i < |items| && items[i].Str?) ==>
      && Str(ExtractStreetType(Many(items))) in items
      && (forall i :: 0 <= i < |items| && items[i].Str? ==>
            TypeScore(items[i].s) <= TypeScore(ExtractStreetType(Many(items))))
  {
    var valid := Strings(items);
    if |valid| > 0 {
      assert Str(valid[0]) in items;
    }
    if exists i :: 0 <= i < |items| && items[i].Str? {
      var i :| 0 <= i < |items| && items[i].Str?;
      assert items[i] == Str(items[i].s);
      assert items[i].s in valid;
      var k := Seqs.ArgMaxFirst(valid, TypeScore);
      assert ExtractStreetType(Many(items)) == valid[k];
      assert valid[k] in valid;
      forall j | 0 <= j < |items| && items[j].Str?
        ensures TypeScore(items[j].s) <= TypeScore(valid[k])
      {
        assert items[j] == Str(items[j].s);
        var m :| 0 <= m < |valid| && valid[m] == items[j].s;
      }
    }
  }

  /** On ties `max` keeps the first: the chosen type occurs at a position
      before which every string of the list scores strictly lower. */
  lemma {:induction false} StreetTypeFirstOnTies(items: seq<Scalar>)
    requires exists i :: 0 <= i < |items| && items[i].Str?
    ensures exists i :: (0 <= i < |items| && items[i] == Str(ExtractStreetType(Many(items)))
      && forall j :: 0 <= j < i && items[j].Str? ==>
           TypeScore(items[j].s) < TypeScore(ExtractStreetType(Many(items))))
  {
    var valid := Strings(items);
    var i0 :| 0 <= i0 < |items| && items[i0].Str?;
    assert items[i0] == Str(items[i0].s);
    assert |valid| > 0;
    var k := Seqs.ArgMaxFirst(valid, TypeScore);
    var t := ExtractStreetType(Many(items));
    assert t == valid[k];
    StringsPosition(items, k);
    var i :| 0 <= i < |items| && items[i] == Str(valid[k]) && Strings(items[..i]) == valid[..k];
    forall j | 0 <= j < i && items[j].Str?
      ensures TypeScore(items[j].s) < TypeScore(t)
    {
      assert items[..i][j] == Str(items[j].s);
      assert items[j].s in Strings(items[..i]);
      var m :| 0 <= m < k && valid[m] == items[j].s;
    }
  }

  /** The `k`-th string of a list sits at a position before which the list
      holds exactly the first `k` strings. */
  lemma {:induction false} StringsPosition(items: seq<Scalar>, k: nat)
    requires k < |Strings(items)|
    ensures exists i :: (0 <= i < |items| && items[i] == Str(Strings(items)[k])
      && Strings(items[..i]) == Strings(items)[..k])
  {
    var n := |items|;
    var init := items[..n - 1];
    var last := items[n - 1];
    var before := Strings(init);
    if last.Str? && k == |before| {
      assert Strings(items) == before + [last.s];
      assert items[..n - 1] == init;
      assert Strings(items)[..k] == before;
    } else {
      assert k < |before| by {
        if !last.Str? {
          assert Strings(items) == before;
        } else {
          assert Strings(items) == before + [last.s];
        }
      }
      assert Strings(items)[k] == before[k] && Strings(items)[..k] == before[..k] by {
        if !last.Str? {
          assert Strings(items) == before;
        } else {
          assert Strings(items) == before + [last.s];
        }
      }
      StringsPosition(init, k);
      var i :| 0 <= i < |init| && init[i] == Str(before[k]) && Strings(init[..i]) == before[..k];
      assert init[..i] == items[..i];
    }
  }

  /** A road type not in the table, "" included, is medium-capacity and
      scores 3. */
  lemma {:induction false} UnknownType(t: string)
    requires t !in StreetClassifications
    ensures GetStreetClassification(Some(t)) == Some(DefaultClassification)
    ensures GetStreetScore(GetStreetClassification(Some(t))) == 3.0
  {
  }
}
