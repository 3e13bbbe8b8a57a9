/** Python's `max` over the numbers of a list and over a list with a key, and
    the filter that drops the values that did not parse. */
module Seqs {
  import opened Wrappers

  /** `[x for x in xs if not isnan(x)]`: the parsed values, in order. */
  function Present(os: seq<Option<real>>): (r: seq<real>)
    ensures |r| <= |os|
    ensures forall x :: x in r <==> Some(x) in os
  {
    if |os| == 0 then []
    else
      var init := Present(os[..|os| - 1]);
      var last := os[|os| - 1];
      assert os == os[..|os| - 1] + [last];
      if last.Some? then init + [last.value] else init
  }

  /** `max(xs) if xs else nan`. */
  function MaxOf(xs: seq<real>): (m: Option<real>)
    ensures m.None? <==> |xs| == 0
    ensures m.Some? ==> m.value in xs
    ensures m.Some? ==> forall i :: 0 <= i < |xs| ==> xs[i] <= m.value
  {
    if |xs| == 0 then None
    else
      match MaxOf(xs[..|xs| - 1])
      case None => Some(xs[0])
      case Some(b) =>
        var last := xs[|xs| - 1];
        assert xs == xs[..|xs| - 1] + [last];
        Some(if last > b then last else b)
  }

  /** The smallest value of a list, `None` for an empty one. */
  function MinOf(xs: seq<real>): (m: Option<real>)
    ensures m.None? <==> |xs| == 0
    ensures m.Some? ==> m.value in xs
    ensures m.Some? ==> forall i :: 0 <= i < |xs| ==> m.value <= xs[i]
  {
    if |xs| == 0 then None
    else
      match MinOf(xs[..|xs| - 1])
      case None => Some(xs[0])
      case Some(b) =>
        var last := xs[|xs| - 1];
        assert xs == xs[..|xs| - 1] + [last];
        Some(if last < b then last else b)
  }

  /** The largest of the values that parsed, or `None` when none did: it is
      one of them and no parsed value exceeds it. */
  lemma {:induction false} MaxOfPresent(os: seq<Option<real>>)
    ensures MaxOf(Present(os)).None? <==> forall i :: 0 <= i < |os| ==> os[i].None?
    ensures MaxOf(Present(os)).Some? ==>
      Some(MaxOf(Present(os)).value) in os &&
      forall i :: 0 <= i < |os| && os[i].Some? ==> os[i].value <= MaxOf(Present(os)).value
  {
    var p := Present(os);
    forall i | 0 <= i < |os| && os[i].Some?
      ensures os[i].value in p
    {
      assert Some(os[i].value) in os;
    }
    if MaxOf(p).Some? {
      var m := MaxOf(p).value;
      forall i | 0 <= i < |os| && os[i].Some?
        ensures os[i].value <= m
      {
        var k :| 0 <= k < |p| && p[k] == os[i].value;
      }
    }
  }

  /** `[parse(v) for v in items]`: the parse of each item, in order. */
  function Parsed<T>(items: seq<T>, parse: T -> Option<real>): (r: seq<Option<real>>)
    ensures |r| == |items|
    ensures forall i :: 0 <= i < |items| ==> r[i] == parse(items[i])
  {
    seq(|items|, i requires 0 <= i < |items| => parse(items[i]))
  }

  /** Parsing one more item appends its value to the parsed values when it
      parses, and appends nothing otherwise. */
  lemma {:induction false} PresentParsedStep<T>(items: seq<T>, parse: T -> Option<real>, k: nat)
    requires k < |items|
    ensures Present(Parsed(items[..k + 1], parse))
         == Present(Parsed(items[..k], parse)) + (if parse(items[k]).Some? then [parse(items[k]).value] else [])
  {
    var before := Parsed(items[..k], parse);
    var after := Parsed(items[..k + 1], parse);
    assert after == before + [parse(items[k])];
    assert after[..|after| - 1] == before;
  }

  /** The list branch shared by the tag normalisers: parse every item, drop
      the ones that did not parse and take the largest. */
  function MaxParsed<T>(items: seq<T>, parse: T -> Option<real>): Option<real> {
    MaxOf(Present(Parsed(items, parse)))
  }

  /** The list branch is missing exactly when no item parses; otherwise it is
      the parse of some item and no parsed item exceeds it. */
  lemma {:induction false} MaxParsedIs<T>(items: seq<T>, parse: T -> Option<real>)
    ensures MaxParsed(items, parse).None? <==> forall i :: 0 <= i < |items| ==> parse(items[i]).None?
    ensures MaxParsed(items, parse).Some? ==>
      exists i :: 0 <= i < |items| && parse(items[i]) == MaxParsed(items, parse)
    ensures MaxParsed(items, parse).Some? ==>
      forall i :: 0 <= i < |items| && parse(items[i]).Some? ==>
        parse(items[i]).value <= MaxParsed(items, parse).value
  {
    var parsed := Parsed(items, parse);
    MaxOfPresent(parsed);
    if MaxParsed(items, parse).Some? {
      var m := MaxParsed(items, parse).value;
      var i :| 0 <= i < |parsed| && parsed[i] == Some(m);
      assert parse(items[i]) == Some(m);
    }
  }

  /** `max(xs, key=key)`: the index of the first element whose key is
      largest. */
  function ArgMaxFirst<T>(xs: seq<T>, key: T -> real): (k: nat)
    requires |xs| > 0
    ensures k < |xs|
    ensures forall j :: 0 <= j < |xs| ==> key(xs[j]) <= key(xs[k])
    ensures forall j :: 0 <= j < k ==> key(xs[j]) < key(xs[k])
  {
    if |xs| == 1 then 0
    else
      var b := ArgMaxFirst(xs[..|xs| - 1], key);
      assert forall j :: 0 <= j < |xs| - 1 ==> xs[..|xs| - 1][j] == xs[j];
      if key(xs[|xs| - 1]) > key(xs[b]) then |xs| - 1 else b
  }

  /** The sum of a list of numbers, `sum(ws)`. */
  function Sum(ws: seq<real>): real {
    if |ws| == 0 then 0.0 else Sum(ws[..|ws| - 1]) + ws[|ws| - 1]
  }

  /** The sum of numbers between two bounds lies between the bounds times
      their count. */
  lemma {:induction false} SumBetween(ws: seq<real>, lo: real, hi: real)
    requires forall i :: 0 <= i < |ws| ==> lo <= ws[i] <= hi
    ensures |ws| as real * lo <= Sum(ws) <= |ws| as real * hi
  {
    if |ws| > 0 {
      SumBetween(ws[..|ws| - 1], lo, hi);
    }
  }

  /** A quotient of a positive divisor keeps the bounds its dividend has
      relative to the divisor. */
  lemma {:induction false} DivideBetween(x: real, n: real, lo: real, hi: real)
    requires n > 0.0 && n * lo <= x <= n * hi
    ensures lo <= x / n <= hi
  {
    assert x / n - lo == (x - n * lo) / n;
    assert hi - x / n == (n * hi - x) / n;
  }
}
