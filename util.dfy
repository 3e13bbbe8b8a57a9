/** util.py: reading the OpenStreetMap `width` tag, given in metres ("3.5",
    "10m"), in feet and inches ("9'", "9'6\"") or as a list of candidates. */
module Util {
  import opened Wrappers
  import opened PyValue
  import Text
  import opened Decimal
  import Seqs

  const FeetToM: real := 0.3048

  /** The index of the first non-whitespace position at or after `i`
      (the `\s*` of the feet pattern). */
  function SkipSpace(s: string, i: nat): (j: nat)
    requires i <= |s|
    ensures i <= j <= |s|
    ensures j < |s| ==> !Text.IsSpace(s[j])
    decreases |s| - i
  {
    if i < |s| && Text.IsSpace(s[i]) then SkipSpace(s, i + 1) else i
  }

  /** The optional inches group `\s*(\d+(?:\.\d+)?)"` at position `i`. */
  function InchesAt(s: string, i: nat): (r: Option<real>)
    requires i <= |s|
    ensures r.Some? ==> r.value >= 0.0
  {
    var j := SkipSpace(s, i);
    if j < |s| && IsDigit(s[j]) then
      var n := NumberAt(s, j);
      if n.end < |s| && s[n.end] == '"' then Some(n.value) else None
    else None
  }

  /** `re.match(r"(\d+(?:\.\d+)?)'(?:\s*(\d+(?:\.\d+)?)\")?", s)`: feet at the
      very start, then optionally inches; the width in metres. */
  function FeetPattern(s: string): (r: Option<real>)
    ensures r.Some? ==> r.value >= 0.0
  {
    if |s| > 0 && IsDigit(s[0]) then
      var feet := NumberAt(s, 0);
      if feet.end < |s| && s[feet.end] == '\'' then
        var inches := InchesAt(s, feet.end + 1).GetOr(0.0);
        Some((feet.value + inches / 12.0) * FeetToM)
      else None
    else None
  }

  /** `_parse_single_width` on text already converted by `str(value).strip()`. */
  function WidthFromText(s: string): (r: Option<real>)
    ensures r.Some? ==> r.value >= 0.0
  {
    if '\'' in s then
      match FeetPattern(s)
      case Some(m) => Some(m)
      case None =>
        match FirstNumber(s)
        case Some(n) => Some(n * FeetToM)
        case None => None
    else
      FirstNumber(s)
  }

  /** `_parse_single_width`: None and NaN are missing; an int is rendered by
      `str` as an optional sign and its digits, of which the regex reads the
      digits; a float is read as its magnitude (its rendering in scientific
      notation is not modelled); a string is stripped and parsed. */
  function ParseSingleWidth(v: Scalar): (r: Option<real>)
    ensures r.Some? ==> r.value >= 0.0
    ensures v.Null? || v.NaN? ==> r.None?
  {
    match v
    case Null => None
    case NaN => None
    case Int(i) => Some(if i < 0 then -i as real else i as real)
    case Float(x) => Some(if x < 0.0 then -x else x)
    case Str(t) => WidthFromText(Text.Strip(t))
  }

  /** What `extract_width` returns: for a list the largest width among the
      items that parse, otherwise the width of the single value. */
  function Widest(value: Value): Option<real> {
    match value
    case Many(items) => Seqs.MaxParsed(items, ParseSingleWidth)
    case One(v) => ParseSingleWidth(v)
  }

  /** `extract_width`: the loop over a list collects the widths that parse,
      then takes their maximum. */
  method ExtractWidth(value: Value) returns (w: Option<real>)
    ensures w == Widest(value)
  {
    match value {
      case Many(items) =>
        var widths: seq<real> := [];
        for k := 0 to |items|
          invariant widths == Seqs.Present(Seqs.Parsed(items[..k], ParseSingleWidth))
        {
          var width := ParseSingleWidth(items[k]);
          Seqs.PresentParsedStep(items, ParseSingleWidth, k);
          if width.Some? {
            widths := widths + [width.value];
          }
        }
        assert items[..|items|] == items;
        w := Seqs.MaxOf(widths);
      case One(v) =>
        if v.Null? || v.NaN? {
          return None;
        }
        w := ParseSingleWidth(v);
    }
  }

  /** A list width is the largest of the items that parse: items that do not
      parse are dropped, and a list with none that parses (or an empty list)
      is missing. Any width found is non-negative. */
  lemma {:induction false} WidestOfList(items: seq<Scalar>)
    ensures Widest(Many(items)).None? <==> forall i :: 0 <= i < |items| ==> ParseSingleWidth(items[i]).None?
    ensures Widest(Many(items)).Some? ==>
      (exists i :: 0 <= i < |items| && ParseSingleWidth(items[i]) == Widest(Many(items)))
    ensures Widest(Many(items)).Some? ==>
      forall i :: 0 <= i < |items| && ParseSingleWidth(items[i]).Some? ==>
        ParseSingleWidth(items[i]).value <= Widest(Many(items)).value
    ensures Widest(Many(items)).Some? ==> Widest(Many(items)).value >= 0.0
  {
    Seqs.MaxParsedIs(items, ParseSingleWidth);
  }

  /** Text with no digit has no width. */
  lemma {:induction false} NoDigitNoWidth(t: string)
    requires !HasDigit(t)
    ensures ParseSingleWidth(Str(t)) == None
  {
    var s := Text.Strip(t);
    forall i | 0 <= i < |s|
      ensures !IsDigit(s[i])
    {
      assert s[i] in t;
    }
  }

  /** Text without an apostrophe is read as metres: the first unsigned
      decimal number, whatever unit text follows it. */
  lemma {:induction false} MetresFirstNumber(t: string)
    requires '\'' !in Text.Strip(t)
    ensures ParseSingleWidth(Str(t)) == FirstNumber(Text.Strip(t))
  {
  }

  /** The feet pattern on text that starts with a whole number of feet. */
  lemma {:induction false} FeetPatternWhole(s: string, j: nat)
    requires 0 < j < |s|
    requires forall k :: 0 <= k < j ==> IsDigit(s[k])
    requires s[j] == '\''
    ensures FeetPattern(s) == Some((DigitsValue(s[..j]) as real + InchesAt(s, j + 1).GetOr(0.0) / 12.0) * FeetToM)
  {
    NumberAtWhole(s, 0, j);
    assert s[0..j] == s[..j];
  }

  /** `F'` gives F feet in metres. */
  lemma {:induction false} FeetOnly(d: string)
    requires |d| > 0 && AllDigits(d)
    ensures ParseSingleWidth(Str(d + "'")) == Some(DigitsValue(d) as real * FeetToM)
  {
    var s := d + "'";
    assert s[..|d|] == d;
    forall k | 0 <= k < |d| ensures IsDigit(s[k]) { assert s[k] == d[k]; }
    assert s[|d|] == '\'';
    Text.StripNoSpace(s);
    FeetPatternWhole(s, |d|);
    assert SkipSpace(s, |d| + 1) == |s|;
  }

  /** The feet pattern on text of the shape digits, apostrophe, digits,
      double quote. */
  lemma {:induction false} FeetInchesPattern(s: string, j: nat, k: nat)
    requires 0 < j && j + 1 < k < |s|
    requires forall x :: 0 <= x < j ==> IsDigit(s[x])
    requires forall x :: j + 1 <= x < k ==> IsDigit(s[x])
    requires s[j] == '\'' && s[k] == '"'
    ensures FeetPattern(s)
         == Some((DigitsValue(s[..j]) as real + DigitsValue(s[j + 1..k]) as real / 12.0) * FeetToM)
  {
    FeetPatternWhole(s, j);
    NumberAtWhole(s, j + 1, k);
    assert SkipSpace(s, j + 1) == j + 1;
  }

  /** Text of the shape digits, apostrophe, digits, double quote is read
      by the feet pattern. */
  lemma {:induction false} FeetInchesText(s: string, j: nat, k: nat, d: string, e: string)
    requires 0 < j && j + 1 < k && k + 1 == |s|
    requires forall x :: 0 <= x < j ==> IsDigit(s[x])
    requires forall x :: j + 1 <= x < k ==> IsDigit(s[x])
    requires s[j] == '\'' && s[k] == '"'
    requires s[..j] == d && s[j + 1..k] == e
    ensures ParseSingleWidth(Str(s))
         == Some((DigitsValue(d) as real + DigitsValue(e) as real / 12.0) * FeetToM)
  {
    FeetInchesPattern(s, j, k);
    Text.StripNoSpace(s);
  }

  /** `F'I"` gives F + I/12 feet in metres. */
  lemma {:induction false} FeetAndInches(d: string, e: string)
    requires |d| > 0 && AllDigits(d) && |e| > 0 && AllDigits(e)
    ensures ParseSingleWidth(Str(d + "'" + e + "\""))
         == Some((DigitsValue(d) as real + DigitsValue(e) as real / 12.0) * FeetToM)
  {
    var s := d + "'" + e + "\"";
    var j, k := |d|, |d| + 1 + |e|;
    forall x | 0 <= x < j ensures s[x] == d[x] && IsDigit(s[x]) {}
    forall x | j + 1 <= x < k ensures s[x] == e[x - j - 1] && IsDigit(s[x]) {}
    assert s[..j] == d;
    assert s[j + 1..k] == e;
    FeetInchesText(s, j, k, d, e);
  }

  /** `first_if_list`: every non-empty list becomes its first element; every
      other value, the empty list included, is left as it is. */
  function FirstIfList(series: seq<Value>): (r: seq<Value>)
    ensures |r| == |series|
    ensures forall i :: 0 <= i < |series| && series[i].Many? && |series[i].items| > 0 ==>
      r[i] == One(series[i].items[0])
    ensures forall i :: 0 <= i < |series| && !(series[i].Many? && |series[i].items| > 0) ==>
      r[i] == series[i]
  {
    seq(|series|, i requires 0 <= i < |series| =>
      if series[i].Many? && |series[i].items| > 0 then One(series[i].items[0]) else series[i])
  }

  /** After `first_if_list` no non-empty list remains, so applying it twice
      is the same as once. */
  lemma {:induction false} FirstIfListIdempotent(series: seq<Value>)
    ensures forall i :: 0 <= i < |series| ==> !(FirstIfList(series)[i].Many? && |FirstIfList(series)[i].items| > 0)
    ensures FirstIfList(FirstIfList(series)) == FirstIfList(series)
  {
  }
}
