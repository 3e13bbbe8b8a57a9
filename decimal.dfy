/** Reading numbers out of text, as the scoring code does it with Python's
    `re` module, Python's `float()` and JavaScript's `parseInt`. Only ASCII
    decimal digits are recognised; the grammar of `float()` is restricted to
    the decimal subset `[+-]?\d+(\.\d+)?`. */
module Decimal {
  import opened Wrappers

  predicate IsDigit(c: char) { '0' <= c <= '9' }

  predicate AllDigits(s: string) { forall i :: 0 <= i < |s| ==> IsDigit(s[i]) }

  predicate HasDigit(s: string) { exists i :: 0 <= i < |s| && IsDigit(s[i]) }

  function DigitVal(c: char): nat
    requires IsDigit(c)
  {
    c as int - '0' as int
  }

  /** The value of a run of decimal digits, most significant first. */
  function DigitsValue(s: string): nat
    requires AllDigits(s)
  {
    if |s| == 0 then 0 else 10 * DigitsValue(s[..|s| - 1]) + DigitVal(s[|s| - 1])
  }

  function Pow10(n: nat): (p: nat)
    ensures p >= 1
  {
    if n == 0 then 1 else 10 * Pow10(n - 1)
  }

  /** The value of the digits after a decimal point. */
  function FractionValue(s: string): (f: real)
    requires AllDigits(s)
    ensures f >= 0.0
  {
    DigitsValue(s) as real / Pow10(|s|) as real
  }

  /** The end of the longest digit run starting at `i`. */
  function DigitRunEnd(s: string, i: nat): (j: nat)
    requires i <= |s|
    ensures i <= j <= |s|
    ensures forall k :: i <= k < j ==> IsDigit(s[k])
    ensures j < |s| ==> !IsDigit(s[j])
    decreases |s| - i
  {
    if i < |s| && IsDigit(s[i]) then DigitRunEnd(s, i + 1) else i
  }

  /** A digit run that stops at the end of the text or at a non-digit is
      what `DigitRunEnd` finds. */
  lemma {:induction false} DigitRunEndIs(s: string, i: nat, j: nat)
    requires i <= j <= |s|
    requires forall k :: i <= k < j ==> IsDigit(s[k])
    requires j < |s| ==> !IsDigit(s[j])
    ensures DigitRunEnd(s, i) == j
    decreases j - i
  {
    if i < j {
      DigitRunEndIs(s, i + 1, j);
    }
  }

  /** One match of the regular expression `\d+(?:\.\d+)?`: its value and the
      index just past it. */
  datatype Token = Token(value: real, end: nat)

  /** The greedy match of `\d+(?:\.\d+)?` at a position holding a digit. */
  function NumberAt(s: string, i: nat): (t: Token)
    requires i < |s| && IsDigit(s[i])
    ensures i < t.end <= |s|
    ensures t.value >= 0.0
    ensures t.end < |s| ==> !IsDigit(s[t.end])
  {
    var j := DigitRunEnd(s, i);
    var whole := DigitsValue(s[i..j]) as real;
    if j + 1 < |s| && s[j] == '.' && IsDigit(s[j + 1]) then
      var k := DigitRunEnd(s, j + 1);
      Token(whole + FractionValue(s[j + 1..k]), k)
    else
      Token(whole, j)
  }

  /** The first index at or after `from` that holds a digit. */
  function FirstDigit(s: string, from: nat): (k: Option<nat>)
    requires from <= |s|
    ensures k.Some? ==> from <= k.value < |s| && IsDigit(s[k.value])
    ensures k.Some? ==> forall i :: from <= i < k.value ==> !IsDigit(s[i])
    ensures k.None? ==> forall i :: from <= i < |s| ==> !IsDigit(s[i])
    decreases |s| - from
  {
    if from == |s| then None
    else if IsDigit(s[from]) then Some(from)
    else FirstDigit(s, from + 1)
  }

  /** `re.search(r"\d+(?:\.\d+)?", s)`: the leftmost match, read as a number.
      No pattern accepts a sign, so the value is never negative. */
  function FirstNumber(s: string): (r: Option<real>)
    ensures r.None? <==> !HasDigit(s)
    ensures r.Some? ==> r.value >= 0.0
  {
    match FirstDigit(s, 0)
    case None => None
    case Some(k) => Some(NumberAt(s, k).value)
  }

  /** The match at `i` when `s[i..j]` is a maximal digit run not followed by
      a point: a whole number. */
  lemma {:induction false} NumberAtWhole(s: string, i: nat, j: nat)
    requires i < j <= |s|
    requires forall k :: i <= k < j ==> IsDigit(s[k])
    requires j < |s| ==> !IsDigit(s[j]) && s[j] != '.'
    ensures NumberAt(s, i) == Token(DigitsValue(s[i..j]) as real, j)
  {
    DigitRunEndIs(s, i, j);
  }

  /** A text that starts with a whole number followed by anything that can
      not continue the number reads as that number. */
  lemma {:induction false} WholeNumberFirst(d: string, rest: string)
    requires |d| > 0 && AllDigits(d)
    requires |rest| > 0 ==> !IsDigit(rest[0]) && rest[0] != '.'
    ensures FirstNumber(d + rest) == Some(DigitsValue(d) as real)
  {
    var s := d + rest;
    DigitRunEndIs(s, 0, |d|);
    assert s[0..|d|] == d;
  }

  /** Python's `float()` on text without a sign. */
  function ParseUnsigned(t: string): (r: Option<real>)
    ensures r.Some? ==> r.value >= 0.0 && HasDigit(t)
  {
    if |t| > 0 && IsDigit(t[0]) && NumberAt(t, 0).end == |t| then Some(NumberAt(t, 0).value)
    else None
  }

  /** Python's `float()` on already-stripped text, over the decimal subset
      `[+-]?\d+(\.\d+)?`; anything else is the ValueError path, `None`. */
  function ParseFloat(t: string): (r: Option<real>)
    ensures r.Some? ==> HasDigit(t)
  {
    if |t| > 0 && (t[0] == '+' || t[0] == '-') then
      match ParseUnsigned(t[1..])
      case None => None
      case Some(v) =>
        assert HasDigit(t) by {
          var i :| 0 <= i < |t[1..]| && IsDigit(t[1..][i]);
          assert IsDigit(t[i + 1]);
        }
        Some(if t[0] == '-' then -v else v)
    else
      ParseUnsigned(t)
  }

  /** A plain run of digits is read as its value. */
  lemma {:induction false} ParseFloatDigits(d: string)
    requires |d| > 0 && AllDigits(d)
    ensures ParseFloat(d) == Some(DigitsValue(d) as real)
  {
    DigitRunEndIs(d, 0, |d|);
    assert d[0..|d|] == d;
  }

  /** The characters JavaScript's `parseInt` skips before a number: the
      ECMAScript WhiteSpace characters (tab, vertical tab, form feed, the
      byte order mark and the space separators of category Zs) and the
      LineTerminator characters (line feed, carriage return, U+2028 and
      U+2029). Unlike Python's `isspace`, U+001C to U+001F are not among
      them. */
  predicate IsJsSpace(c: char) {
    || c == '\t' || c == '\n' || c == '\U{B}' || c == '\U{C}' || c == '\r'
    || c == ' ' || c == '\U{A0}' || c == '\U{1680}' || ('\U{2000}' <= c <= '\U{200A}')
    || c == '\U{2028}' || c == '\U{2029}' || c == '\U{202F}' || c == '\U{205F}'
    || c == '\U{3000}' || c == '\U{FEFF}'
  }

  /** The text after the leading JavaScript whitespace. */
  function JsTrimStart(s: string): (r: string)
    ensures |r| <= |s| && r == s[|s| - |r|..]
    ensures |r| > 0 ==> !IsJsSpace(r[0])
    ensures forall i :: 0 <= i < |s| - |r| ==> IsJsSpace(s[i])
  {
    if |s| > 0 && IsJsSpace(s[0]) then JsTrimStart(s[1..]) else s
  }

  /** JavaScript's `parseInt(s)` for decimal text: skip leading whitespace,
      take an optional sign and the longest run of digits; no digit is NaN,
      modelled as `None`. */
  function ParseIntPrefix(s: string): (r: Option<int>)
    ensures r.Some? ==> HasDigit(s)
  {
    var t := JsTrimStart(s);
    var signed := |t| > 0 && (t[0] == '+' || t[0] == '-');
    var u := if signed then t[1..] else t;
    var j := DigitRunEnd(u, 0);
    if j == 0 then None
    else
      assert IsDigit(u[0]);
      assert HasDigit(s) by {
        var off := |s| - |t| + (if signed then 1 else 0);
        assert s[off] == u[0];
      }
      var n: int := DigitsValue(u[..j]);
      Some(if signed && t[0] == '-' then -n else n)
  }

  /** `parseInt` reads the leading digits of a text such as "25 mph" and
      ignores whatever follows them. */
  lemma {:induction false} ParseIntDigits(d: string, rest: string)
    requires |d| > 0 && AllDigits(d)
    requires |rest| > 0 ==> !IsDigit(rest[0])
    ensures ParseIntPrefix(d + rest) == Some(DigitsValue(d) as int)
  {
    var s := d + rest;
    assert !IsJsSpace(s[0]);
    assert JsTrimStart(s) == s;
    DigitRunEndIs(s, 0, |d|);
    assert s[..|d|] == d;
  }

  /** `parseInt` skips JavaScript whitespace such as a no-break space. */
  lemma {:induction false} ParseIntSkipsNoBreakSpace()
    ensures ParseIntPrefix("\U{A0}25") == Some(25)
  {
    var s := "\U{A0}25";
    assert IsJsSpace(s[0]) && s[1..] == "25";
    assert !IsJsSpace('2');
    assert JsTrimStart("25") == "25";
    assert JsTrimStart(s) == "25";
    DigitRunEndIs("25", 0, 2);
    assert "25"[..2] == "25";
    assert DigitsValue("25") == 25 by {
      assert "25"[..1] == "2";
    }
  }

  /** An information separator (U+001C), which Python's `isspace` accepts,
      is not JavaScript whitespace: it stops `parseInt` before any digit, so
      the text reads as NaN. */
  lemma {:induction false} ParseIntStopsAtSeparator()
    ensures ParseIntPrefix("\U{1C}25") == None
  {
    var s := "\U{1C}25";
    assert !IsJsSpace(s[0]);
    assert JsTrimStart(s) == s;
    DigitRunEndIs(s, 0, 0);
  }
}
