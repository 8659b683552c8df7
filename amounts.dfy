/**
 * The `amount` field is text. The validator reads it with Python's `float()`;
 * this module reads the plain decimal subset of what `float()` accepts into an
 * exact decimal, and measures the text after the first '.' the way
 * `amount.split('.')[1]` does.
 */
module Amounts {
  import opened Wrappers
  import opened Chars

  /** The exact value units / 10^scale. */
  datatype Decimal = Decimal(units: int, scale: nat)

  function Value(d: Decimal): real {
    d.units as real / Pow10(d.scale) as real
  }

  /** Index of the first `c` in `s`, or |s| when there is none. */
  function IndexOf(s: string, c: char): (i: nat)
    ensures i <= |s|
    ensures i < |s| ==> s[i] == c
    ensures forall j :: 0 <= j < i ==> s[j] != c
    ensures c in s <==> i < |s|
  {
    if s == [] then 0
    else if s[0] == c then 0
    else
      var k := 1 + IndexOf(s[1..], c);
      assert forall j :: 1 <= j < |s| ==> s[j] == s[1..][j - 1];
      k
  }

  /** `float(s)` restricted to an optional sign followed by digits with at
      most one '.', and at least one digit ("5", "-5", "5.", ".5", "10000.00").
      Every other text is unparseable. */
  function ParseAmount(s: string): Option<Decimal> {
    var signed := s != [] && (s[0] == '+' || s[0] == '-');
    var body := if signed then s[1..] else s;
    var dot := IndexOf(body, '.');
    var whole := body[..dot];
    var frac := if dot < |body| then body[dot + 1..] else [];
    if AllChars(whole, IsDigit) && AllChars(frac, IsDigit) && |whole| + |frac| > 0 then
      AllCharsAppend(whole, frac, IsDigit);
      var magnitude: int := DigitsValue(whole + frac);
      Some(Decimal(if signed && s[0] == '-' then -magnitude else magnitude, |frac|))
    else
      None
  }

  /** `len(s.split('.')[1])`: the length of the text between the first '.'
      and the next '.' (or the end). */
  function DecimalPlaces(s: string): nat
    requires '.' in s
  {
    var rest := s[IndexOf(s, '.') + 1..];
    IndexOf(rest, '.')
  }

  /** The canonical spelling of a decimal: a '-' for negative values, at least
      one digit before the point, exactly `scale` digits after it. */
  function Format(d: Decimal): string {
    if d.units < 0 then "-" + UnsignedText(d) else UnsignedText(d)
  }

  /** The digits of |units|, zero-padded to more than `scale` digits. */
  function ScaledDigits(d: Decimal): (r: string)
    ensures AllChars(r, IsDigit) && |r| > d.scale
    ensures DigitsValue(r) == if d.units < 0 then -d.units else d.units
  {
    PadZeros(NatDigits(if d.units < 0 then -d.units else d.units), d.scale + 1)
  }

  function UnsignedText(d: Decimal): string {
    var digits := ScaledDigits(d);
    var cut := |digits| - d.scale;
    digits[..cut] + (if d.scale > 0 then "." + digits[cut..] else "")
  }

  /** Reading back the canonical spelling gives the same decimal. */
  lemma FormatParseRoundTrip(d: Decimal)
    ensures ParseAmount(Format(d)) == Some(d)
  {
    var digits := ScaledDigits(d);
    var cut := |digits| - d.scale;
    var whole, frac := digits[..cut], digits[cut..];
    assert whole + frac == digits;
    AllCharsAppend(whole, frac, IsDigit);
    ParseUnsigned(whole, frac, d.scale > 0);
    var body := whole + (if d.scale > 0 then "." + frac else "");
    assert UnsignedText(d) == body;
    assert ParseAmount(body) == Some(Decimal(DigitsValue(digits), d.scale));
    var n: int := DigitsValue(digits);
    if d.units < 0 {
      assert Format(d) == "-" + body;
      ParseNegated(body);
      assert ParseAmount(Format(d)) == Some(Decimal(-n, d.scale));
      assert -n == d.units;
    } else {
      assert Format(d) == body;
      assert n == d.units;
    }
  }

  lemma NoDotInDigits(s: string)
    requires AllChars(s, IsDigit)
    ensures IndexOf(s, '.') == |s| && '.' !in s
  {
    AllCharsSpec(s, IsDigit);
  }

  /** Parsing digits `whole`, then optionally '.' and digits `frac`. */
  lemma ParseUnsigned(whole: string, frac: string, dot: bool)
    requires whole != [] && AllChars(whole, IsDigit) && AllChars(frac, IsDigit)
    requires !dot ==> frac == []
    ensures AllChars(whole + frac, IsDigit)
    ensures var body := whole + (if dot then "." + frac else "");
      && body[0] != '+' && body[0] != '-'
      && ParseAmount(body) == Some(Decimal(DigitsValue(whole + frac), |frac|))
  {
    AllCharsAppend(whole, frac, IsDigit);
    AllCharsSpec(whole, IsDigit);
    var body := whole + (if dot then "." + frac else "");
    NoDotInDigits(whole);
    NoDotInDigits(frac);
    assert body[0] == whole[0];
    if dot {
      IndexOfAfter(whole, "." + frac, '.');
      assert body[..|whole|] == whole;
      assert body[|whole| + 1..] == frac;
    } else {
      assert body == whole;
    }
  }

  /** A leading '-' negates what the rest of the text parses to. */
  lemma ParseNegated(body: string)
    requires body != [] && body[0] != '+' && body[0] != '-'
    ensures ParseAmount("-" + body) ==
      match ParseAmount(body)
      case None => None
      case Some(d) => Some(Decimal(-d.units, d.scale))
  {
    assert ("-" + body)[1..] == body;
  }

  lemma IndexOfAfter(a: string, b: string, c: char)
    requires c !in a && b != [] && b[0] == c
    ensures IndexOf(a + b, c) == |a|
  {
    assert (a + b)[|a|] == c;
    forall j | 0 <= j < |a| ensures (a + b)[j] != c { assert (a + b)[j] == a[j]; }
  }

  /** For a parseable amount, the decimal places that `split('.')` counts are
      exactly the scale of the parsed decimal, and without a '.' the scale is 0. */
  lemma DecimalPlacesOfParsed(s: string)
    requires ParseAmount(s).Some?
    ensures '.' in s ==> DecimalPlaces(s) == ParseAmount(s).value.scale
    ensures '.' !in s ==> ParseAmount(s).value.scale == 0
  {
    var signed := s != [] && (s[0] == '+' || s[0] == '-');
    var body := if signed then s[1..] else s;
    var dot := IndexOf(body, '.');
    if dot < |body| {
      var frac := body[dot + 1..];
      NoDotInDigits(frac);
      if signed {
        assert s == s[..1] + body;
        IndexOfAfterPrefix(s[..1], body, '.');
        assert s[IndexOf(s, '.') + 1..] == frac;
      }
    } else if signed {
      assert forall j :: 1 <= j < |s| ==> s[j] == body[j - 1];
    }
  }

  lemma IndexOfAfterPrefix(a: string, b: string, c: char)
    requires c !in a
    ensures IndexOf(a + b, c) == |a| + IndexOf(b, c)
  {
    var i := IndexOf(b, c);
    forall j | 0 <= j < |a| ensures (a + b)[j] != c { assert (a + b)[j] == a[j]; }
    forall j | |a| <= j < |a| + i ensures (a + b)[j] != c { assert (a + b)[j] == b[j - |a|]; }
    if i < |b| { assert (a + b)[|a| + i] == b[i]; }
  }
}
