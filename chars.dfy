/**
 * ASCII character classes as Python's string methods and regular-expression
 * classes see them, plus the digit-string and whitespace-stripping helpers the
 * validator builds on.
 */
module Chars {

  predicate IsUpper(c: char) { 'A' <= c <= 'Z' }
  predicate IsLower(c: char) { 'a' <= c <= 'z' }
  predicate IsLetter(c: char) { IsUpper(c) || IsLower(c) }
  predicate IsDigit(c: char) { '0' <= c <= '9' }
  predicate IsUpperOrDigit(c: char) { IsUpper(c) || IsDigit(c) }
  predicate IsNotLower(c: char) { !IsLower(c) }

  /** Python's whitespace (`str.isspace`, `str.strip`, the regex class `\s`)
      on ASCII: tab, line feed, vertical tab, form feed, carriage return
      (9-13), the four information separators (28-31) and space (32). */
  predicate IsSpace(c: char) { 9 <= c as int <= 13 || 28 <= c as int <= 32 }

  /** ASCII upper-casing, the case folding `re.IGNORECASE` applies to ASCII. */
  function ToUpper(c: char): char {
    if IsLower(c) then (c as int - 32) as char else c
  }

  /** Every character of `s` satisfies `p`. */
  predicate AllChars(s: string, p: char -> bool) {
    s == [] || (p(s[0]) && AllChars(s[1..], p))
  }

  /** Some character of `s` satisfies `p`. */
  predicate AnyChar(s: string, p: char -> bool) {
    s != [] && (p(s[0]) || AnyChar(s[1..], p))
  }

  lemma {:induction false} AllCharsSpec(s: string, p: char -> bool)
    ensures AllChars(s, p) <==> forall i :: 0 <= i < |s| ==> p(s[i])
  {
    if s != [] {
      AllCharsSpec(s[1..], p);
      assert forall i :: 1 <= i < |s| ==> s[i] == s[1..][i - 1];
    }
  }

  lemma {:induction false} AnyCharSpec(s: string, p: char -> bool)
    ensures AnyChar(s, p) <==> exists i :: 0 <= i < |s| && p(s[i])
  {
    if s != [] {
      AnyCharSpec(s[1..], p);
      if !p(s[0]) && (exists i :: 0 <= i < |s| && p(s[i])) {
        var i :| 0 <= i < |s| && p(s[i]);
        assert s[1..][i - 1] == s[i];
      }
    }
  }

  lemma AllCharsAppend(a: string, b: string, p: char -> bool)
    ensures AllChars(a + b, p) <==> AllChars(a, p) && AllChars(b, p)
  {
    AllCharsSpec(a, p);
    AllCharsSpec(b, p);
    AllCharsSpec(a + b, p);
    if AllChars(a, p) && AllChars(b, p) {
      forall i | 0 <= i < |a + b| ensures p((a + b)[i]) {
        if i >= |a| { assert (a + b)[i] == b[i - |a|]; }
      }
    }
    if AllChars(a + b, p) {
      forall i | 0 <= i < |a| ensures p(a[i]) { assert (a + b)[i] == a[i]; }
      forall i | 0 <= i < |b| ensures p(b[i]) { assert (a + b)[|a| + i] == b[i]; }
    }
  }

  /** Splitting off the last character. */
  lemma AllCharsInit(s: string, p: char -> bool)
    requires s != []
    ensures AllChars(s, p) <==> AllChars(s[..|s| - 1], p) && p(s[|s| - 1])
  {
    AllCharsAppend(s[..|s| - 1], [s[|s| - 1]], p);
    assert s == s[..|s| - 1] + [s[|s| - 1]];
  }

  function DigitValue(c: char): int { c as int - '0' as int }

  /** The value of a string of decimal digits, most significant first, as
      Python's `int` reads it. */
  function DigitsValue(s: string): nat
    requires AllChars(s, IsDigit)
  {
    if s == [] then 0
    else
      AllCharsInit(s, IsDigit);
      DigitsValue(s[..|s| - 1]) * 10 + DigitValue(s[|s| - 1])
  }

  /** Appending a digit multiplies the value by ten and adds the digit. */
  lemma DigitsValueSnoc(s: string, c: char)
    requires AllChars(s, IsDigit) && IsDigit(c)
    ensures AllChars(s + [c], IsDigit) && DigitsValue(s + [c]) == DigitsValue(s) * 10 + DigitValue(c)
  {
    AllCharsInit(s + [c], IsDigit);
    assert (s + [c])[..|s|] == s;
  }

  function Pow10(n: nat): (r: nat)
    ensures r >= 1
  {
    if n == 0 then 1 else 10 * Pow10(n - 1)
  }

  /** A leading digit contributes its value times ten to the number of digits after it. */
  lemma {:induction false} DigitsValueCons(c: char, s: string)
    requires IsDigit(c) && AllChars(s, IsDigit)
    ensures AllChars([c] + s, IsDigit)
    ensures DigitsValue([c] + s) == DigitValue(c) * Pow10(|s|) + DigitsValue(s)
  {
    if s == [] {
      DigitsValueSnoc([], c);
      assert [] + [c] == [c] + s;
    } else {
      var init, last := s[..|s| - 1], s[|s| - 1];
      assert s == init + [last];
      AllCharsInit(s, IsDigit);
      DigitsValueCons(c, init);
      DigitsValueSnoc([c] + init, last);
      DigitsValueSnoc(init, last);
      assert ([c] + init) + [last] == [c] + s;
      var d, p, v, l := DigitValue(c), Pow10(|init|), DigitsValue(init), DigitValue(last);
      assert Pow10(|s|) == 10 * p;
      ShiftDigit(d, p, v, l);
    }
  }

  lemma ShiftDigit(d: int, p: int, v: int, l: int)
    ensures (d * p + v) * 10 + l == d * (10 * p) + (v * 10 + l)
  {
  }

  /** `k` copies of `c`. */
  function Repeat(c: char, k: nat): (r: string)
    ensures |r| == k
  {
    if k == 0 then [] else Repeat(c, k - 1) + [c]
  }

  /** A run of `k` equal digits `c` is worth `c` times 11...1 (k ones). */
  lemma {:induction false} RepeatValue(c: char, k: nat)
    requires IsDigit(c)
    ensures AllChars(Repeat(c, k), IsDigit)
    ensures 9 * DigitsValue(Repeat(c, k)) == DigitValue(c) * (Pow10(k) - 1)
  {
    if k > 0 {
      RepeatValue(c, k - 1);
      DigitsValueSnoc(Repeat(c, k - 1), c);
      NinesStep(DigitValue(c), Pow10(k - 1));
    }
  }

  lemma NinesStep(d: int, p: int)
    ensures d * (10 * p - 1) == 10 * (d * (p - 1)) + 9 * d
  {
  }

  /** The shortest decimal spelling of `n` ("0" for zero). */
  function NatDigits(n: nat): (r: string)
    ensures r != [] && AllChars(r, IsDigit)
    ensures DigitsValue(r) == n
    decreases n
  {
    var last := [(n % 10 + '0' as int) as char];
    AllCharsSpec(last, IsDigit);
    if n < 10 then last
    else
      var r := NatDigits(n / 10) + last;
      AllCharsAppend(NatDigits(n / 10), last, IsDigit);
      assert r[..|r| - 1] == NatDigits(n / 10);
      r
  }

  /** `s` with zeros prepended up to `width` characters. */
  function PadZeros(s: string, width: nat): (r: string)
    requires AllChars(s, IsDigit)
    ensures AllChars(r, IsDigit) && |r| >= width && |r| >= |s|
    ensures DigitsValue(r) == DigitsValue(s)
    decreases width - |s|
  {
    if |s| >= width then s
    else
      AllCharsAppend("0", s, IsDigit);
      LeadingZero(s);
      PadZeros("0" + s, width)
  }

  lemma {:induction false} LeadingZero(s: string)
    requires AllChars(s, IsDigit)
    ensures AllChars("0" + s, IsDigit) && DigitsValue("0" + s) == DigitsValue(s)
  {
    AllCharsAppend("0", s, IsDigit);
    if s != [] {
      var init := s[..|s| - 1];
      AllCharsSpec(s, IsDigit);
      AllCharsSpec(init, IsDigit);
      LeadingZero(init);
      assert ("0" + s)[..|s|] == "0" + init;
    }
  }

  /** Python's `str.strip()` with no argument: leading and trailing whitespace removed. */
  function Strip(s: string): string {
    StripEnd(StripStart(s))
  }

  function StripStart(s: string): (r: string)
    ensures r == [] || !IsSpace(r[0])
  {
    if s != [] && IsSpace(s[0]) then StripStart(s[1..]) else s
  }

  function StripEnd(s: string): string {
    if s != [] && IsSpace(s[|s| - 1]) then StripEnd(s[..|s| - 1]) else s
  }

  /** A string strips to nothing exactly when it is all whitespace. */
  lemma {:induction false} StripEmptyIff(s: string)
    ensures Strip(s) == [] <==> AllChars(s, IsSpace)
  {
    StripStartEmptyIff(s);
    StripEndEmpty(StripStart(s));
  }

  lemma {:induction false} StripStartEmptyIff(s: string)
    ensures StripStart(s) == [] <==> AllChars(s, IsSpace)
  {
    if s != [] && IsSpace(s[0]) { StripStartEmptyIff(s[1..]); }
  }

  /** StripEnd only empties a string that is empty already or starts with
      whitespace, so after StripStart it keeps a non-empty string. */
  lemma {:induction false} StripEndEmpty(s: string)
    requires s == [] || !IsSpace(s[0])
    ensures StripEnd(s) == [] <==> s == []
  {
    if s != [] && IsSpace(s[|s| - 1]) {
      assert |s| > 1;
      StripEndEmpty(s[..|s| - 1]);
    }
  }
}
