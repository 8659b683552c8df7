/**
 * What the validator's rules promise, stated over the specification
 * functions of module Validator (which its methods are proved against).
 */
module ValidatorProperties {
  import opened Wrappers
  import opened Chars
  import opened Amounts
  import opened Calendar
  import opened Config
  import opened SwiftModel
  import opened Validator

  // ---------------------------------------------------------------------
  // Each finding comes from its own rule family
  // ---------------------------------------------------------------------

  lemma RequiredFieldRules(m: SwiftMessage)
    ensures forall e :: e in RequiredFieldErrors(m) ==> e.Rule() == RequiredFieldsRule
  {
    MissingFieldsOnly(m, RequiredFields);
  }

  lemma BicErrorRules(m: SwiftMessage)
    ensures forall e :: e in BicErrors(m) ==> e.Rule() == BicRule
  {
  }

  lemma AmountErrorRules(m: SwiftMessage)
    ensures forall e :: e in AmountErrors(m) ==> e.Rule() == AmountRule
  {
    match ParseAmount(m.amount)
    case None =>
    case Some(d) => AmountLimitRules(m.amount, d);
  }

  lemma AmountLimitRules(text: string, d: Decimal)
    ensures forall e :: e in AmountLimitErrors(text, d) ==> e.Rule() == AmountRule
  {
  }

  lemma DateErrorRules(m: SwiftMessage)
    ensures forall e :: e in DateErrors(m) ==> e.Rule() == DateRule
  {
  }

  lemma TypeErrorRules(m: SwiftMessage)
    ensures forall e :: e in TypeErrors(m) ==> e.Rule() == MessageTypeRule
  {
  }

  lemma FormatErrorRules(m: SwiftMessage)
    ensures forall e :: e in FormatErrors(m) ==> e.Rule() == FormatRule
  {
  }

  lemma BicWarningRules(m: SwiftMessage)
    ensures forall w :: w in BicWarnings(m) ==> w.Rule() == BicRule
  {
  }

  lemma AmountWarningRules(m: SwiftMessage)
    ensures forall w :: w in AmountWarnings(m) ==> w.Rule() == AmountRule
  {
  }

  lemma DateWarningRules(m: SwiftMessage, now: Instant)
    ensures forall w :: w in DateWarnings(m, now) ==> w.Rule() == DateRule
  {
  }

  lemma TypeWarningRules(m: SwiftMessage)
    ensures forall w :: w in TypeWarnings(m) ==> w.Rule() == MessageTypeRule
  {
  }

  lemma RiskWarningRules(m: SwiftMessage)
    ensures forall w :: w in RiskWarnings(m) ==> w.Rule() == RiskRule
  {
    RiskWarningsOnly(m, RiskPatterns);
  }

  /** Counting `e` in a concatenation of the six error families. */
  lemma ErrorsSplit(m: SwiftMessage, e: ValidationError)
    ensures multiset(Errors(m))[e] == multiset(RequiredFieldErrors(m))[e] + multiset(BicErrors(m))[e]
      + multiset(AmountErrors(m))[e] + multiset(DateErrors(m))[e] + multiset(TypeErrors(m))[e]
      + multiset(FormatErrors(m))[e]
  {
  }

  /** Counting `w` in a concatenation of the five warning families. */
  lemma WarningsSplit(m: SwiftMessage, now: Instant, w: ValidationWarning)
    ensures w in Warnings(m, now) <==>
      w in BicWarnings(m) || w in AmountWarnings(m) || w in DateWarnings(m, now)
      || w in TypeWarnings(m) || w in RiskWarnings(m)
  {
  }

  /** A required-field error is counted only from the required-field check. */
  lemma RequiredErrorCount(m: SwiftMessage, e: ValidationError)
    requires e.Rule() == RequiredFieldsRule
    ensures multiset(Errors(m))[e] == multiset(RequiredFieldErrors(m))[e]
  {
    ErrorsSplit(m, e);
    BicErrorRules(m);
    AmountErrorRules(m);
    DateErrorRules(m);
    TypeErrorRules(m);
    FormatErrorRules(m);
    assert e !in BicErrors(m) && e !in AmountErrors(m) && e !in DateErrors(m)
      && e !in TypeErrors(m) && e !in FormatErrors(m);
  }

  /** A BIC error is counted only from the BIC check. */
  lemma BicErrorCount(m: SwiftMessage, e: ValidationError)
    requires e.Rule() == BicRule
    ensures multiset(Errors(m))[e] == multiset(BicErrors(m))[e]
  {
    ErrorsSplit(m, e);
    RequiredFieldRules(m);
    AmountErrorRules(m);
    DateErrorRules(m);
    TypeErrorRules(m);
    FormatErrorRules(m);
    assert e !in RequiredFieldErrors(m) && e !in AmountErrors(m) && e !in DateErrors(m)
      && e !in TypeErrors(m) && e !in FormatErrors(m);
  }

  /** A BIC warning comes only from the BIC check. */
  lemma BicWarningFrom(m: SwiftMessage, now: Instant, w: ValidationWarning)
    requires w.Rule() == BicRule
    ensures w in Warnings(m, now) <==> w in BicWarnings(m)
  {
    WarningsSplit(m, now, w);
    AmountWarningRules(m);
    DateWarningRules(m, now);
    TypeWarningRules(m);
    RiskWarningRules(m);
    assert w !in AmountWarnings(m) && w !in DateWarnings(m, now) && w !in TypeWarnings(m)
      && w !in RiskWarnings(m);
  }

  /** A risk warning comes only from the risk check. */
  lemma RiskWarningFrom(m: SwiftMessage, now: Instant, w: ValidationWarning)
    requires w.Rule() == RiskRule
    ensures w in Warnings(m, now) <==> w in RiskWarnings(m)
  {
    WarningsSplit(m, now, w);
    BicWarningRules(m);
    AmountWarningRules(m);
    DateWarningRules(m, now);
    TypeWarningRules(m);
    assert w !in BicWarnings(m) && w !in AmountWarnings(m) && w !in DateWarnings(m, now)
      && w !in TypeWarnings(m);
  }

  /** The currency rules never contribute to a validation: no currency
      error or warning is ever reported. */
  lemma CurrencyNeverReported(m: SwiftMessage, now: Instant)
    ensures forall e :: e in Errors(m) ==> e.Rule() != CurrencyRule
    ensures forall w :: w in Warnings(m, now) ==> w.Rule() != CurrencyRule
  {
    RequiredFieldRules(m);
    BicErrorRules(m);
    AmountErrorRules(m);
    DateErrorRules(m);
    TypeErrorRules(m);
    FormatErrorRules(m);
    forall e | e in Errors(m) ensures e.Rule() != CurrencyRule {
      ErrorsSplit(m, e);
    }
    BicWarningRules(m);
    AmountWarningRules(m);
    DateWarningRules(m, now);
    TypeWarningRules(m);
    RiskWarningRules(m);
    forall w | w in Warnings(m, now) ensures w.Rule() != CurrencyRule {
      WarningsSplit(m, now, w);
    }
  }

  // ---------------------------------------------------------------------
  // Required fields
  // ---------------------------------------------------------------------

  /** The required-field check reports only missing or blank listed fields. */
  lemma {:induction false} MissingFieldsOnly(m: SwiftMessage, names: seq<Field>)
    ensures forall e :: e in MissingFields(m, names) ==>
      e.MissingRequiredField? && e.field in names && IsMissing(FieldValue(m, e.field))
  {
    if names != [] {
      var init := names[..|names| - 1];
      MissingFieldsOnly(m, init);
      assert forall f :: f in init ==> f in names;
    }
  }

  /** Each occurrence of a missing field in the list is reported once. */
  lemma {:induction false} MissingFieldsCount(m: SwiftMessage, names: seq<Field>, f: Field)
    ensures multiset(MissingFields(m, names))[MissingRequiredField(f)]
      == if IsMissing(FieldValue(m, f)) then multiset(names)[f] else 0
  {
    if names != [] {
      var init, last := names[..|names| - 1], names[|names| - 1];
      MissingFieldsCount(m, init, f);
      assert names == init + [last];
    }
  }

  /** Every field of the required list is reported exactly once when it is
      absent, empty or only whitespace, and not at all otherwise. */
  lemma RequiredFieldReported(m: SwiftMessage, f: Field)
    requires f in RequiredFields
    ensures multiset(Errors(m))[MissingRequiredField(f)]
      == if IsMissing(FieldValue(m, f)) then 1 else 0
  {
    RequiredErrorCount(m, MissingRequiredField(f));
    MissingFieldsCount(m, RequiredFields, f);
    RequiredFieldsDistinct(f);
  }

  /** The configured required fields are listed once each. */
  lemma RequiredFieldsDistinct(f: Field)
    requires f in RequiredFields
    ensures multiset(RequiredFields)[f] == 1
  {
    assert RequiredFields == [MessageType] + [Reference] + [Amount] + [SenderBic] + [ReceiverBic];
  }

  /** A field is blank exactly when it is absent or holds only whitespace. */
  lemma MissingIffWhitespace(value: Option<string>)
    ensures IsMissing(value) <==> value.None? || forall i :: 0 <= i < |value.value| ==> IsSpace(value.value[i])
  {
    if value.Some? {
      StripEmptyIff(value.value);
      AllCharsSpec(value.value, IsSpace);
    }
  }

  // ---------------------------------------------------------------------
  // BIC codes
  // ---------------------------------------------------------------------

  /** The BIC shape: 8 or 11 characters, six letters, then letters or digits. */
  lemma BicShapeSpec(s: string)
    ensures BicShape(s) <==>
      && (|s| == 8 || |s| == 11)
      && (forall i :: 0 <= i < 6 ==> IsUpper(s[i]))
      && (forall i :: 6 <= i < |s| ==> IsUpper(s[i]) || IsDigit(s[i]))
  {
    if |s| == 8 || |s| == 11 {
      AllCharsSpec(s[..6], IsUpper);
      AllCharsSpec(s[6..], IsUpperOrDigit);
      assert forall i :: 6 <= i < |s| ==> s[i] == s[6..][i - 6];
    }
  }

  /** Without line feeds a BIC is valid exactly when it has the BIC shape;
      one trailing line feed after a well-shaped BIC is also accepted. */
  lemma IsValidBicSpec(s: string)
    ensures '\n' !in s ==> (IsValidBic(s) <==> BicShape(s))
    ensures IsValidBic(s + "\n") <==> BicShape(s)
  {
    BicShapeSpec(s + "\n");
    assert (s + "\n")[|s|] == '\n';
    assert (s + "\n")[..|s|] == s;
  }

  /** "Sender and receiver BIC codes cannot be identical": reported once
      exactly when the two codes are equal. */
  lemma IdenticalBicsReported(m: SwiftMessage)
    ensures multiset(Errors(m))[IdenticalBics] == if m.senderBic == m.receiverBic then 1 else 0
  {
    BicErrorCount(m, IdenticalBics);
    IdenticalBicsInBicErrors(m);
  }

  lemma IdenticalBicsInBicErrors(m: SwiftMessage)
    ensures multiset(BicErrors(m))[IdenticalBics] == if m.senderBic == m.receiverBic then 1 else 0
  {
  }

  /** The high-risk warning names the sender's country (characters 5-6 of
      its BIC) exactly when that country is on the high-risk list. */
  lemma HighRiskSenderWarned(m: SwiftMessage, now: Instant, c: string)
    ensures HighRiskSenderCountry(c) in Warnings(m, now)
      <==> |m.senderBic| >= 6 && m.senderBic[4..6] == c && c in HighRiskCountries
  {
    BicWarningFrom(m, now, HighRiskSenderCountry(c));
    HighRiskInBicWarnings(m, c);
  }

  lemma HighRiskReceiverWarned(m: SwiftMessage, now: Instant, c: string)
    ensures HighRiskReceiverCountry(c) in Warnings(m, now)
      <==> |m.receiverBic| >= 6 && m.receiverBic[4..6] == c && c in HighRiskCountries
  {
    BicWarningFrom(m, now, HighRiskReceiverCountry(c));
    HighRiskInBicWarnings(m, c);
  }

  lemma HighRiskInBicWarnings(m: SwiftMessage, c: string)
    ensures HighRiskSenderCountry(c) in BicWarnings(m)
      <==> |m.senderBic| >= 6 && m.senderBic[4..6] == c && c in HighRiskCountries
    ensures HighRiskReceiverCountry(c) in BicWarnings(m)
      <==> |m.receiverBic| >= 6 && m.receiverBic[4..6] == c && c in HighRiskCountries
  {
  }

  // ---------------------------------------------------------------------
  // Risk patterns
  // ---------------------------------------------------------------------

  /** The risk check draws only risk-pattern warnings. */
  lemma {:induction false} RiskWarningsOnly(m: SwiftMessage, patterns: seq<RiskPattern>)
    ensures forall w :: w in RiskMatches(m, patterns) ==> w.RiskPatternMatch?
  {
    if patterns != [] {
      RiskWarningsOnly(m, patterns[..|patterns| - 1]);
    }
  }

  /** A field is reported for a pattern exactly when the pattern is tried
      and matches that field's text. */
  lemma {:induction false} RiskMatchesSpec(m: SwiftMessage, patterns: seq<RiskPattern>, f: RiskField, p: RiskPattern)
    ensures RiskPatternMatch(f, p) in RiskMatches(m, patterns) <==> p in patterns && Matches(p, RiskText(m, f))
  {
    if patterns != [] {
      var init := patterns[..|patterns| - 1];
      RiskMatchesSpec(m, init, f, p);
      assert patterns == init + [patterns[|patterns| - 1]];
    }
  }

  /** Every field matching any of the five patterns is reported, and nothing else. */
  lemma RiskWarned(m: SwiftMessage, now: Instant, f: RiskField, p: RiskPattern)
    ensures RiskPatternMatch(f, p) in Warnings(m, now) <==> Matches(p, RiskText(m, f))
  {
    RiskWarningFrom(m, now, RiskPatternMatch(f, p));
    RiskMatchesSpec(m, RiskPatterns, f, p);
    EveryPatternTried(p);
  }

  lemma EveryPatternTried(p: RiskPattern)
    ensures p in RiskPatterns
  {
    match p
    case Contains999 => assert RiskPatterns[0] == p;
    case Contains000000 => assert RiskPatterns[1] == p;
    case TestPrefix => assert RiskPatterns[2] == p;
    case FakePrefix => assert RiskPatterns[3] == p;
    case DemoPrefix => assert RiskPatterns[4] == p;
  }

  /** `.*w.*` under `re.match`: `w` occurs somewhere before the first line feed. */
  lemma {:induction false} OccursInFirstLineSpec(s: string, w: string)
    requires w != [] && '\n' !in w
    ensures OccursInFirstLine(s, w) <==>
      exists i :: 0 <= i && i + |w| <= |s| && s[i..i + |w|] == w && '\n' !in s[..i]
  {
    if |s| < |w| {
    } else if s[..|w|] == w {
      assert s[0..0 + |w|] == w && s[..0] == [];
    } else if s[0] == '\n' {
      forall i | 0 <= i && i + |w| <= |s| && s[i..i + |w|] == w
        ensures '\n' in s[..i]
      {
        if i > 0 { assert s[..i][0] == '\n'; }
      }
    } else {
      var t := s[1..];
      OccursInFirstLineSpec(t, w);
      if OccursInFirstLine(t, w) {
        var i :| 0 <= i && i + |w| <= |t| && t[i..i + |w|] == w && '\n' !in t[..i];
        assert s[i + 1..i + 1 + |w|] == t[i..i + |w|];
        assert s[..i + 1] == [s[0]] + t[..i];
      } else {
        forall i | 0 <= i && i + |w| <= |s| && s[i..i + |w|] == w
          ensures '\n' in s[..i]
        {
          if i > 0 {
            assert t[i - 1..i - 1 + |w|] == s[i..i + |w|];
            assert t[..i - 1] == s[1..i];
            assert '\n' in t[..i - 1];
          }
        }
      }
    }
  }

  /** `w.*` under `re.match` with IGNORECASE, for an upper-case word `w`:
      the text starts with `w` once its letters are upper-cased. */
  lemma {:induction false} StartsWithIgnoringCaseSpec(s: string, w: string)
    ensures StartsWithIgnoringCase(s, w) <==>
      |w| <= |s| && forall i :: 0 <= i < |w| ==> ToUpper(s[i]) == w[i]
  {
    if w != [] && s != [] {
      StartsWithIgnoringCaseSpec(s[1..], w[1..]);
      assert forall i :: 1 <= i < |w| ==> w[i] == w[1..][i - 1];
      assert forall i :: 1 <= i < |s| ==> s[i] == s[1..][i - 1];
    }
  }

  // ---------------------------------------------------------------------
  // Amounts
  // ---------------------------------------------------------------------

  /** An exact decimal is at most zero exactly when its units are. */
  lemma ValueSign(d: Decimal)
    ensures Value(d) <= 0.0 <==> d.units <= 0
    ensures Value(d) * Pow10(d.scale) as real == d.units as real
  {
    var p := Pow10(d.scale) as real;
    assert p >= 1.0;
    assert Value(d) * p == d.units as real;
  }

  /** The amount `1000 * k`. */
  function Thousands(k: int): real {
    1000.0 * k as real
  }

  /** `amount % 1000 == 0` holds exactly for the whole multiples of 1000. */
  lemma WholeThousandsMeaning(d: Decimal)
    ensures IsWholeThousands(d) <==> exists k: int :: Value(d) == Thousands(k)
  {
    var p := Pow10(d.scale);
    var q := 1000 * p;
    if IsWholeThousands(d) {
      var k := d.units / q;
      assert d.units == k * q;
      ScaleBack(d.units, p, k);
      assert Value(d) == Thousands(k);
    }
    if k: int :| Value(d) == Thousands(k) {
      ScaleBack(d.units, p, k);
      MultipleMod(k, q);
    }
  }

  /** `u / p == 1000 * k` for a positive integer scale `p`, in integers. */
  lemma ScaleBack(u: int, p: int, k: int)
    requires p >= 1
    ensures u as real / p as real == 1000.0 * k as real <==> u == 1000 * k * p
  {
    var P := p as real;
    var x := u as real / P;
    assert x * P == u as real;
    assert (1000 * k * p) as real == (1000 * k) as real * P;
    if x == 1000.0 * k as real {
      assert u as real == (1000 * k) as real * P;
    }
    if u == 1000 * k * p {
      assert x * P == (1000 * k) as real * P;
    }
  }

  lemma MultipleMod(k: int, q: int)
    requires q > 0
    ensures (1000 * k * (q / 1000)) % q == 0 || q % 1000 != 0
  {
    if q % 1000 == 0 {
      var n := k * q;
      assert 1000 * k * (q / 1000) == n;
      var t, r := n / q, n % q;
      assert n == t * q + r && 0 <= r < q;
      assert (k - t) * q == r;
      MultipleBounds(k - t, q);
    }
  }

  lemma MultipleBounds(a: int, q: int)
    requires q > 0
    ensures a >= 1 ==> a * q >= q
    ensures a <= -1 ==> a * q <= -q
  {
    if a >= 1 {
      assert a * q == (a - 1) * q + q;
      assert (a - 1) * q >= 0;
    }
    if a <= -1 {
      assert a * q == (a + 1) * q - q;
      assert (a + 1) * q <= 0;
    }
  }

  /** An amount that does not parse draws one format error and nothing else. */
  lemma UnparseableAmount(m: SwiftMessage)
    requires ParseAmount(m.amount).None?
    ensures AmountErrors(m) == [InvalidAmountFormat(m.amount)] && AmountWarnings(m) == []
  {
  }

  /** The limits on a parsed amount. A non-positive amount is reported both
      as not positive and as below the minimum; the maximum itself is
      accepted; the decimal places counted from the text are the digits
      after the point. */
  lemma AmountLimits(m: SwiftMessage, d: Decimal)
    requires ParseAmount(m.amount) == Some(d)
    ensures InvalidAmountFormat(m.amount) !in AmountErrors(m)
    ensures AmountNotPositive in AmountErrors(m) <==> d.units <= 0
    ensures AmountBelowMinimum(d) in AmountErrors(m) <==> Value(d) < MinAmount
    ensures d.units <= 0 ==> AmountBelowMinimum(d) in AmountErrors(m)
    ensures AmountAboveMaximum(d) in AmountErrors(m) <==> Value(d) > MaxAmount
    ensures TooManyDecimalPlaces in AmountErrors(m) <==> d.scale > 2
  {
    DecimalPlacesOfParsed(m.amount);
    LimitErrors(m.amount, d);
    assert AmountErrors(m) == AmountLimitErrors(m.amount, d);
  }

  lemma LimitErrors(text: string, d: Decimal)
    requires '.' in text ==> DecimalPlaces(text) == d.scale
    requires '.' !in text ==> d.scale == 0
    ensures forall a :: InvalidAmountFormat(a) !in AmountLimitErrors(text, d)
    ensures AmountNotPositive in AmountLimitErrors(text, d) <==> d.units <= 0
    ensures AmountBelowMinimum(d) in AmountLimitErrors(text, d) <==> Value(d) < MinAmount
    ensures d.units <= 0 ==> Value(d) < MinAmount
    ensures AmountAboveMaximum(d) in AmountLimitErrors(text, d) <==> Value(d) > MaxAmount
    ensures TooManyDecimalPlaces in AmountLimitErrors(text, d) <==> d.scale > 2
  {
    ValueSign(d);
  }

  /** The size warnings on a parsed amount. */
  lemma AmountSizes(m: SwiftMessage, d: Decimal)
    requires ParseAmount(m.amount) == Some(d)
    ensures RoundAmount(d) in AmountWarnings(m)
      <==> Value(d) >= 10000.0 && exists k: int :: Value(d) == Thousands(k)
    ensures VeryLargeAmount(d) in AmountWarnings(m) <==> Value(d) >= 1000000.0
  {
    WholeThousandsMeaning(d);
    assert AmountWarnings(m) == AmountSizeWarnings(d);
  }

  /** A parsed amount between the limits (both included) with at most two
      decimal places draws no amount error. */
  lemma InRangeAccepted(m: SwiftMessage, d: Decimal)
    requires ParseAmount(m.amount) == Some(d)
    requires MinAmount <= Value(d) <= MaxAmount && d.scale <= 2
    ensures AmountErrors(m) == []
  {
    DecimalPlacesOfParsed(m.amount);
    assert AmountErrors(m) == AmountLimitErrors(m.amount, d);
  }

  /** The configured maximum is itself accepted: an amount that parses to
      999999999.99 draws no amount error (`MaximumParses` shows that the text
      "999999999.99" does). */
  lemma MaximumAccepted(m: SwiftMessage)
    requires ParseAmount(m.amount) == Some(Decimal(99999999999, 2))
    ensures Value(Decimal(99999999999, 2)) == MaxAmount
    ensures AmountErrors(m) == []
  {
    MaximumValue();
    InRangeAccepted(m, Decimal(99999999999, 2));
  }

  lemma MaximumValue()
    ensures Value(Decimal(99999999999, 2)) == MaxAmount
  {
  }

  lemma MaximumParses()
    ensures ParseAmount("999999999.99") == Some(Decimal(99999999999, 2))
  {
    ElevenNines();
    AllCharsAppend("999999999", "99", IsDigit);
    assert "999999999" + "99" == "99999999999";
    ParseUnsigned("999999999", "99", true);
    assert "999999999" + ("." + "99") == "999999999.99";
  }

  lemma ElevenNines()
    ensures AllChars("99999999999", IsDigit) && DigitsValue("99999999999") == 99999999999
  {
    RepeatValue('9', 11);
    assert Repeat('9', 11) == "99999999999";
  }

  // ---------------------------------------------------------------------
  // Currency (defined by the validator but never run)
  // ---------------------------------------------------------------------

  /** An empty code is only "required"; any other code is checked for length,
      letters and case independently, and warned about when not listed. */
  lemma CurrencyRules(m: SwiftMessage)
    ensures m.currency == [] ==> CurrencyErrors(m) == [CurrencyRequired] && CurrencyWarnings(m) == []
    ensures m.currency != [] ==>
      var c := m.currency;
      && CurrencyRequired !in CurrencyErrors(m)
      && (CurrencyWrongLength(c) in CurrencyErrors(m) <==> |c| != 3)
      && (CurrencyNotAlphabetic(c) in CurrencyErrors(m) <==> exists i :: 0 <= i < |c| && !IsLetter(c[i]))
      && (CurrencyNotUppercase(c) in CurrencyErrors(m) <==>
            (exists i :: 0 <= i < |c| && IsLower(c[i])) || forall i :: 0 <= i < |c| ==> !IsUpper(c[i]))
      && (UncommonCurrency(c) in CurrencyWarnings(m) <==> c !in ValidCurrencies)
  {
    var c := m.currency;
    AllCharsSpec(c, IsLetter);
    AllCharsSpec(c, IsNotLower);
    AnyCharSpec(c, IsUpper);
  }

  // ---------------------------------------------------------------------
  // Value dates
  // ---------------------------------------------------------------------

  /** A value date is valid exactly when it is six digits YYMMDD naming a
      real calendar day of year 2000 + YY; the separate month and day range
      checks never reject more than the calendar does. */
  lemma ValueDateSpec(s: string)
    ensures IsValidValueDate(s) <==>
      && |s| == 6
      && (forall i :: 0 <= i < 6 ==> IsDigit(s[i]))
      && IsCivilDate(2000 + TwoDigits(s, 0), TwoDigits(s, 2), TwoDigits(s, 4))
  {
    AllCharsSpec(s, IsDigit);
  }

  /** The calendar decides the 29th of February: 2024 is a leap year. */
  lemma LeapDay()
    ensures IsValidValueDate("240229")
  {
    ValueDateSpec("240229");
  }

  /** February never has a 30th day. */
  lemma NoThirtiethOfFebruary()
    ensures !IsValidValueDate("240230")
  {
    ValueDateSpec("240230");
  }

  /** 2023 is not a leap year, so its February ends on the 28th. */
  lemma NoLeapDayIn2023()
    ensures !IsValidValueDate("230229")
  {
    ValueDateSpec("230229");
  }

  /** A malformed value date draws one error and no warning; a valid one no error. */
  lemma DateRules(m: SwiftMessage, now: Instant)
    ensures !IsValidValueDate(m.valueDate) ==>
      DateErrors(m) == [InvalidValueDateFormat(m.valueDate)] && DateWarnings(m, now) == []
    ensures IsValidValueDate(m.valueDate) ==> DateErrors(m) == []
  {
  }

  /** The date warnings compare whole days between the value date's midnight
      and `now`; once `now` is past midnight the difference loses a day, so
      the thresholds move by one. The past and future warnings exclude each
      other, and the weekend warning is for Saturdays and Sundays. */
  lemma DateWarningThresholds(m: SwiftMessage, now: Instant)
    requires IsValidValueDate(m.valueDate)
    ensures var k := ValueDateOrdinal(m.valueDate) - now.ordinal;
      var late := if now.micros > 0 then 1 else 0;
      && (ValueDateFarPast(m.valueDate) in DateWarnings(m, now) <==> k < late - 30)
      && (ValueDateFarFuture(m.valueDate) in DateWarnings(m, now) <==> k > 30 + late)
      && (WeekendValueDate in DateWarnings(m, now) <==> Weekday(ValueDateOrdinal(m.valueDate)) >= 5)
      && !(ValueDateFarPast(m.valueDate) in DateWarnings(m, now)
           && ValueDateFarFuture(m.valueDate) in DateWarnings(m, now))
  {
    DaysDiffFloor(ValueDateOrdinal(m.valueDate), now);
  }

  // ---------------------------------------------------------------------
  // Message types
  // ---------------------------------------------------------------------

  /** Only MT103 and MT202 are accepted; an MT103 is warned about each
      missing or empty optional party field, an MT202 about nothing. */
  lemma MessageTypeRules(m: SwiftMessage)
    ensures TypeErrors(m) != [] <==> m.messageType != "MT103" && m.messageType != "MT202"
    ensures TypeErrors(m) != [] ==> TypeWarnings(m) == []
    ensures m.messageType == "MT202" ==> TypeWarnings(m) == []
    ensures m.messageType == "MT103" ==>
      && (MissingOrderingCustomer in TypeWarnings(m) <==> IsAbsent(m.orderingCustomer))
      && (MissingBeneficiary in TypeWarnings(m) <==> IsAbsent(m.beneficiary))
      && (MissingRemittanceInfo in TypeWarnings(m) <==> IsAbsent(m.remittanceInfo))
  {
  }

  // ---------------------------------------------------------------------
  // SWIFT character set
  // ---------------------------------------------------------------------

  /** A non-empty text field is rejected exactly when one of its characters
      is outside the SWIFT set; empty and absent fields are not checked. */
  lemma CharsetRules(m: SwiftMessage)
    ensures InvalidReferenceCharacters in FormatErrors(m) <==> HasForeignChar(Some(m.reference))
    ensures InvalidOrderingCustomerCharacters in FormatErrors(m) <==> HasForeignChar(m.orderingCustomer)
    ensures InvalidBeneficiaryCharacters in FormatErrors(m) <==> HasForeignChar(m.beneficiary)
    ensures InvalidRemittanceInfoCharacters in FormatErrors(m) <==> HasForeignChar(m.remittanceInfo)
  {
    ForeignCharSpec(Some(m.reference));
    ForeignCharSpec(m.orderingCustomer);
    ForeignCharSpec(m.beneficiary);
    ForeignCharSpec(m.remittanceInfo);
  }

  /** A present text with some character outside the SWIFT set. */
  predicate HasForeignChar(value: Option<string>) {
    value.Some? && exists i :: 0 <= i < |value.value| && !IsSwiftChar(value.value[i])
  }

  lemma ForeignCharSpec(value: Option<string>)
    ensures HasForeignChar(value) <==> !IsAbsent(value) && !IsSwiftText(value.value)
  {
    if value.Some? {
      AllCharsSpec(value.value, IsSwiftChar);
    }
  }

  // ---------------------------------------------------------------------
  // When a message passes
  // ---------------------------------------------------------------------

  /** What a message must satisfy to pass validation, stated field by field. */
  predicate Acceptable(m: SwiftMessage) {
    && (forall f :: f in RequiredFields ==> !IsMissing(FieldValue(m, f)))
    && IsValidBic(m.senderBic) && IsValidBic(m.receiverBic) && m.senderBic != m.receiverBic
    && ParseAmount(m.amount).Some?
    && MinAmount <= Value(ParseAmount(m.amount).value) <= MaxAmount
    && ParseAmount(m.amount).value.scale <= 2
    && IsValidValueDate(m.valueDate)
    && m.messageType in ValidMessageTypes
    && !HasForeignChar(Some(m.reference)) && !HasForeignChar(m.orderingCustomer)
    && !HasForeignChar(m.beneficiary) && !HasForeignChar(m.remittanceInfo)
  }

  /** The validator reports no error exactly for acceptable messages, so
      `ValidateSwiftMessage` marks exactly those valid. */
  lemma NoErrorsIff(m: SwiftMessage)
    ensures Errors(m) == [] <==> Acceptable(m)
  {
    RequiredClean(m);
    AmountClean(m);
    CharsetRules(m);
    assert Errors(m) == [] <==>
      RequiredFieldErrors(m) == [] && BicErrors(m) == [] && AmountErrors(m) == []
      && DateErrors(m) == [] && TypeErrors(m) == [] && FormatErrors(m) == [];
  }

  lemma RequiredClean(m: SwiftMessage)
    ensures RequiredFieldErrors(m) == [] <==> forall f :: f in RequiredFields ==> !IsMissing(FieldValue(m, f))
  {
    MissingFieldsOnly(m, RequiredFields);
    if RequiredFieldErrors(m) != [] {
      var e := RequiredFieldErrors(m)[0];
      assert e in RequiredFieldErrors(m);
      assert e.field in RequiredFields && IsMissing(FieldValue(m, e.field));
    }
    forall f | f in RequiredFields && IsMissing(FieldValue(m, f))
      ensures MissingRequiredField(f) in RequiredFieldErrors(m)
    {
      MissingFieldsCount(m, RequiredFields, f);
      assert f in multiset(RequiredFields);
    }
  }

  lemma AmountClean(m: SwiftMessage)
    ensures AmountErrors(m) == [] <==>
      ParseAmount(m.amount).Some?
      && MinAmount <= Value(ParseAmount(m.amount).value) <= MaxAmount
      && ParseAmount(m.amount).value.scale <= 2
  {
    match ParseAmount(m.amount)
    case None =>
    case Some(d) =>
      DecimalPlacesOfParsed(m.amount);
      LimitErrors(m.amount, d);
      assert AmountErrors(m) == AmountLimitErrors(m.amount, d);
  }
}
