/**
 * The four demonstration messages and what the validator and the loop make
 * of them. Facts about the literal texts are proved one field at a time and
 * then combined through the general lemmas.
 */
module Fixtures {
  import opened Wrappers
  import opened Chars
  import opened Amounts
  import opened Calendar
  import opened Config
  import opened SwiftModel
  import opened Validator
  import opened ValidatorProperties
  import opened Evaluator

  /** A demonstration message: the three optional party fields are absent,
      the status is pending and the error list empty. */
  function DemoMessage(id: string, messageType: string, reference: string, amount: string,
                       currency: string, senderBic: string, receiverBic: string,
                       valueDate: string): SwiftMessage
  {
    SwiftMessage(id, messageType, reference, amount, currency, senderBic, receiverBic, valueDate,
                 None, None, None, Pending, [])
  }

  /** "High Amount and Invalid BIC Errors". */
  function Demo001(): SwiftMessage {
    DemoMessage("DEMO001", "MT103", "TOOLONGREF12345", "999999999.99", "USD", "ABCDUS33", "CHASUS33", "240915")
  }

  /** "Same Sender/Receiver Business Rule Error". */
  function Demo002(): SwiftMessage {
    DemoMessage("DEMO002", "MT202", "REF12345", "50000.00", "EUR", "DEUTDEFF", "DEUTDEFF", "240915")
  }

  /** "Low Amount Business Rule Error". */
  function Demo003(): SwiftMessage {
    DemoMessage("DEMO003", "MT103", "VALIDREF", "5.00", "GBP", "BARCGB22", "CHASUS33", "240915")
  }

  /** "Perfect Message (No Errors Expected)". */
  function Demo004(): SwiftMessage {
    DemoMessage("DEMO004", "MT103", "PERFECT", "10000.00", "USD", "CHASUS33", "DEUTDEFF", "240915")
  }

  // ---------------------------------------------------------------------
  // What the validator reports
  // ---------------------------------------------------------------------

  /** DEMO001 draws no validator error: its amount is the configured maximum,
      which is accepted, and both BICs are well-formed. */
  lemma Demo001Passes()
    ensures Errors(Demo001()) == []
  {
    var m := Demo001();
    Demo001Fields();
    MaximumParses();
    Demo001Amount();
    MaximumAccepted(m);
    InRange(m, Decimal(99999999999, 2));
    RequiredPresent(m);
    NoErrorsIff(m);
  }

  /** DEMO002 draws exactly one validator error, for the identical BICs. */
  lemma Demo002Errors()
    ensures Errors(Demo002()) == [IdenticalBics]
  {
    var m := Demo002();
    Demo002Fields();
    FiftyThousandParses();
    Demo002Amount();
    FiftyThousandValue();
    InRangeAccepted(m, Decimal(5000000, 2));
    RequiredPresent(m);
    RequiredClean(m);
    CharsetRules(m);
    OnlyBicErrors(m);
  }

  /** DEMO003 draws no validator error: 5.00 is above the validator's
      minimum of 0.01. */
  lemma Demo003Passes()
    ensures Errors(Demo003()) == []
  {
    var m := Demo003();
    Demo003Fields();
    FiveParses();
    Demo003Amount();
    FiveValue();
    InRange(m, Decimal(500, 2));
    RequiredPresent(m);
    NoErrorsIff(m);
  }

  /** DEMO004 draws no validator error. */
  lemma Demo004Passes()
    ensures Errors(Demo004()) == []
  {
    var m := Demo004();
    Demo004Fields();
    TenThousandParses();
    Demo004Amount();
    TenThousandValue();
    InRange(m, Decimal(1000000, 2));
    RequiredPresent(m);
    NoErrorsIff(m);
  }

  /** DEMO004's warnings, whatever the clock: the round-amount warning for
      10000.00, the three MT103 party-field warnings, and the weekend warning
      (2024-09-15 is a Sunday). */
  lemma Demo004Warnings(now: Instant)
    ensures RoundAmount(Decimal(1000000, 2)) in Warnings(Demo004(), now)
    ensures MissingOrderingCustomer in Warnings(Demo004(), now)
    ensures MissingBeneficiary in Warnings(Demo004(), now)
    ensures MissingRemittanceInfo in Warnings(Demo004(), now)
    ensures WeekendValueDate in Warnings(Demo004(), now)
  {
    var m := Demo004();
    var d := Decimal(1000000, 2);
    TenThousandParses();
    Demo004Amount();
    TenThousandValue();
    AmountSizes(m, d);
    assert Value(d) == Thousands(10);
    MessageTypeRules(m);
    Demo004Fields();
    SundayValueDate();
    DateWarningThresholds(m, now);
    WarningsSplit(m, now, RoundAmount(d));
    WarningsSplit(m, now, MissingOrderingCustomer);
    WarningsSplit(m, now, MissingBeneficiary);
    WarningsSplit(m, now, MissingRemittanceInfo);
    WarningsSplit(m, now, WeekendValueDate);
  }

  /** When the business rules accept DEMO004, the loop returns it VALID after
      one evaluation and no optimizer call. */
  lemma Demo004Run(maxIterations: int, optimize: Optimizer, rules: BusinessRules)
    requires maxIterations >= 1 && rules(Demo004()) == []
    ensures Run(Demo004(), 0, maxIterations, optimize, rules)
         == Outcome(Demo004().(validationStatus := Valid), Demo004(), 1, 0)
  {
    Demo004Passes();
    assert EvaluationErrors(Demo004(), rules) == [];
    RunCleanFirst(Demo004(), 0, maxIterations, optimize, rules);
  }

  // ---------------------------------------------------------------------
  // Field by field
  // ---------------------------------------------------------------------

  /** A parsed amount within the limits meets the amount part of `Acceptable`. */
  lemma InRange(m: SwiftMessage, d: Decimal)
    requires ParseAmount(m.amount) == Some(d)
    requires MinAmount <= Value(d) <= MaxAmount && d.scale <= 2
    ensures ParseAmount(m.amount).Some?
      && MinAmount <= Value(ParseAmount(m.amount).value) <= MaxAmount
      && ParseAmount(m.amount).value.scale <= 2
  {
  }

  /** The families other than the BIC checks are clean, so the BIC errors are all. */
  lemma OnlyBicErrors(m: SwiftMessage)
    requires RequiredFieldErrors(m) == [] && AmountErrors(m) == [] && DateErrors(m) == []
    requires TypeErrors(m) == [] && FormatErrors(m) == []
    ensures Errors(m) == BicErrors(m)
  {
  }

  /** A demonstration message has every required field filled in when its
      type, reference, amount and BICs start with a non-space. */
  lemma RequiredPresent(m: SwiftMessage)
    requires m.messageType != [] && !IsSpace(m.messageType[0])
    requires m.reference != [] && !IsSpace(m.reference[0])
    requires m.amount != [] && !IsSpace(m.amount[0])
    requires m.senderBic != [] && !IsSpace(m.senderBic[0])
    requires m.receiverBic != [] && !IsSpace(m.receiverBic[0])
    ensures forall f :: f in RequiredFields ==> !IsMissing(FieldValue(m, f))
  {
    forall f | f in RequiredFields ensures !IsMissing(FieldValue(m, f)) {
      var s := FieldValue(m, f).value;
      StripEmptyIff(s);
    }
  }

  lemma Demo001Fields()
    ensures var m := Demo001();
      && IsValidBic(m.senderBic) && IsValidBic(m.receiverBic) && m.senderBic != m.receiverBic
      && IsValidValueDate(m.valueDate) && m.messageType in ValidMessageTypes
      && !HasForeignChar(Some(m.reference)) && !HasForeignChar(m.orderingCustomer)
      && !HasForeignChar(m.beneficiary) && !HasForeignChar(m.remittanceInfo)
      && !IsSpace(m.messageType[0]) && !IsSpace(m.reference[0]) && !IsSpace(m.amount[0])
      && !IsSpace(m.senderBic[0]) && !IsSpace(m.receiverBic[0])
  {
    Demo001Bics();
    Demo001Text();
    Demo001Leading();
    ValueDateValid();
  }

  lemma Demo001Bics()
    ensures var m := Demo001();
      IsValidBic(m.senderBic) && IsValidBic(m.receiverBic) && m.senderBic != m.receiverBic
  {
    assert IsValidBic("ABCDUS33") by { ValidEightCharBic("ABCDUS33", "ABCDUS", "33"); }
    assert IsValidBic("CHASUS33") by { ValidEightCharBic("CHASUS33", "CHASUS", "33"); }
  }

  lemma Demo001Text()
    ensures !HasForeignChar(Some(Demo001().reference))
  {
    ReferenceTOOLONGREF12345();
    UpperDigitsText("TOOLONGREF12345");
  }

  lemma Demo001Leading()
    ensures var m := Demo001();
      && m.messageType in ValidMessageTypes
      && !IsSpace(m.messageType[0]) && !IsSpace(m.reference[0]) && !IsSpace(m.amount[0])
      && !IsSpace(m.senderBic[0]) && !IsSpace(m.receiverBic[0])
  {
  }

  lemma Demo002Fields()
    ensures var m := Demo002();
      && IsValidBic(m.senderBic) && IsValidBic(m.receiverBic) && m.senderBic == m.receiverBic
      && IsValidValueDate(m.valueDate) && m.messageType in ValidMessageTypes
      && !HasForeignChar(Some(m.reference)) && !HasForeignChar(m.orderingCustomer)
      && !HasForeignChar(m.beneficiary) && !HasForeignChar(m.remittanceInfo)
      && !IsSpace(m.messageType[0]) && !IsSpace(m.reference[0]) && !IsSpace(m.amount[0])
      && !IsSpace(m.senderBic[0]) && !IsSpace(m.receiverBic[0])
  {
    Demo002Bics();
    Demo002Text();
    Demo002Leading();
    ValueDateValid();
  }

  lemma Demo002Bics()
    ensures var m := Demo002();
      IsValidBic(m.senderBic) && IsValidBic(m.receiverBic) && m.senderBic == m.receiverBic
  {
    assert IsValidBic("DEUTDEFF") by { ValidEightCharBic("DEUTDEFF", "DEUTDE", "FF"); }
  }

  lemma Demo002Text()
    ensures !HasForeignChar(Some(Demo002().reference))
  {
    ReferenceREF12345();
    UpperDigitsText("REF12345");
  }

  lemma Demo002Leading()
    ensures var m := Demo002();
      && m.messageType in ValidMessageTypes
      && !IsSpace(m.messageType[0]) && !IsSpace(m.reference[0]) && !IsSpace(m.amount[0])
      && !IsSpace(m.senderBic[0]) && !IsSpace(m.receiverBic[0])
  {
  }

  lemma Demo003Fields()
    ensures var m := Demo003();
      && IsValidBic(m.senderBic) && IsValidBic(m.receiverBic) && m.senderBic != m.receiverBic
      && IsValidValueDate(m.valueDate) && m.messageType in ValidMessageTypes
      && !HasForeignChar(Some(m.reference)) && !HasForeignChar(m.orderingCustomer)
      && !HasForeignChar(m.beneficiary) && !HasForeignChar(m.remittanceInfo)
      && !IsSpace(m.messageType[0]) && !IsSpace(m.reference[0]) && !IsSpace(m.amount[0])
      && !IsSpace(m.senderBic[0]) && !IsSpace(m.receiverBic[0])
  {
    Demo003Bics();
    Demo003Text();
    Demo003Leading();
    ValueDateValid();
  }

  lemma Demo003Bics()
    ensures var m := Demo003();
      IsValidBic(m.senderBic) && IsValidBic(m.receiverBic) && m.senderBic != m.receiverBic
  {
    assert IsValidBic("BARCGB22") by { ValidEightCharBic("BARCGB22", "BARCGB", "22"); }
    assert IsValidBic("CHASUS33") by { ValidEightCharBic("CHASUS33", "CHASUS", "33"); }
  }

  lemma Demo003Text()
    ensures !HasForeignChar(Some(Demo003().reference))
  {
    ReferenceVALIDREF();
    UpperDigitsText("VALIDREF");
  }

  lemma Demo003Leading()
    ensures var m := Demo003();
      && m.messageType in ValidMessageTypes
      && !IsSpace(m.messageType[0]) && !IsSpace(m.reference[0]) && !IsSpace(m.amount[0])
      && !IsSpace(m.senderBic[0]) && !IsSpace(m.receiverBic[0])
  {
  }

  lemma Demo004Fields()
    ensures var m := Demo004();
      && IsValidBic(m.senderBic) && IsValidBic(m.receiverBic) && m.senderBic != m.receiverBic
      && IsValidValueDate(m.valueDate) && m.messageType in ValidMessageTypes
      && !HasForeignChar(Some(m.reference)) && !HasForeignChar(m.orderingCustomer)
      && !HasForeignChar(m.beneficiary) && !HasForeignChar(m.remittanceInfo)
      && !IsSpace(m.messageType[0]) && !IsSpace(m.reference[0]) && !IsSpace(m.amount[0])
      && !IsSpace(m.senderBic[0]) && !IsSpace(m.receiverBic[0])
  {
    Demo004Bics();
    Demo004Text();
    Demo004Leading();
    ValueDateValid();
  }

  lemma Demo004Bics()
    ensures var m := Demo004();
      IsValidBic(m.senderBic) && IsValidBic(m.receiverBic) && m.senderBic != m.receiverBic
  {
    assert IsValidBic("CHASUS33") by { ValidEightCharBic("CHASUS33", "CHASUS", "33"); }
    assert IsValidBic("DEUTDEFF") by { ValidEightCharBic("DEUTDEFF", "DEUTDE", "FF"); }
  }

  lemma Demo004Text()
    ensures !HasForeignChar(Some(Demo004().reference))
  {
    ReferencePERFECT();
    UpperDigitsText("PERFECT");
  }

  lemma Demo004Leading()
    ensures var m := Demo004();
      && m.messageType in ValidMessageTypes
      && !IsSpace(m.messageType[0]) && !IsSpace(m.reference[0]) && !IsSpace(m.amount[0])
      && !IsSpace(m.senderBic[0]) && !IsSpace(m.receiverBic[0])
  {
  }

  /** An eight-character BIC built from a six-letter bank and country part
      and a two-character location part is valid. */
  lemma ValidEightCharBic(bic: string, bankCountry: string, location: string)
    requires bic == bankCountry + location
    requires |bankCountry| == 6 && AllChars(bankCountry, IsUpper)
    requires |location| == 2 && AllChars(location, IsUpperOrDigit)
    ensures IsValidBic(bic)
  {
    assert bic[..6] == bankCountry && bic[6..] == location;
  }

  /** The demonstration references consist of upper-case letters and digits.
      Each is checked a few characters at a time and the pieces joined. */
  lemma ReferenceTOOLONGREF12345()
    ensures AllChars("TOOLONGREF12345", IsUpperOrDigit)
  {
    assert "TOOLO" + "NGREF" + "12345" == "TOOLONGREF12345";
    assert AllChars("TOOLO", IsUpperOrDigit) by { }
    assert AllChars("NGREF", IsUpperOrDigit) by { }
    assert AllChars("12345", IsUpperOrDigit) by { }
    AllChars3("TOOLO", "NGREF", "12345", IsUpperOrDigit);
  }

  lemma ReferenceREF12345()
    ensures AllChars("REF12345", IsUpperOrDigit)
  {
    assert "REF1" + "2345" == "REF12345";
    assert AllChars("REF1", IsUpperOrDigit) by { }
    assert AllChars("2345", IsUpperOrDigit) by { }
    AllCharsAppend("REF1", "2345", IsUpperOrDigit);
  }

  lemma ReferenceVALIDREF()
    ensures AllChars("VALIDREF", IsUpperOrDigit)
  {
    assert "VALI" + "DREF" == "VALIDREF";
    assert AllChars("VALI", IsUpperOrDigit) by { }
    assert AllChars("DREF", IsUpperOrDigit) by { }
    AllCharsAppend("VALI", "DREF", IsUpperOrDigit);
  }

  lemma ReferencePERFECT()
    ensures AllChars("PERFECT", IsUpperOrDigit)
  {
    assert "PERF" + "ECT" == "PERFECT";
    assert AllChars("PERF", IsUpperOrDigit) by { }
    assert AllChars("ECT", IsUpperOrDigit) by { }
    AllCharsAppend("PERF", "ECT", IsUpperOrDigit);
  }

  lemma AllChars3(a: string, b: string, c: string, p: char -> bool)
    requires AllChars(a, p) && AllChars(b, p) && AllChars(c, p)
    ensures AllChars(a + b + c, p)
  {
    AllCharsAppend(a, b, p);
    AllCharsAppend(a + b, c, p);
  }

  /** A text of upper-case letters and digits is in the SWIFT character set. */
  lemma UpperDigitsText(s: string)
    requires AllChars(s, IsUpperOrDigit)
    ensures IsSwiftText(s) && !HasForeignChar(Some(s))
  {
    AllCharsSpec(s, IsUpperOrDigit);
    AllCharsSpec(s, IsSwiftChar);
    ForeignCharSpec(Some(s));
  }

  lemma ValueDateValid()
    ensures IsValidValueDate("240915")
  {
    ValueDateSpec("240915");
  }

  /** 2024-09-15 is day 739144, a Sunday. */
  lemma SundayValueDate()
    ensures IsValidValueDate("240915")
    ensures ValueDateOrdinal("240915") == 739144 && Weekday(739144) == 6
  {
    ValueDateValid();
    assert TwoDigits("240915", 0) == 24 && TwoDigits("240915", 2) == 9 && TwoDigits("240915", 4) == 15;
    assert Ordinal(2024, 9, 15) == 739144;
  }

  // ---------------------------------------------------------------------
  // Amount texts
  // ---------------------------------------------------------------------

  lemma Demo001Amount()
    ensures ParseAmount(Demo001().amount) == Some(Decimal(99999999999, 2))
  {
    MaximumParses();
  }

  lemma Demo002Amount()
    ensures ParseAmount(Demo002().amount) == Some(Decimal(5000000, 2))
  {
    FiftyThousandParses();
  }

  lemma Demo003Amount()
    ensures ParseAmount(Demo003().amount) == Some(Decimal(500, 2))
  {
    FiveParses();
  }

  lemma Demo004Amount()
    ensures ParseAmount(Demo004().amount) == Some(Decimal(1000000, 2))
  {
    TenThousandParses();
  }

  /** A digit followed by `k` zeros is worth the digit times 10^k. */
  lemma DigitThenZeros(c: char, k: nat)
    requires IsDigit(c)
    ensures AllChars([c] + Repeat('0', k), IsDigit)
    ensures DigitsValue([c] + Repeat('0', k)) == DigitValue(c) * Pow10(k)
  {
    RepeatValue('0', k);
    DigitsValueCons(c, Repeat('0', k));
  }

  lemma FiveParses()
    ensures ParseAmount("5.00") == Some(Decimal(500, 2))
  {
    DigitsOf500();
    AllCharsAppend("5", "00", IsDigit);
    assert "5" + "00" == "500";
    ParseUnsigned("5", "00", true);
    assert "5" + ("." + "00") == "5.00";
  }

  lemma DigitsOf500()
    ensures AllChars("500", IsDigit) && DigitsValue("500") == 500
  {
    DigitThenZeros('5', 2);
    assert ['5'] + Repeat('0', 2) == "500";
  }

  lemma TenThousandParses()
    ensures ParseAmount("10000.00") == Some(Decimal(1000000, 2))
  {
    DigitsOf1000000();
    AllCharsAppend("10000", "00", IsDigit);
    assert "10000" + "00" == "1000000";
    ParseUnsigned("10000", "00", true);
    assert "10000" + ("." + "00") == "10000.00";
  }

  lemma DigitsOf1000000()
    ensures AllChars("1000000", IsDigit) && DigitsValue("1000000") == 1000000
  {
    DigitThenZeros('1', 6);
    assert ['1'] + Repeat('0', 6) == "1000000";
  }

  lemma FiftyThousandParses()
    ensures ParseAmount("50000.00") == Some(Decimal(5000000, 2))
  {
    DigitsOf5000000();
    AllCharsAppend("50000", "00", IsDigit);
    assert "50000" + "00" == "5000000";
    ParseUnsigned("50000", "00", true);
    assert "50000" + ("." + "00") == "50000.00";
  }

  lemma DigitsOf5000000()
    ensures AllChars("5000000", IsDigit) && DigitsValue("5000000") == 5000000
  {
    DigitThenZeros('5', 6);
    assert ['5'] + Repeat('0', 6) == "5000000";
  }

  lemma FiveValue()
    ensures Value(Decimal(500, 2)) == 5.0
  {
  }

  lemma TenThousandValue()
    ensures Value(Decimal(1000000, 2)) == 10000.0
  {
  }

  lemma FiftyThousandValue()
    ensures Value(Decimal(5000000, 2)) == 50000.0
  {
  }
}
