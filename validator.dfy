/**
 * The SWIFT field validator: a rule engine over one payment message that
 * accumulates ordered errors and warnings in a `ValidationResult`.
 *
 * Each rule family has a specification function giving the errors (and the
 * warnings) it adds, and a method that adds them to the shared result the way
 * the validator's `_validate_*` helpers do. `Errors` and `Warnings` give the
 * whole outcome of one validation; the lemmas state what the rules promise.
 */
module Validator {
  import opened Wrappers
  import opened Chars
  import opened Amounts
  import opened Calendar
  import opened Config
  import opened SwiftModel

  /** Common ISO currency codes; any other code is only a warning. */
  const ValidCurrencies: set<string> := {
    "USD", "EUR", "GBP", "JPY", "CHF", "CAD", "AUD", "NZD",
    "SEK", "NOK", "DKK", "PLN", "CZK", "HUF", "SGD", "HKD",
    "KRW", "CNY", "INR", "BRL", "MXN", "ZAR", "RUB", "TRY",
    "THB", "MYR", "IDR", "PHP", "VND", "EGP", "SAR", "AED",
    "QAR", "KWD", "BHD", "OMR", "JOD", "LBP", "ILS", "CLP",
    "COP", "PEN", "UYU", "ARS", "BOB", "PYG", "CRC", "GTQ",
    "HNL", "NIO", "PAB", "DOP", "JMD", "TTD", "BBD", "XCD"
  }

  /** Country codes (characters 5-6 of a BIC) that draw a warning. */
  const HighRiskCountries: set<string> := {
    "AF", "BY", "CF", "CG", "CU", "CD", "ER", "GN", "GW",
    "HT", "IR", "IQ", "LB", "LR", "LY", "ML", "MM", "NI",
    "KP", "RU", "SO", "SS", "SD", "SY", "VE", "YE", "ZW"
  }

  /** The risk patterns in the order they are tried. */
  const RiskPatterns: seq<RiskPattern> := [Contains999, Contains000000, TestPrefix, FakePrefix, DemoPrefix]

  // ---------------------------------------------------------------------
  // The result object
  // ---------------------------------------------------------------------

  class ValidationResult {
    var isValid: bool
    var errors: seq<ValidationError>
    var warnings: seq<ValidationWarning>

    /** The flag tracks the error list: valid exactly while no error was added. */
    ghost predicate Valid()
      reads this
    {
      isValid <==> errors == []
    }

    constructor (isValid: bool)
      ensures this.isValid == isValid && errors == [] && warnings == []
    {
      this.isValid := isValid;
      errors := [];
      warnings := [];
    }

    /** Appends an error; the result is invalid from then on. */
    method AddError(error: ValidationError)
      modifies this
      ensures errors == old(errors) + [error] && warnings == old(warnings)
      ensures !isValid && Valid()
    {
      errors := errors + [error];
      isValid := false;
    }

    /** Appends a warning; validity is untouched. */
    method AddWarning(warning: ValidationWarning)
      modifies this
      ensures warnings == old(warnings) + [warning]
      ensures errors == old(errors) && isValid == old(isValid)
    {
      warnings := warnings + [warning];
    }
  }

  // ---------------------------------------------------------------------
  // Character-level predicates (the validator's regular expressions)
  // ---------------------------------------------------------------------

  /** `[A-Z]{4}[A-Z]{2}[A-Z0-9]{2}([A-Z0-9]{3})?` matching all of `s`. */
  predicate BicShape(s: string) {
    (|s| == 8 || |s| == 11) && AllChars(s[..6], IsUpper) && AllChars(s[6..], IsUpperOrDigit)
  }

  /** `_is_valid_bic`: not empty and matching the BIC pattern between `^` and
      `$`; Python's `$` also matches just before a final line feed. */
  predicate IsValidBic(bic: string) {
    bic != [] && (BicShape(bic) || (bic[|bic| - 1] == '\n' && BicShape(bic[..|bic| - 1])))
  }

  /** `not value or (isinstance(value, str) and not value.strip())`. */
  predicate IsMissing(value: Option<string>) {
    value.None? || value.value == [] || Strip(value.value) == []
  }

  /** `not getattr(message, name, None)` for an optional text field. */
  predicate IsAbsent(value: Option<string>) {
    value.None? || value.value == []
  }

  /** `str.isalpha()`. */
  predicate IsAlphabetic(s: string) {
    s != [] && AllChars(s, IsLetter)
  }

  /** `str.isupper()`: some cased character, and none of them lower case. */
  predicate IsUpperCase(s: string) {
    AnyChar(s, IsUpper) && AllChars(s, IsNotLower)
  }

  /** One character of the SWIFT character set: letters, digits,
      `/ - ? : ( ) . , ' +` and whitespace. */
  predicate IsSwiftChar(c: char) {
    IsLetter(c) || IsDigit(c) || c in "/-?:().,'+" || IsSpace(c)
  }

  /** `swift_charset.match(s)` for `^[A-Za-z0-9/\-?:().,'+\s]*$`. */
  predicate IsSwiftText(s: string) {
    AllChars(s, IsSwiftChar)
  }

  /** `int(s[i:i+2])` for two ASCII digits. */
  function TwoDigits(s: string, i: nat): int
    requires i + 2 <= |s|
  {
    DigitValue(s[i]) * 10 + DigitValue(s[i + 1])
  }

  /** `_is_valid_value_date`: six digits YYMMDD, month 1-12, day 1-31, and a
      real calendar date in year 2000 + YY. */
  predicate IsValidValueDate(s: string) {
    && s != []
    && |s| == 6
    && AllChars(s, IsDigit)
    && 1 <= TwoDigits(s, 2) <= 12
    && 1 <= TwoDigits(s, 4) <= 31
    && IsCivilDate(2000 + TwoDigits(s, 0), TwoDigits(s, 2), TwoDigits(s, 4))
  }

  /** The day number of a valid value date. */
  function ValueDateOrdinal(s: string): int
    requires IsValidValueDate(s)
  {
    Ordinal(2000 + TwoDigits(s, 0), TwoDigits(s, 2), TwoDigits(s, 4))
  }

  /** `re.match(".*" + w + ".*", s)`: `w` occurs before the first line feed
      (`.` does not match '\n'). */
  predicate OccursInFirstLine(s: string, w: string) {
    if |s| < |w| then false
    else if s[..|w|] == w then true
    else if s[0] == '\n' then false
    else OccursInFirstLine(s[1..], w)
  }

  /** `re.match(w + ".*", s, re.IGNORECASE)` for an upper-case word `w`. */
  predicate StartsWithIgnoringCase(s: string, w: string) {
    w == [] || (s != [] && ToUpper(s[0]) == w[0] && StartsWithIgnoringCase(s[1..], w[1..]))
  }

  predicate Matches(p: RiskPattern, s: string) {
    match p
    case Contains999 => OccursInFirstLine(s, "999")
    case Contains000000 => OccursInFirstLine(s, "000000")
    case TestPrefix => StartsWithIgnoringCase(s, "TEST")
    case FakePrefix => StartsWithIgnoringCase(s, "FAKE")
    case DemoPrefix => StartsWithIgnoringCase(s, "DEMO")
  }

  function RiskText(m: SwiftMessage, f: RiskField): string {
    match f
    case ReferenceField => m.reference
    case SenderBicField => m.senderBic
    case ReceiverBicField => m.receiverBic
  }

  /** Characters 5-6 of a BIC, or "" for a BIC shorter than 6. */
  function CountryCode(bic: string): string {
    if |bic| >= 6 then bic[4..6] else ""
  }

  /** `amount % 1000 == 0` for an exact decimal. */
  predicate IsWholeThousands(d: Decimal) {
    d.units % (1000 * Pow10(d.scale)) == 0
  }

  // ---------------------------------------------------------------------
  // What each rule family reports
  // ---------------------------------------------------------------------

  /** One error per listed field that is missing or blank, in list order. */
  function MissingFields(m: SwiftMessage, names: seq<Field>): seq<ValidationError> {
    if names == [] then []
    else
      var name := names[|names| - 1];
      MissingFields(m, names[..|names| - 1])
        + (if IsMissing(FieldValue(m, name)) then [MissingRequiredField(name)] else [])
  }

  function RequiredFieldErrors(m: SwiftMessage): seq<ValidationError> {
    MissingFields(m, RequiredFields)
  }

  function BicErrors(m: SwiftMessage): seq<ValidationError> {
    (if !IsValidBic(m.senderBic) then [InvalidSenderBic(m.senderBic)] else [])
      + (if !IsValidBic(m.receiverBic) then [InvalidReceiverBic(m.receiverBic)] else [])
      + (if m.senderBic == m.receiverBic then [IdenticalBics] else [])
  }

  function BicWarnings(m: SwiftMessage): seq<ValidationWarning> {
    var sender, receiver := CountryCode(m.senderBic), CountryCode(m.receiverBic);
    (if sender in HighRiskCountries then [HighRiskSenderCountry(sender)] else [])
      + (if receiver in HighRiskCountries then [HighRiskReceiverCountry(receiver)] else [])
  }

  function AmountErrors(m: SwiftMessage): seq<ValidationError> {
    match ParseAmount(m.amount)
    case None => [InvalidAmountFormat(m.amount)]
    case Some(d) => AmountLimitErrors(m.amount, d)
  }

  /** The errors for amount text `text` that parsed to `d`. */
  function AmountLimitErrors(text: string, d: Decimal): seq<ValidationError> {
    (if Value(d) <= 0.0 then [AmountNotPositive] else [])
      + (if Value(d) < MinAmount then [AmountBelowMinimum(d)] else [])
      + (if Value(d) > MaxAmount then [AmountAboveMaximum(d)] else [])
      + (if '.' in text && DecimalPlaces(text) > 2 then [TooManyDecimalPlaces] else [])
  }

  function AmountWarnings(m: SwiftMessage): seq<ValidationWarning> {
    match ParseAmount(m.amount)
    case None => []
    case Some(d) => AmountSizeWarnings(d)
  }

  function AmountSizeWarnings(d: Decimal): seq<ValidationWarning> {
    (if Value(d) >= 10000.0 && IsWholeThousands(d) then [RoundAmount(d)] else [])
      + (if Value(d) >= 1000000.0 then [VeryLargeAmount(d)] else [])
  }

  function CurrencyErrors(m: SwiftMessage): seq<ValidationError> {
    var c := m.currency;
    if c == [] then [CurrencyRequired]
    else
      (if |c| != 3 then [CurrencyWrongLength(c)] else [])
        + (if !IsAlphabetic(c) then [CurrencyNotAlphabetic(c)] else [])
        + (if !IsUpperCase(c) then [CurrencyNotUppercase(c)] else [])
  }

  function CurrencyWarnings(m: SwiftMessage): seq<ValidationWarning> {
    if m.currency == [] then []
    else if m.currency !in ValidCurrencies then [UncommonCurrency(m.currency)]
    else []
  }

  function DateErrors(m: SwiftMessage): seq<ValidationError> {
    if !IsValidValueDate(m.valueDate) then [InvalidValueDateFormat(m.valueDate)] else []
  }

  function DateWarnings(m: SwiftMessage, now: Instant): seq<ValidationWarning> {
    if !IsValidValueDate(m.valueDate) then []
    else
      var day := ValueDateOrdinal(m.valueDate);
      var daysDiff := DaysDiff(day, now);
      (if daysDiff < -30 then [ValueDateFarPast(m.valueDate)] else [])
        + (if daysDiff > 30 then [ValueDateFarFuture(m.valueDate)] else [])
        + (if Weekday(day) >= 5 then [WeekendValueDate] else [])
  }

  function TypeErrors(m: SwiftMessage): seq<ValidationError> {
    if m.messageType !in ValidMessageTypes then [InvalidMessageType(m.messageType)] else []
  }

  function TypeWarnings(m: SwiftMessage): seq<ValidationWarning> {
    if m.messageType !in ValidMessageTypes then []
    else if m.messageType == "MT103" then
      (if IsAbsent(m.orderingCustomer) then [MissingOrderingCustomer] else [])
        + (if IsAbsent(m.beneficiary) then [MissingBeneficiary] else [])
        + (if IsAbsent(m.remittanceInfo) then [MissingRemittanceInfo] else [])
    else []
  }

  function FormatErrors(m: SwiftMessage): seq<ValidationError> {
    CharsetErrors(Some(m.reference), InvalidReferenceCharacters)
      + CharsetErrors(m.orderingCustomer, InvalidOrderingCustomerCharacters)
      + CharsetErrors(m.beneficiary, InvalidBeneficiaryCharacters)
      + CharsetErrors(m.remittanceInfo, InvalidRemittanceInfoCharacters)
  }

  /** The error one text field draws when it holds a character outside the
      SWIFT character set. */
  function CharsetErrors(value: Option<string>, error: ValidationError): seq<ValidationError> {
    if !IsAbsent(value) && !IsSwiftText(value.value) then [error] else []
  }

  /** The warnings one pattern draws: reference, sender BIC, receiver BIC. */
  function PatternWarnings(m: SwiftMessage, p: RiskPattern): seq<ValidationWarning> {
    (if Matches(p, m.reference) then [RiskPatternMatch(ReferenceField, p)] else [])
      + (if Matches(p, m.senderBic) then [RiskPatternMatch(SenderBicField, p)] else [])
      + (if Matches(p, m.receiverBic) then [RiskPatternMatch(ReceiverBicField, p)] else [])
  }

  function RiskMatches(m: SwiftMessage, patterns: seq<RiskPattern>): seq<ValidationWarning> {
    if patterns == [] then []
    else RiskMatches(m, patterns[..|patterns| - 1]) + PatternWarnings(m, patterns[|patterns| - 1])
  }

  function RiskWarnings(m: SwiftMessage): seq<ValidationWarning> {
    RiskMatches(m, RiskPatterns)
  }

  /** All errors of one validation, in the order the families run. The
      currency family is not among them: the validator never calls it. */
  function Errors(m: SwiftMessage): seq<ValidationError> {
    RequiredFieldErrors(m) + BicErrors(m) + AmountErrors(m) + DateErrors(m) + TypeErrors(m) + FormatErrors(m)
  }

  /** All warnings of one validation, in the order the families run. */
  function Warnings(m: SwiftMessage, now: Instant): seq<ValidationWarning> {
    BicWarnings(m) + AmountWarnings(m) + DateWarnings(m, now) + TypeWarnings(m) + RiskWarnings(m)
  }

  // ---------------------------------------------------------------------
  // The validator's methods
  // ---------------------------------------------------------------------

  /** `validate_swift_message`: a fresh result that is valid exactly when no
      rule reported an error. The clock reading `now` only affects warnings. */
  method ValidateSwiftMessage(m: SwiftMessage, now: Instant) returns (result: ValidationResult)
    ensures fresh(result) && result.Valid()
    ensures result.errors == Errors(m) && result.warnings == Warnings(m, now)
    ensures result.isValid <==> Errors(m) == []
  {
    result := new ValidationResult(true);
    ValidateBasicFields(m, result);
    assert result.errors == RequiredFieldErrors(m) && result.warnings == [];
    ValidateBicCodes(m, result);
    assert result.errors == RequiredFieldErrors(m) + BicErrors(m);
    assert result.warnings == BicWarnings(m);
    ValidateAmount(m, result);
    assert result.errors == RequiredFieldErrors(m) + BicErrors(m) + AmountErrors(m);
    assert result.warnings == BicWarnings(m) + AmountWarnings(m);
    // the currency rules (ValidateCurrency) are not run
    ValidateDates(m, now, result);
    assert result.errors == RequiredFieldErrors(m) + BicErrors(m) + AmountErrors(m) + DateErrors(m);
    assert result.warnings == BicWarnings(m) + AmountWarnings(m) + DateWarnings(m, now);
    ValidateMessageTypeSpecific(m, result);
    assert result.errors
      == RequiredFieldErrors(m) + BicErrors(m) + AmountErrors(m) + DateErrors(m) + TypeErrors(m);
    assert result.warnings
      == BicWarnings(m) + AmountWarnings(m) + DateWarnings(m, now) + TypeWarnings(m);
    ValidateFormats(m, result);
    assert result.errors == Errors(m);
    ValidateRiskFactors(m, result);
  }

  method ValidateBasicFields(m: SwiftMessage, result: ValidationResult)
    requires result.Valid()
    modifies result
    ensures result.Valid()
    ensures result.errors == old(result.errors) + RequiredFieldErrors(m)
    ensures result.warnings == old(result.warnings)
  {
    var i := 0;
    while i < |RequiredFields|
      invariant 0 <= i <= |RequiredFields|
      invariant result.Valid()
      invariant result.errors == old(result.errors) + MissingFields(m, RequiredFields[..i])
      invariant result.warnings == old(result.warnings)
    {
      var field := RequiredFields[i];
      var value := FieldValue(m, field);
      if value.None? || value.value == [] || Strip(value.value) == [] {
        result.AddError(MissingRequiredField(field));
      }
      assert RequiredFields[..i + 1][..i] == RequiredFields[..i];
      i := i + 1;
    }
    assert RequiredFields[..i] == RequiredFields;
  }

  method ValidateBicCodes(m: SwiftMessage, result: ValidationResult)
    requires result.Valid()
    modifies result
    ensures result.Valid()
    ensures result.errors == old(result.errors) + BicErrors(m)
    ensures result.warnings == old(result.warnings) + BicWarnings(m)
  {
    if !IsValidBic(m.senderBic) {
      result.AddError(InvalidSenderBic(m.senderBic));
    }
    if !IsValidBic(m.receiverBic) {
      result.AddError(InvalidReceiverBic(m.receiverBic));
    }
    if m.senderBic == m.receiverBic {
      result.AddError(IdenticalBics);
    }
    assert result.errors == old(result.errors) + BicErrors(m);
    var senderCountry := CountryCode(m.senderBic);
    var receiverCountry := CountryCode(m.receiverBic);
    ghost var w0 := result.warnings;
    if senderCountry in HighRiskCountries {
      result.AddWarning(HighRiskSenderCountry(senderCountry));
    }
    if receiverCountry in HighRiskCountries {
      result.AddWarning(HighRiskReceiverCountry(receiverCountry));
    }
    assert result.warnings == w0 + BicWarnings(m);
  }

  method ValidateAmount(m: SwiftMessage, result: ValidationResult)
    requires result.Valid()
    modifies result
    ensures result.Valid()
    ensures result.errors == old(result.errors) + AmountErrors(m)
    ensures result.warnings == old(result.warnings) + AmountWarnings(m)
  {
    var parsed := ParseAmount(m.amount);
    if parsed.None? {
      result.AddError(InvalidAmountFormat(m.amount));
      return;
    }
    var d := parsed.value;
    assert ParseAmount(m.amount) == Some(d);
    ghost var e0 := result.errors;
    CheckAmountLimits(m.amount, d, result);
    CheckAmountSize(d, result);
    assert result.errors == e0 + AmountErrors(m);
  }

  /** The error checks on a parsed amount `d` read from `text`: sign, the
      configured minimum and maximum, and at most two decimal places. */
  method CheckAmountLimits(text: string, d: Decimal, result: ValidationResult)
    requires result.Valid()
    modifies result
    ensures result.Valid() && result.warnings == old(result.warnings)
    ensures result.errors == old(result.errors) + AmountLimitErrors(text, d)
  {
    var amount := Value(d);
    ghost var a, b, c := [], [], [];
    if amount <= 0.0 {
      result.AddError(AmountNotPositive);
      a := [AmountNotPositive];
    }
    if amount < MinAmount {
      result.AddError(AmountBelowMinimum(d));
      b := [AmountBelowMinimum(d)];
    }
    assert result.errors == old(result.errors) + (a + b);
    if amount > MaxAmount {
      result.AddError(AmountAboveMaximum(d));
      c := [AmountAboveMaximum(d)];
    }
    assert result.errors == old(result.errors) + (a + b + c);
    if '.' in text {
      var decimalPlaces := DecimalPlaces(text);
      if decimalPlaces > 2 {
        result.AddError(TooManyDecimalPlaces);
      }
    }
  }

  /** The warning checks on a parsed amount: a round amount of at least
      10,000 and an amount of at least 1,000,000. */
  method CheckAmountSize(d: Decimal, result: ValidationResult)
    requires result.Valid()
    modifies result
    ensures result.Valid() && result.errors == old(result.errors)
    ensures result.warnings == old(result.warnings) + AmountSizeWarnings(d)
  {
    var amount := Value(d);
    if amount >= 10000.0 && IsWholeThousands(d) {
      result.AddWarning(RoundAmount(d));
    }
    if amount >= 1000000.0 {
      result.AddWarning(VeryLargeAmount(d));
    }
  }

  /** `_validate_currency`. `ValidateSwiftMessage` does not call it. */
  method ValidateCurrency(m: SwiftMessage, result: ValidationResult)
    requires result.Valid()
    modifies result
    ensures result.Valid()
    ensures result.errors == old(result.errors) + CurrencyErrors(m)
    ensures result.warnings == old(result.warnings) + CurrencyWarnings(m)
  {
    if m.currency == [] {
      result.AddError(CurrencyRequired);
      return;
    }
    if |m.currency| != 3 {
      result.AddError(CurrencyWrongLength(m.currency));
    }
    if !IsAlphabetic(m.currency) {
      result.AddError(CurrencyNotAlphabetic(m.currency));
    }
    if !IsUpperCase(m.currency) {
      result.AddError(CurrencyNotUppercase(m.currency));
    }
    if m.currency !in ValidCurrencies {
      result.AddWarning(UncommonCurrency(m.currency));
    }
  }

  method ValidateDates(m: SwiftMessage, now: Instant, result: ValidationResult)
    requires result.Valid()
    modifies result
    ensures result.Valid()
    ensures result.errors == old(result.errors) + DateErrors(m)
    ensures result.warnings == old(result.warnings) + DateWarnings(m, now)
  {
    if !IsValidValueDate(m.valueDate) {
      result.AddError(InvalidValueDateFormat(m.valueDate));
    } else {
      var year := 2000 + TwoDigits(m.valueDate, 0);
      var month := TwoDigits(m.valueDate, 2);
      var day := TwoDigits(m.valueDate, 4);
      var valueDate := Ordinal(year, month, day);
      var daysDiff := DaysDiff(valueDate, now);
      if daysDiff < -30 {
        result.AddWarning(ValueDateFarPast(m.valueDate));
      }
      if daysDiff > 30 {
        result.AddWarning(ValueDateFarFuture(m.valueDate));
      }
      if Weekday(valueDate) >= 5 {
        result.AddWarning(WeekendValueDate);
      }
    }
  }

  method ValidateMessageTypeSpecific(m: SwiftMessage, result: ValidationResult)
    requires result.Valid()
    modifies result
    ensures result.Valid()
    ensures result.errors == old(result.errors) + TypeErrors(m)
    ensures result.warnings == old(result.warnings) + TypeWarnings(m)
  {
    if m.messageType !in ValidMessageTypes {
      result.AddError(InvalidMessageType(m.messageType));
      return;
    }
    if m.messageType == "MT103" {
      if IsAbsent(m.orderingCustomer) {
        result.AddWarning(MissingOrderingCustomer);
      }
      if IsAbsent(m.beneficiary) {
        result.AddWarning(MissingBeneficiary);
      }
      if IsAbsent(m.remittanceInfo) {
        result.AddWarning(MissingRemittanceInfo);
      }
    }
    // MT202 has no further requirements
  }

  method ValidateFormats(m: SwiftMessage, result: ValidationResult)
    requires result.Valid()
    modifies result
    ensures result.Valid()
    ensures result.errors == old(result.errors) + FormatErrors(m)
    ensures result.warnings == old(result.warnings)
  {
    CheckCharset(Some(m.reference), InvalidReferenceCharacters, result);
    CheckCharset(m.orderingCustomer, InvalidOrderingCustomerCharacters, result);
    CheckCharset(m.beneficiary, InvalidBeneficiaryCharacters, result);
    CheckCharset(m.remittanceInfo, InvalidRemittanceInfoCharacters, result);
  }

  /** One charset check: a present, non-empty text outside the SWIFT character
      set draws `error`. */
  method CheckCharset(value: Option<string>, error: ValidationError, result: ValidationResult)
    requires result.Valid()
    modifies result
    ensures result.Valid()
    ensures result.errors == old(result.errors) + CharsetErrors(value, error)
    ensures result.warnings == old(result.warnings)
  {
    if !IsAbsent(value) && !IsSwiftText(value.value) {
      result.AddError(error);
    }
  }

  method ValidateRiskFactors(m: SwiftMessage, result: ValidationResult)
    requires result.Valid()
    modifies result
    ensures result.Valid()
    ensures result.errors == old(result.errors)
    ensures result.warnings == old(result.warnings) + RiskWarnings(m)
  {
    CheckRiskPatterns(m, RiskPatterns, result);
  }

  /** The risk loop over the patterns in order. */
  method CheckRiskPatterns(m: SwiftMessage, patterns: seq<RiskPattern>, result: ValidationResult)
    requires result.Valid()
    modifies result
    ensures result.Valid()
    ensures result.errors == old(result.errors)
    ensures result.warnings == old(result.warnings) + RiskMatches(m, patterns)
  {
    var i := 0;
    while i < |patterns|
      invariant 0 <= i <= |patterns|
      invariant result.Valid() && result.errors == old(result.errors)
      invariant result.warnings == old(result.warnings) + RiskMatches(m, patterns[..i])
    {
      assert patterns[..i + 1][..i] == patterns[..i];
      CheckRiskPattern(m, patterns[i], result);
      i := i + 1;
    }
    assert patterns[..i] == patterns;
  }

  /** One round of the risk loop: the pattern is tried on the reference, the
      sender BIC and the receiver BIC, in that order. */
  method CheckRiskPattern(m: SwiftMessage, pattern: RiskPattern, result: ValidationResult)
    requires result.Valid()
    modifies result
    ensures result.Valid()
    ensures result.errors == old(result.errors)
    ensures result.warnings == old(result.warnings) + PatternWarnings(m, pattern)
  {
    ghost var a, b := [], [];
    if Matches(pattern, m.reference) {
      result.AddWarning(RiskPatternMatch(ReferenceField, pattern));
      a := [RiskPatternMatch(ReferenceField, pattern)];
    }
    if Matches(pattern, m.senderBic) {
      result.AddWarning(RiskPatternMatch(SenderBicField, pattern));
      b := [RiskPatternMatch(SenderBicField, pattern)];
    }
    assert result.warnings == old(result.warnings) + (a + b);
    if Matches(pattern, m.receiverBic) {
      result.AddWarning(RiskPatternMatch(ReceiverBicField, pattern));
    }
  }
}
