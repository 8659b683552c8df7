# SWIFT validator and evaluate/correct loop, modelled in Dafny

This project models two parts of the lesson-5 "evaluator-optimizer" demo of
the agentic-workflows course.

**The SWIFT field validator** (`SWIFTValidator`). It takes one payment
message and runs its rule families in a fixed order, adding errors and
warnings to a shared `ValidationResult`:

1. required fields;
2. BIC format, identical BICs and high-risk countries;
3. amount parsing, limits, decimal places and suspicious sizes;
4. value date: the YYMMDD format, a real calendar day, the 30-day window and weekends;
5. message-type requirements for MT103 and MT202;
6. the SWIFT character set;
7. risk patterns.

The currency rules exist in the validator but are never called.

**The evaluate/correct loop** (`DetailedEvaluatorOptimizer`). It evaluates a
working copy of a message: validator errors first, then business-rule errors.
- If there are none, it stops and marks the copy VALID.
- Otherwise it hands the copy and its errors to the optimizer for a corrected
  message, and reports which of six fields changed.
- In the last allowed round it marks the copy INVALID and appends that
  round's errors.

The four demonstration messages are modelled as well.

Modules:
- `Wrappers`: the `Option` type.
- `Chars`: ASCII character classes, digit strings and `str.strip`.
- `Amounts`: exact decimals and the amount parser.
- `Calendar`: the proleptic Gregorian day number, the weekday and the floored day difference of Python's `datetime`.
- `Config`: the SWIFT standards the validator reads.
- `SwiftModel`: the message record, with one constructor per error and warning text.
- `Validator`: the result class, one specification function per rule family, and one method per `_validate_*` helper, each proved to add exactly what its function says.
- `ValidatorProperties`: what the rules promise.
- `Evaluator`: the evaluation, the loop proved against the recursive specification `Run`, and the change list.
- `Fixtures`: the demonstration messages.

Where the demonstration's comments and the code disagree, the model follows
the code.
- DEMO001's amount 999999999.99 is exactly the configured maximum, and the
  maximum is accepted.
- DEMO003's 5.00 is far above the 0.01 minimum.
- So the validator reports no error for DEMO001, DEMO003 and DEMO004, and
  only the identical BICs for DEMO002.
- Any other "business rule" errors the comments announce come from the
  business rules, which are a parameter here.

## Model

| member | source | states |
|---|---|---|
| Validator.ValidationResult.constructor | demo/lesson-5-optimizer/exercises/demo/services/validator.py:14-18 | A new result has the given flag and empty error and warning lists |
| Validator.ValidationResult.AddError | demo/lesson-5-optimizer/exercises/demo/services/validator.py:20-23 | The error is appended at the end, warnings are untouched, and the result is invalid from then on (the flag agrees with the error list) |
| Validator.ValidationResult.AddWarning | demo/lesson-5-optimizer/exercises/demo/services/validator.py:25-27 | The warning is appended; errors and the validity flag are untouched |
| Validator.ValidateSwiftMessage | demo/lesson-5-optimizer/exercises/demo/services/validator.py:60-91 | Fresh result whose errors and warnings are the families' outputs concatenated in run order (required, BIC, amount, date, type, format, risk; no currency), valid exactly when there is no error |
| Validator.ValidateBasicFields | demo/lesson-5-optimizer/exercises/demo/services/validator.py:93-100 | Appends one missing-field error per configured required field that is absent or blank, in configuration order; no warning |
| Validator.ValidateBicCodes | demo/lesson-5-optimizer/exercises/demo/services/validator.py:102-124 | Appends the sender, receiver and identical-BIC errors and the two high-risk country warnings, in source order |
| Validator.ValidateAmount | demo/lesson-5-optimizer/exercises/demo/services/validator.py:126-156 | An unparseable amount draws only the format error; a parsed one the limit, decimal-place and size checks |
| Validator.CheckAmountLimits | demo/lesson-5-optimizer/exercises/demo/services/validator.py:131-145 | Appends the positive, minimum, maximum and decimal-place errors of a parsed amount |
| Validator.CheckAmountSize | demo/lesson-5-optimizer/exercises/demo/services/validator.py:147-153 | Appends the round-amount and very-large warnings of a parsed amount; no error |
| Validator.ValidateCurrency | demo/lesson-5-optimizer/exercises/demo/services/validator.py:158-174 | An empty code draws only the required error; otherwise the length, alphabetic and upper-case errors and the uncommon-code warning |
| Validator.ValidateDates | demo/lesson-5-optimizer/exercises/demo/services/validator.py:176-205 | An invalid value date draws one error; a valid one the past, future and weekend warnings from the day difference to `now` |
| Validator.ValidateMessageTypeSpecific | demo/lesson-5-optimizer/exercises/demo/services/validator.py:207-227 | An unknown type draws one error and nothing else; MT103 warns for each absent party field; MT202 adds nothing |
| Validator.ValidateFormats | demo/lesson-5-optimizer/exercises/demo/services/validator.py:229-247 | Appends the four character-set errors in field order; no warning |
| Validator.CheckCharset | demo/lesson-5-optimizer/exercises/demo/services/validator.py:234-247 | A present, non-empty text with a character outside the SWIFT set draws the field's error |
| Validator.ValidateRiskFactors | demo/lesson-5-optimizer/exercises/demo/services/validator.py:249-268 | Appends the risk warnings of all five patterns, pattern by pattern; no error |
| Validator.CheckRiskPatterns | demo/lesson-5-optimizer/exercises/demo/services/validator.py:260-268 | The loop over the patterns appends each pattern's warnings in list order |
| Validator.CheckRiskPattern | demo/lesson-5-optimizer/exercises/demo/services/validator.py:261-268 | One pattern is tried on the reference, the sender BIC and the receiver BIC, in that order |
| ValidatorProperties.ErrorsSplit | demo/lesson-5-optimizer/exercises/demo/services/validator.py:64-91 | Each error occurs in the whole list as often as in the families together |
| ValidatorProperties.WarningsSplit | demo/lesson-5-optimizer/exercises/demo/services/validator.py:64-91 | A warning is reported iff some family reports it |
| ValidatorProperties.RequiredFieldRules | demo/lesson-5-optimizer/exercises/demo/services/validator.py:93-100 | Every required-field error belongs to the required-field family |
| ValidatorProperties.AmountErrorRules | demo/lesson-5-optimizer/exercises/demo/services/validator.py:126-156 | Every amount error belongs to the amount family |
| ValidatorProperties.DateErrorRules | demo/lesson-5-optimizer/exercises/demo/services/validator.py:176-205 | Every date error belongs to the date family |
| ValidatorProperties.TypeErrorRules | demo/lesson-5-optimizer/exercises/demo/services/validator.py:207-227 | Every message-type error belongs to the message-type family |
| ValidatorProperties.FormatErrorRules | demo/lesson-5-optimizer/exercises/demo/services/validator.py:229-247 | Every format error belongs to the format family |
| ValidatorProperties.AmountWarningRules | demo/lesson-5-optimizer/exercises/demo/services/validator.py:147-153 | Every amount warning belongs to the amount family |
| ValidatorProperties.DateWarningRules | demo/lesson-5-optimizer/exercises/demo/services/validator.py:194-202 | Every date warning belongs to the date family |
| ValidatorProperties.TypeWarningRules | demo/lesson-5-optimizer/exercises/demo/services/validator.py:213-222 | Every message-type warning belongs to the message-type family |
| ValidatorProperties.RiskWarningRules | demo/lesson-5-optimizer/exercises/demo/services/validator.py:249-268 | Every risk warning belongs to the risk family |
| ValidatorProperties.RequiredErrorCount | demo/lesson-5-optimizer/exercises/demo/services/validator.py:64-100 | A required-field error occurs in the whole list exactly as often as the required-field check reports it |
| ValidatorProperties.BicErrorCount | demo/lesson-5-optimizer/exercises/demo/services/validator.py:64-124 | A BIC error occurs in the whole list exactly as often as the BIC check reports it |
| ValidatorProperties.BicWarningFrom | demo/lesson-5-optimizer/exercises/demo/services/validator.py:64-124 | A BIC warning is reported iff the BIC check reports it |
| ValidatorProperties.RiskWarningFrom | demo/lesson-5-optimizer/exercises/demo/services/validator.py:64-91 | A risk warning is reported iff the risk check reports it |
| ValidatorProperties.CurrencyNeverReported | demo/lesson-5-optimizer/exercises/demo/services/validator.py:75-76 | No currency error or warning is ever reported, whatever the message |
| ValidatorProperties.MissingFieldsOnly | demo/lesson-5-optimizer/exercises/demo/services/validator.py:97-100 | Every missing-field error names a listed field whose value is missing |
| ValidatorProperties.MissingFieldsCount | demo/lesson-5-optimizer/exercises/demo/services/validator.py:97-100 | A field's error occurs once per listing of that field when its value is missing, never otherwise |
| ValidatorProperties.RequiredFieldReported | demo/lesson-5-optimizer/exercises/demo/services/validator.py:93-100 | Each required field is reported exactly once if missing, never otherwise |
| ValidatorProperties.RequiredFieldsDistinct | demo/lesson-4-parallel/exercises/demo/config.py:30 | No required field is listed twice |
| ValidatorProperties.MissingIffWhitespace | demo/lesson-5-optimizer/exercises/demo/services/validator.py:98-99 | A value is missing iff it is absent or consists only of whitespace (the empty text included) |
| ValidatorProperties.RequiredClean | demo/lesson-5-optimizer/exercises/demo/services/validator.py:93-100 | No required-field error iff no required field is missing |
| ValidatorProperties.BicShapeSpec | demo/lesson-5-optimizer/exercises/demo/services/validator.py:39 | The BIC pattern: 8 or 11 characters, the first six upper-case letters, the rest upper-case letters or digits |
| ValidatorProperties.IsValidBicSpec | demo/lesson-5-optimizer/exercises/demo/services/validator.py:270-275 | Without a line feed a BIC is valid iff it has the pattern's shape; a shaped BIC followed by one final line feed is also valid |
| ValidatorProperties.IdenticalBicsReported | demo/lesson-5-optimizer/exercises/demo/services/validator.py:112-114 | The identical-BIC error occurs once iff the two BICs are equal, else never |
| ValidatorProperties.IdenticalBicsInBicErrors | demo/lesson-5-optimizer/exercises/demo/services/validator.py:112-114 | The same count within the BIC family |
| ValidatorProperties.HighRiskSenderWarned | demo/lesson-5-optimizer/exercises/demo/services/validator.py:116-121 | The sender high-risk warning for code c is reported iff the sender BIC has at least six characters, characters 5-6 are c, and c is listed |
| ValidatorProperties.HighRiskReceiverWarned | demo/lesson-5-optimizer/exercises/demo/services/validator.py:116-124 | The same for the receiver BIC |
| ValidatorProperties.HighRiskInBicWarnings | demo/lesson-5-optimizer/exercises/demo/services/validator.py:116-124 | Both statements within the BIC family |
| ValidatorProperties.RiskWarningsOnly | demo/lesson-5-optimizer/exercises/demo/services/validator.py:260-268 | The risk loop reports nothing but pattern matches |
| ValidatorProperties.RiskMatchesSpec | demo/lesson-5-optimizer/exercises/demo/services/validator.py:260-268 | A pattern-match warning for (field, pattern) is reported iff the pattern is in the list and matches that field's text |
| ValidatorProperties.RiskWarned | demo/lesson-5-optimizer/exercises/demo/services/validator.py:249-268 | Over a whole validation, a pattern-match warning is reported iff the pattern matches the field's text |
| ValidatorProperties.EveryPatternTried | demo/lesson-5-optimizer/exercises/demo/services/validator.py:252-258 | All five patterns are in the list that is tried |
| ValidatorProperties.OccursInFirstLineSpec | demo/lesson-5-optimizer/exercises/demo/services/validator.py:253-254 | `.*w.*` matches iff w occurs in the text with no line feed before it |
| ValidatorProperties.StartsWithIgnoringCaseSpec | demo/lesson-5-optimizer/exercises/demo/services/validator.py:255-257 | `W.*` with IGNORECASE matches iff the text is at least as long as W and its first characters upper-case to W |
| ValidatorProperties.ValueSign | demo/lesson-5-optimizer/exercises/demo/services/validator.py:132 | An amount is not positive iff its scaled integer is not positive; the value times 10^scale is that integer |
| ValidatorProperties.WholeThousandsMeaning | demo/lesson-5-optimizer/exercises/demo/services/validator.py:148 | `amount % 1000 == 0` holds iff the amount is a whole multiple of 1000 |
| ValidatorProperties.UnparseableAmount | demo/lesson-5-optimizer/exercises/demo/services/validator.py:155-156 | An amount that does not parse draws only the format error and no warning |
| ValidatorProperties.AmountLimits | demo/lesson-5-optimizer/exercises/demo/services/validator.py:128-145 | For a parsed amount: no format error; the not-positive, below-minimum, above-maximum and decimal-places errors each appear iff their condition holds; a non-positive amount is also below the minimum |
| ValidatorProperties.LimitErrors | demo/lesson-5-optimizer/exercises/demo/services/validator.py:131-145 | The same iffs for the limit checks on any text whose decimal places match the parse |
| ValidatorProperties.AmountSizes | demo/lesson-5-optimizer/exercises/demo/services/validator.py:147-153 | The round-amount warning iff at least 10000 and a whole multiple of 1000; the very-large warning iff at least 1000000 |
| ValidatorProperties.InRangeAccepted | demo/lesson-5-optimizer/exercises/demo/services/validator.py:131-145 | A parsed amount within [0.01, 999999999.99] with at most two decimals draws no error |
| ValidatorProperties.MaximumAccepted | demo/lesson-4-parallel/exercises/demo/config.py:28 | The configured maximum itself is accepted (the comparison is strict) |
| ValidatorProperties.MaximumParses | demo/lesson-5-optimizer/exercises/demo/services/validator.py:129 | "999999999.99" parses to exactly the configured maximum |
| ValidatorProperties.AmountClean | demo/lesson-5-optimizer/exercises/demo/services/validator.py:126-156 | No amount error iff the amount parses, lies within the limits and has at most two decimals |
| ValidatorProperties.CurrencyRules | demo/lesson-5-optimizer/exercises/demo/services/validator.py:158-174 | Empty code: only the required error, no warning. Otherwise the length error iff not 3 characters, the alphabetic error iff some non-letter, the upper-case error iff some lower-case letter or no upper-case letter, and the warning iff the code is not in the list |
| ValidatorProperties.ValueDateSpec | demo/lesson-5-optimizer/exercises/demo/services/validator.py:277-301 | A value date is valid iff it is six digits naming a real calendar day in year 2000+YY; the separate month and day checks reject nothing more |
| ValidatorProperties.LeapDay | demo/lesson-5-optimizer/exercises/demo/services/validator.py:297 | 2024-02-29 is a valid value date |
| ValidatorProperties.NoThirtiethOfFebruary | demo/lesson-5-optimizer/exercises/demo/services/validator.py:297 | 2024-02-30 is rejected by the calendar although the day is within 1-31 |
| ValidatorProperties.NoLeapDayIn2023 | demo/lesson-5-optimizer/exercises/demo/services/validator.py:297 | 2023-02-29 is rejected |
| ValidatorProperties.DateRules | demo/lesson-5-optimizer/exercises/demo/services/validator.py:176-181 | An invalid value date draws exactly one error and no warning; a valid one no error |
| ValidatorProperties.DateWarningThresholds | demo/lesson-5-optimizer/exercises/demo/services/validator.py:183-202 | With k the whole days from today to the value date, the past warning appears iff k < -30 (k < -29 once `now` is past midnight), the future warning iff k > 30 (k > 31 past midnight), and the weekend warning iff the weekday is Saturday or Sunday; never both past and future |
| ValidatorProperties.MessageTypeRules | demo/lesson-5-optimizer/exercises/demo/services/validator.py:207-227 | A type error iff the type is neither MT103 nor MT202, and then no warning; MT202 draws no warning; MT103 warns for each party field iff it is absent or empty |
| ValidatorProperties.CharsetRules | demo/lesson-5-optimizer/exercises/demo/services/validator.py:229-247 | Each field's character-set error appears iff that field is present and holds a character outside the SWIFT set |
| ValidatorProperties.ForeignCharSpec | demo/lesson-5-optimizer/exercises/demo/services/validator.py:232-247 | A text holds a foreign character iff it is present, non-empty and fails the anchored character-set pattern |
| ValidatorProperties.NoErrorsIff | demo/lesson-5-optimizer/exercises/demo/services/validator.py:60-91 | The validator reports no error iff the message is acceptable: every required field filled, both BICs valid and different, the amount parsed, within the limits and with at most two decimals, a valid value date, a known message type, and no foreign character |
| Chars.StripEmptyIff | demo/lesson-5-optimizer/exercises/demo/services/validator.py:99 | `value.strip()` is empty iff every character is whitespace |
| Amounts.FormatParseRoundTrip | demo/lesson-5-optimizer/exercises/demo/services/validator.py:129 | Every exact decimal's canonical spelling parses back to that decimal |
| Amounts.ParseNegated | demo/lesson-5-optimizer/exercises/demo/services/validator.py:129 | A leading minus negates the parsed amount and keeps its scale; an unparseable body stays unparseable |
| Amounts.ParseUnsigned | demo/lesson-5-optimizer/exercises/demo/services/validator.py:129 | Digits, optionally followed by a dot and more digits, parse to the digits' value scaled by the number of fraction digits |
| Amounts.DecimalPlacesOfParsed | demo/lesson-5-optimizer/exercises/demo/services/validator.py:142-143 | For a parsed amount, `len(amount.split('.')[1])` is the parse's scale, and without a dot the scale is 0 |
| Calendar.OrdinalEpoch | demo/lesson-5-optimizer/exercises/demo/services/validator.py:201 | Day 1 is 0001-01-01, a Monday |
| Calendar.OrdinalNextDay | demo/lesson-5-optimizer/exercises/demo/services/validator.py:188-201 | The next calendar day is a valid date with the next day number, so weekdays follow the calendar |
| Calendar.YearLength | demo/lesson-5-optimizer/exercises/demo/services/validator.py:188 | A year has 366 days iff it is a leap year, otherwise 365 |
| Calendar.MonthLength | demo/lesson-5-optimizer/exercises/demo/services/validator.py:188 | The month table's offsets advance by the month's length |
| Calendar.DaysDiffFloor | demo/lesson-5-optimizer/exercises/demo/services/validator.py:192 | `(value_date - now).days` is the day-number difference, less one whenever `now` is past midnight |
| Evaluator.Checks | demo/lesson-5-optimizer/exercises/demo/demo_evaluator.py:223-224 | The validator's errors become entries of the error list one for one, in order |
| Evaluator.Businesses | demo/lesson-5-optimizer/exercises/demo/demo_evaluator.py:227-228 | The business-rule errors become entries one for one, in order |
| Evaluator.EvaluateMessageWithDetails | demo/lesson-5-optimizer/exercises/demo/demo_evaluator.py:210-233 | Returns the validator's errors followed by the business-rule errors, and valid iff that list is empty |
| Evaluator.EvaluationClean | demo/lesson-5-optimizer/exercises/demo/demo_evaluator.py:210-233 | An evaluation is clean iff the validator finds the message acceptable and the business rules report nothing |
| Evaluator.ProcessMessageWithDetails | demo/lesson-5-optimizer/exercises/demo/demo_evaluator.py:152-208 | The loop returns the message the round-by-round specification `Run` gives. Its counts of evaluations and optimizer calls equal `Run`'s: none without a round, otherwise at most one evaluation per round and an optimizer call after every evaluation but the last |
| Evaluator.RunCounts | demo/lesson-5-optimizer/exercises/demo/demo_evaluator.py:159-206 | No evaluation iff no rounds are allowed; at most one evaluation per allowed round; one optimizer call after every evaluation but the last |
| Evaluator.RunWithoutRounds | demo/lesson-5-optimizer/exercises/demo/demo_evaluator.py:162 | With no rounds allowed the message comes back unchanged |
| Evaluator.RunExits | demo/lesson-5-optimizer/exercises/demo/demo_evaluator.py:162-206 | With a round left the loop ends in one of two ways. Either the last evaluated message had no errors and is returned VALID. Or it had errors, every allowed round was used, and it is returned INVALID with exactly those errors appended |
| Evaluator.RunStatus | demo/lesson-5-optimizer/exercises/demo/demo_evaluator.py:169-204 | With a round left the result is VALID iff its last evaluation was clean, and INVALID iff not |
| Evaluator.RunWithPerfectOptimizer | demo/lesson-5-optimizer/exercises/demo/demo_evaluator.py:162-206 | If every optimized message evaluates clean and two rounds remain, the loop ends VALID after one evaluation (clean input) or two |
| Evaluator.RunWithIdleOptimizer | demo/lesson-5-optimizer/exercises/demo/demo_evaluator.py:162-206 | If the optimizer changes nothing, a message with errors uses every round and ends INVALID with one round's errors appended once |
| Evaluator.RunCleanFirst | demo/lesson-5-optimizer/exercises/demo/demo_evaluator.py:169-173 | A clean message is returned VALID after one evaluation and no optimizer call |
| Evaluator.ShowOptimizationChanges | demo/lesson-5-optimizer/exercises/demo/demo_evaluator.py:235-257 | The change list is the differing tracked fields in report order |
| Evaluator.ChangeListSpec | demo/lesson-5-optimizer/exercises/demo/demo_evaluator.py:185-257 | Each entry is a tracked field with its old and new differing values. A field is listed iff it changed. Entries follow the report order. The list is empty iff nothing tracked changed |
| Evaluator.DiffEntries | demo/lesson-5-optimizer/exercises/demo/demo_evaluator.py:241-257 | Every entry names a compared field with its recorded old and new values, which differ |
| Evaluator.DiffFields | demo/lesson-5-optimizer/exercises/demo/demo_evaluator.py:241-257 | A compared field has an entry iff its value changed |
| Evaluator.DiffOrder | demo/lesson-5-optimizer/exercises/demo/demo_evaluator.py:241-257 | Entries keep the order of the compared fields |
| Fixtures.Demo001Passes | demo/lesson-5-optimizer/exercises/demo/demo_evaluator.py:49-61 | DEMO001 draws no validator error: its amount is exactly the maximum and both BICs are well formed |
| Fixtures.Demo002Errors | demo/lesson-5-optimizer/exercises/demo/demo_evaluator.py:62-74 | DEMO002 draws exactly one validator error, for the identical BICs |
| Fixtures.Demo003Passes | demo/lesson-5-optimizer/exercises/demo/demo_evaluator.py:75-87 | DEMO003 draws no validator error: 5.00 is above the minimum |
| Fixtures.Demo004Passes | demo/lesson-5-optimizer/exercises/demo/demo_evaluator.py:88-100 | DEMO004 draws no validator error |
| Fixtures.Demo004Warnings | demo/lesson-5-optimizer/exercises/demo/demo_evaluator.py:88-100 | Whatever the clock, DEMO004 draws the round-amount warning, the three MT103 party-field warnings and the weekend warning |
| Fixtures.Demo004Run | demo/lesson-5-optimizer/exercises/demo/demo_evaluator.py:152-173 | When the business rules accept DEMO004, the loop returns it VALID after one evaluation and no optimizer call |
| Fixtures.SundayValueDate | demo/lesson-5-optimizer/exercises/demo/demo_evaluator.py:58 | 240915 is a valid value date, day 739144, a Sunday |

## Left out

- Text is ASCII. `\s`, `str.isdigit`, `str.isalpha`, `str.isupper` and `re.IGNORECASE` are modelled for ASCII characters only. Python's Unicode classes are not.
- Amounts.ParseAmount is a subset of `float()`: an optional sign, then digits with an optional fraction (`.5` and `5.` included). It does not model surrounding whitespace, underscores, exponents or `inf`/`nan`. It reads the text as an exact decimal, where `float()` rounds it to the nearest binary double (or to `inf` past the largest double).
- Amount comparisons therefore follow the exact decimal, while the source compares the double. When the text's value is not exactly a double, the two can draw different not-positive, below-minimum, above-maximum, round-amount and very-large results. The decimal-places check reads the text in both and agrees. Examples:
  - `999999999.990000001` rounds to the maximum, so the source reports only the decimal-places error, while the model also reports the amount above the maximum.
  - `0.0099999999999999999` rounds to 0.01, so the source does not report it below the minimum.
  - `9999.9999999999999999` rounds to 10000.0 and draws the round-amount warning in the source only.
  - `0.` followed by 400 zeros and a `1` rounds to 0.0, so only the source reports it not positive.
  - `100000000000000000000000` (10^23) rounds to 99999999999999991611392.0, whose remainder modulo 1000 is 392.0. A `1` followed by 309 zeros becomes `inf`, whose remainder is `nan`. In both cases only the model gives the round-amount warning.
- For an amount with at most two decimals and a magnitude below 2^53 / 100 (about 9 × 10^13), every comparison gives the same answer on the double as on the exact decimal, so the model and the source agree. This covers every amount the validator accepts, since none exceeds 999999999.99. Whether an amount draws any error at all is the same in both, so the iff of ValidatorProperties.AmountClean holds of the source too: more than two decimals is an error in both, and past 2^53 / 100 both report the amount above the maximum. The members below carry the gap described above outside this range:
- Validator.ValidateAmount: its errors and warnings follow the exact decimal, not the double.
- Validator.CheckAmountLimits: the not-positive, below-minimum and above-maximum errors follow the exact decimal.
- Validator.CheckAmountSize: the round-amount and very-large warnings follow the exact decimal.
- ValidatorProperties.AmountLimits: its iffs are stated on the exact decimal.
- ValidatorProperties.LimitErrors: its iffs for the limit checks are stated on the exact decimal.
- ValidatorProperties.AmountSizes: its round-amount and very-large iffs are stated on the exact decimal.
- The `except (ValueError, IndexError)` branch of `_validate_dates` (validator.py:204-205) is not modelled. It cannot be reached once `_is_valid_value_date` holds.
- Error and warning texts are constructors that carry the values they quote. The f-string formatting (for example the `float` repr of amounts) is not modelled.
- All printing is left out, including the change list's console output, which becomes a returned list.
- The optimizer, the business rules and `max_iterations` are parameters. Their code (the base class and the LLM service) is not part of this model. The optimizer also receives the round number, so it may answer differently each time.
- The clock is a parameter `now`, one reading per loop. Errors never depend on it, so the loop's outcome does not either.
- The message is a value. The deep copy at demo_evaluator.py:160 is implicit, and there is no aliasing to model.
- `getattr` on the configured field names is modelled through the `Field` enumeration. A configured name that is not an attribute does not arise.
- `max_reference_length` in the configuration is never read by the validator, and is not modelled.
- The SWIFT message's own Pydantic validation and its other fields are not part of this model. A new message is taken to have status PENDING and no errors.
- The configuration constants come from demo/lesson-4-parallel/exercises/demo/config.py:26-32. The lesson-5 configuration module is not part of this model.
