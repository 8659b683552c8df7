/**
 * The payment message record that travels through the validator and the
 * evaluate/correct loop, and the errors and warnings they report.
 */
module SwiftModel {
  import opened Wrappers
  import opened Amounts

  datatype Status = Pending | Valid | Invalid

  /** One payment message. Every field is text, as the validator reads it;
      the three free-text fields may be absent. */
  datatype SwiftMessage = SwiftMessage(
    messageId: string,
    messageType: string,
    reference: string,
    amount: string,
    currency: string,
    senderBic: string,
    receiverBic: string,
    valueDate: string,        // YYMMDD
    orderingCustomer: Option<string>,
    beneficiary: Option<string>,
    remittanceInfo: Option<string>,
    validationStatus: Status,
    validationErrors: seq<Finding>)

  /** The message's attributes, by which the required-field check names them. */
  datatype Field = MessageId | MessageType | Reference | Amount | Currency | SenderBic
    | ReceiverBic | ValueDate | OrderingCustomer | Beneficiary | RemittanceInfo
  {
    /** The attribute's Python name, as error texts quote it. */
    function Name(): string {
      match this
      case MessageId => "message_id"
      case MessageType => "message_type"
      case Reference => "reference"
      case Amount => "amount"
      case Currency => "currency"
      case SenderBic => "sender_bic"
      case ReceiverBic => "receiver_bic"
      case ValueDate => "value_date"
      case OrderingCustomer => "ordering_customer"
      case Beneficiary => "beneficiary"
      case RemittanceInfo => "remittance_info"
    }
  }

  /** `getattr(m, f.Name(), None)`; an absent optional field gives None. */
  function FieldValue(m: SwiftMessage, f: Field): Option<string> {
    match f
    case MessageId => Some(m.messageId)
    case MessageType => Some(m.messageType)
    case Reference => Some(m.reference)
    case Amount => Some(m.amount)
    case Currency => Some(m.currency)
    case SenderBic => Some(m.senderBic)
    case ReceiverBic => Some(m.receiverBic)
    case ValueDate => Some(m.valueDate)
    case OrderingCustomer => m.orderingCustomer
    case Beneficiary => m.beneficiary
    case RemittanceInfo => m.remittanceInfo
  }

  /** The fields the risk patterns are matched against. */
  datatype RiskField = ReferenceField | SenderBicField | ReceiverBicField

  /** The suspicious patterns, each a Python regular expression matched from
      the start of the text, ignoring case. */
  datatype RiskPattern = Contains999 | Contains000000 | TestPrefix | FakePrefix | DemoPrefix {
    function Regex(): string {
      match this
      case Contains999 => ".*999.*"
      case Contains000000 => ".*000000.*"
      case TestPrefix => "TEST.*"
      case FakePrefix => "FAKE.*"
      case DemoPrefix => "DEMO.*"
    }
  }

  /** The validator's rule families, one per `_validate_*` helper. */
  datatype Rule = RequiredFieldsRule | BicRule | AmountRule | CurrencyRule | DateRule
    | MessageTypeRule | FormatRule | RiskRule

  /** The validator's errors; each constructor is one message text and
      carries the values that text quotes. */
  datatype ValidationError =
    | MissingRequiredField(field: Field)            // Required field '<field>' is missing or empty
    | InvalidSenderBic(senderBic: string)           // Invalid sender BIC format: <bic>
    | InvalidReceiverBic(receiverBic: string)       // Invalid receiver BIC format: <bic>
    | IdenticalBics                                 // Sender and receiver BIC codes cannot be identical
    | AmountNotPositive                             // Amount must be positive
    | AmountBelowMinimum(amount: Decimal)           // Amount <a> below minimum 0.01
    | AmountAboveMaximum(amount: Decimal)           // Amount <a> exceeds maximum 999999999.99 ...
    | TooManyDecimalPlaces                          // Amount cannot have more than 2 decimal places
    | InvalidAmountFormat(text: string)             // Invalid amount format: <amount>
    | CurrencyRequired                              // Currency code is required
    | CurrencyWrongLength(currency: string)         // Currency code must be 3 characters: <c>
    | CurrencyNotAlphabetic(currency: string)       // Currency code must be alphabetic: <c>
    | CurrencyNotUppercase(currency: string)        // Currency code must be uppercase: <c>
    | InvalidValueDateFormat(valueDate: string)     // Invalid value date format (YYMMDD required): <d>
    | InvalidMessageType(messageType: string)       // Invalid message type: <t>
    | InvalidReferenceCharacters                    // Reference contains invalid SWIFT characters
    | InvalidOrderingCustomerCharacters             // Ordering customer contains invalid SWIFT characters
    | InvalidBeneficiaryCharacters                  // Beneficiary contains invalid SWIFT characters
    | InvalidRemittanceInfoCharacters               // Remittance info contains invalid SWIFT characters
  {
    /** The rule family that reports this error. */
    function Rule(): Rule {
      match this
      case MissingRequiredField(_) => RequiredFieldsRule
      case InvalidSenderBic(_) | InvalidReceiverBic(_) | IdenticalBics => BicRule
      case AmountNotPositive | AmountBelowMinimum(_) | AmountAboveMaximum(_)
        | TooManyDecimalPlaces | InvalidAmountFormat(_) => AmountRule
      case CurrencyRequired | CurrencyWrongLength(_) | CurrencyNotAlphabetic(_)
        | CurrencyNotUppercase(_) => CurrencyRule
      case InvalidValueDateFormat(_) => DateRule
      case InvalidMessageType(_) => MessageTypeRule
      case InvalidReferenceCharacters | InvalidOrderingCustomerCharacters
        | InvalidBeneficiaryCharacters | InvalidRemittanceInfoCharacters => FormatRule
    }
  }

  /** The validator's warnings, one constructor per message text. */
  datatype ValidationWarning =
    | HighRiskSenderCountry(country: string)        // Sender BIC from high-risk country: <cc>
    | HighRiskReceiverCountry(country: string)      // Receiver BIC from high-risk country: <cc>
    | RoundAmount(amount: Decimal)                  // Round amount may indicate structuring: <a>
    | VeryLargeAmount(amount: Decimal)              // Very large transaction amount: <a>
    | UncommonCurrency(currency: string)            // Uncommon or invalid currency code: <c>
    | ValueDateFarPast(valueDate: string)           // Value date is more than 30 days in the past: <d>
    | ValueDateFarFuture(valueDate: string)         // Value date is more than 30 days in the future: <d>
    | WeekendValueDate                              // Value date falls on weekend
    | MissingOrderingCustomer                       // MT103 should include ordering customer information
    | MissingBeneficiary                            // MT103 should include beneficiary information
    | MissingRemittanceInfo                         // MT103 should include remittance information
    | RiskPatternMatch(field: RiskField, pattern: RiskPattern)  // <Field> matches risk pattern: <regex>
  {
    /** The rule family that reports this warning. */
    function Rule(): Rule {
      match this
      case HighRiskSenderCountry(_) | HighRiskReceiverCountry(_) => BicRule
      case RoundAmount(_) | VeryLargeAmount(_) => AmountRule
      case UncommonCurrency(_) => CurrencyRule
      case ValueDateFarPast(_) | ValueDateFarFuture(_) | WeekendValueDate => DateRule
      case MissingOrderingCustomer | MissingBeneficiary | MissingRemittanceInfo => MessageTypeRule
      case RiskPatternMatch(_, _) => RiskRule
    }
  }

  /** One entry of a message's `validation_errors`: a validator error or the
      text of a business-rule error. */
  datatype Finding = Check(error: ValidationError) | Business(text: string)
}
