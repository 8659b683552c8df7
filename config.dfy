/**
 * The SWIFT standards the validator reads from its configuration
 * (`Config.SWIFT_STANDARDS`).
 */
module Config {
  import opened SwiftModel

  /** Largest accepted amount; the bound itself is accepted. */
  const MaxAmount: real := 999999999.99
  /** Smallest accepted amount. */
  const MinAmount: real := 0.01
  /** The fields that must be present and not blank, in the order they are checked. */
  const RequiredFields: seq<Field> := [MessageType, Reference, Amount, SenderBic, ReceiverBic]
  const ValidMessageTypes: seq<string> := ["MT103", "MT202"]
}
