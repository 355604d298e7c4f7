/** Identifiers shared by the aggregate, its commands and events, and the
    process managers. */
module Ids {

  /** A 128-bit globally unique identifier (System.Guid). */
  newtype Guid = x: int | 0 <= x < 0x1_0000_0000_0000_0000_0000_0000_0000_0000

  /** Guid.Empty, the value of an identifier field nobody has set. */
  const EmptyGuid: Guid := 0
}
