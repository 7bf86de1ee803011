/** The bytes both C scanners read. */
module Bytes {
  /** A byte, as the character with the same code. */
  type Byte = c: char | c as int < 256
}
