/**
 * Octets as numbers. Kept apart from the modules that use them, so that the
 * proof of the conversion sees nothing but the conversion itself.
 */
module Octets {
  /** Storing a number below 256 as an octet and reading it back gives the number. */
  lemma OctetOfNumber(x: int)
    requires 0 <= x < 256
    ensures (x as bv8) as int == x
  {
  }
}
