/** Octets. */
module Octets {
  type Byte = i: int | 0 <= i < 256
}
