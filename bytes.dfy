/** Octets, as Go's `[]byte` holds them. */
module Bytes {
  newtype byte = x: int | 0 <= x < 256

  type Bytes = seq<byte>
}
