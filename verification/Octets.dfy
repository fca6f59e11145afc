/** Bytes, as everything on the wire and on disk is made of. */
module Octets {
  type Byte = n: nat | n < 256
  type Bytes = seq<Byte>
}
