/** Octets, as Go's []byte and Python's bytes hold them. */
module Bytes {

  type byte = b: int | 0 <= b < 256
}
