/** Bytes, as the transfer code sees files. */
module Bytes {
  newtype Byte = x: int | 0 <= x < 256
}
