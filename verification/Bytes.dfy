/** Bytes, and SHA-256 as an injective function: a digest is the text it was taken of. */
module Bytes {
  type Byte = b: int | 0 <= b < 256

  datatype Sha256<+T> = Sha256(of: T)

  const MAX_INT64: int := 0x7FFF_FFFF_FFFF_FFFF
  const MAX_UINT32: int := 0xFFFF_FFFF
}
