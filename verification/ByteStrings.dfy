/** Raw bytes of request and response bodies, and the 64-bit hashes made of them. */
module ByteStrings {
  newtype Byte = x: int | 0 <= x < 256
  type Bytes = seq<Byte>

  newtype Hash64 = x: int | 0 <= x < 0x1_0000_0000_0000_0000
}
