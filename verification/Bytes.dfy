/** Bytes and byte strings: `uint8_t` buffers and the contents of `std::string`. */
module Bytes {
  type byte = x: int | 0 <= x < 256

  type bytes = seq<byte>

  /** The bytes of an ASCII text. */
  function Text(s: string): (b: bytes)
    ensures |b| == |s|
  {
    seq(|s|, i requires 0 <= i < |s| => s[i] as int % 256)
  }

  /** Concatenation of a list of byte strings. */
  function Concat(parts: seq<bytes>): bytes {
    if parts == [] then [] else parts[0] + Concat(parts[1..])
  }
}
