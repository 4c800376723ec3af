/** Octets and the numbers they spell, most significant first. */
module Bytes {
  newtype byte = x: int | 0 <= x < 256

  function FromBytes(b: seq<byte>): nat {
    if b == [] then 0 else FromBytes(b[..|b| - 1]) * 256 + b[|b| - 1] as nat
  }
}
