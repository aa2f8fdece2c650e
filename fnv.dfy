/**
 * The 64-bit FNV-1 hash, as defined in section 2 of the IETF draft
 * draft-eastlake-fnv and computed by Go's `hash/fnv.New64`: start from the
 * offset basis and, for each byte, multiply by the FNV prime modulo 2^64 and
 * then exclusive-or the byte into the low bits.
 */
module Fnv {
  import opened Utf8

  const OFFSET_BASIS_64: bv64 := 0xcbf2_9ce4_8422_2325
  const PRIME_64: bv64 := 0x0000_0100_0000_01b3

  /** One byte: multiply by the prime (wrapping at 2^64), then exclusive-or the byte in. */
  function Step(h: bv64, b: byte): bv64
  {
    (h * PRIME_64) ^ (b as bv64)
  }

  /** One step per byte, in order, starting from the running hash `h`. */
  function Fold(h: bv64, data: seq<byte>): bv64
    decreases |data|
  {
    if |data| == 0 then h else Fold(Step(h, data[0]), data[1..])
  }

  /** `New64()`, then `Write(data)`, then `Sum64()`. */
  function Sum64(data: seq<byte>): bv64
  {
    Fold(OFFSET_BASIS_64, data)
  }

  /** Writing `a` and then `b` hashes the same as writing `a + b` at once. */
  lemma {:induction false} FoldAppend(h: bv64, a: seq<byte>, b: seq<byte>)
    ensures Fold(h, a + b) == Fold(Fold(h, a), b)
    decreases |a|
  {
    if |a| > 0 {
      assert (a + b)[1..] == a[1..] + b;
      assert (a + b)[0] == a[0];
      FoldAppend(Step(h, a[0]), a[1..], b);
    } else {
      assert a + b == b;
    }
  }
}
