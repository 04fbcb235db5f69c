/**
  Go's fixed-width integers on top of Dafny's unbounded `int`.
  Conversions between signed and unsigned 64-bit values reinterpret the
  two's-complement bit pattern, i.e. they keep the value modulo 2^64, and
  unsigned addition wraps around modulo 2^64.
 */
module GoInts {

  const TWO_32: int := 0x1_0000_0000
  const TWO_63: int := 0x8000_0000_0000_0000
  const TWO_64: int := 0x1_0000_0000_0000_0000

  type uint64 = x: int | 0 <= x < TWO_64
  type int64 = x: int | -TWO_63 <= x < TWO_63
  type uint32 = x: int | 0 <= x < TWO_32
  type byte = x: int | 0 <= x < 256

  /** Go's `uint64(x)` for an `int64` x: the unique uint64 congruent to x modulo 2^64. */
  function Uint64FromInt64(x: int64): (r: uint64)
    ensures r % TWO_64 == x % TWO_64
    ensures 0 <= x ==> r == x
    ensures x < 0 ==> TWO_63 <= r
  {
    if 0 <= x then x else x + TWO_64
  }

  /** Go's `int64(x)` for a `uint64` x: the unique int64 congruent to x modulo 2^64. */
  function Int64FromUint64(x: uint64): (r: int64)
    ensures r % TWO_64 == x % TWO_64
    ensures x < TWO_63 ==> r == x
    ensures TWO_63 <= x ==> r < 0
  {
    if x < TWO_63 then x else x - TWO_64
  }

  /** Go's `a + b` on `uint64` (and `a += b`): the sum wrapped modulo 2^64. */
  function AddUint64(a: uint64, b: uint64): (r: uint64)
    ensures r == (a + b) % TWO_64
    ensures a + b < TWO_64 ==> r == a + b
  {
    if a + b < TWO_64 then a + b else a + b - TWO_64
  }

  /** Reinterpreting an int64 as uint64 and back loses nothing. */
  lemma Int64RoundTrip(x: int64)
    ensures Int64FromUint64(Uint64FromInt64(x)) == x
  {
  }

  /** Reinterpreting a uint64 as int64 and back loses nothing. */
  lemma Uint64RoundTrip(x: uint64)
    ensures Uint64FromInt64(Int64FromUint64(x)) == x
  {
  }

  /** Adding to a value already reduced modulo 2^64 gives the same residue as adding to the original. */
  lemma ModAdd(a: int, b: int)
    ensures (a % TWO_64 + b) % TWO_64 == (a + b) % TWO_64
  {
  }

  /** Sums of pairwise congruent terms are congruent modulo 2^64. */
  lemma CongruentSum(a: int, b: int, u: int, c: int)
    requires a % TWO_64 == b % TWO_64 && u % TWO_64 == c % TWO_64
    ensures (a + u) % TWO_64 == (b + c) % TWO_64
  {
    ModAdd(a, u);
    ModAdd(b, u);
    ModAdd(u, b);
    ModAdd(c, b);
  }
}
