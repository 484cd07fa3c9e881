/** Byte-level conversions of the JavaScript engine that the synthesizer relies on:
    storing a number into a `Uint8Array` slot (ToUint8), the signed 32-bit view
    taken by `>>` (ToInt32), truncation of a real toward zero, the little-endian
    `pack` helper of `generateFrequency`, and the little-endian readers used to
    decode what was written. */
module Bits {

  newtype byte = x: int | 0 <= x < 256

  const TwoTo16: int := 0x1_0000
  const TwoTo32: int := 0x1_0000_0000

  /** `Math.trunc`: the integer part, rounding toward zero. */
  function Trunc(x: real): (t: int)
    ensures 0.0 <= x ==> t as real <= x < t as real + 1.0
    ensures x <= 0.0 ==> t as real - 1.0 < x <= t as real
  {
    if x >= 0.0 then x.Floor else -((-x).Floor)
  }

  /** `Math.ceil`: the least integer not below `x`. */
  function Ceil(x: real): (c: int)
    ensures x <= c as real < x + 1.0
  {
    -((-x).Floor)
  }

  /** Storing an integer into a `Uint8Array` element keeps it modulo 2^8. */
  function ToUint8(x: int): (b: byte)
    ensures (b as int - x) % 256 == 0
  {
    (x % 256) as byte
  }

  /** The signed 32-bit integer that `>>` works on: the value modulo 2^32,
      read as two's complement. */
  function ToInt32(x: int): (y: int)
    ensures -0x8000_0000 <= y < 0x8000_0000
    ensures (y - x) % TwoTo32 == 0
  {
    var u := x % TwoTo32;
    if u < 0x8000_0000 then u else u - TwoTo32
  }

  /** `x >> 8`, `x >> 16` and `x >> 24`: an arithmetic shift of the 32-bit view,
      which is a division rounding toward minus infinity (Dafny's `/` on a
      positive divisor). */
  function Shr8(x: int): (y: int)
    ensures 0x100 * y <= ToInt32(x) < 0x100 * y + 0x100
    ensures -0x80_0000 <= y < 0x80_0000
  {
    ToInt32(x) / 0x100
  }

  function Shr16(x: int): (y: int)
    ensures 0x1_0000 * y <= ToInt32(x) < 0x1_0000 * y + 0x1_0000
    ensures -0x8000 <= y < 0x8000
  {
    ToInt32(x) / 0x1_0000
  }

  function Shr24(x: int): (y: int)
    ensures 0x100_0000 * y <= ToInt32(x) < 0x100_0000 * y + 0x100_0000
    ensures -0x80 <= y < 0x80
  {
    ToInt32(x) / 0x100_0000
  }

  /** The `pack(c, arg)` helper: `c == 0` gives the two bytes
      `[arg, arg >> 8]`, `c == 1` the four bytes `[arg, arg >> 8, arg >> 16, arg >> 24]`,
      each stored through a `Uint8Array`. */
  function Pack(c: nat, arg: int): (b: seq<byte>)
    requires c <= 1
    ensures |b| == 2 + 2 * c
    ensures b[0] == ToUint8(arg) && b[1] == ToUint8(Shr8(arg))
  {
    if c == 0 then [ToUint8(arg), ToUint8(Shr8(arg))]
    else [ToUint8(arg), ToUint8(Shr8(arg)), ToUint8(Shr16(arg)), ToUint8(Shr24(arg))]
  }

  /** Little-endian readers: the unsigned value of 2 and 4 bytes at `at`. */
  function Le16(b: seq<byte>, at: nat): (v: int)
    requires at + 2 <= |b|
    ensures 0 <= v < TwoTo16
  {
    b[at] as int + 0x100 * b[at + 1] as int
  }

  function Le32(b: seq<byte>, at: nat): (v: int)
    requires at + 4 <= |b|
    ensures 0 <= v < TwoTo32
  {
    Le16(b, at) + TwoTo16 * Le16(b, at + 2)
  }

  /** Two's-complement reading of a 16-bit unsigned value. */
  function Signed16(u: int): (s: int)
    requires 0 <= u < TwoTo16
    ensures -0x8000 <= s < 0x8000
    ensures (s - u) % TwoTo16 == 0
  {
    if u < 0x8000 then u else u - TwoTo16
  }

  /** Splitting off the low byte: `x` modulo 2^8k is its low byte plus 2^8 times
      `x / 2^8` modulo 2^8(k-1). Stated for the three moduli the readers use. */
  lemma {:induction false} SplitLowByte(x: int, m: int)
    requires m == 0x100 || m == 0x1_0000 || m == 0x100_0000
    ensures x % (0x100 * m) == x % 0x100 + 0x100 * ((x / 0x100) % m)
    ensures x / (0x100 * m) == (x / 0x100) / m
  {
    var q, r := x / 0x100, x % 0x100;
    var q2, r2 := q / m, q % m;
    assert x == 0x100 * m * q2 + (0x100 * r2 + r);
    assert 0 <= 0x100 * r2 + r < 0x100 * m;
    DivModUnique(x, 0x100 * m, q2, 0x100 * r2 + r);
  }

  lemma {:induction false} DivModUnique(x: int, d: int, q: int, r: int)
    requires d == 0x100 || d == 0x1_0000 || d == 0x100_0000 || d == 0x1_0000_0000
    requires x == d * q + r && 0 <= r < d
    ensures x / d == q && x % d == r
  {
  }

  /** Adding a multiple of 2^32 adds a multiple of 2^32 / d to the quotient by d. */
  lemma {:induction false} ShiftQuotient(y: int, k: int, d: int)
    requires d == 0x100 || d == 0x1_0000 || d == 0x100_0000
    ensures (y + TwoTo32 * k) / d == y / d + (TwoTo32 / d) * k
  {
    assert y + TwoTo32 * k == d * (y / d + (TwoTo32 / d) * k) + y % d;
    DivModUnique(y + TwoTo32 * k, d, y / d + (TwoTo32 / d) * k, y % d);
  }

  /** Adding a multiple of 2^8 does not change the low byte. */
  lemma {:induction false} SameLowByte(a: int, m: int)
    ensures ToUint8(a + 0x100 * m) == ToUint8(a)
  {
    DivModUnique(a + 0x100 * m, 0x100, a / 0x100 + m, a % 0x100);
  }

  /** Shifting the 32-bit view gives the same low byte as dividing the value
      itself: the wrap-around of ToInt32 is a multiple of 2^32. */
  lemma {:induction false} ShiftedByte(x: int)
    ensures ToUint8(Shr8(x)) == ToUint8(x / 0x100)
    ensures ToUint8(Shr16(x)) == ToUint8(x / 0x1_0000)
    ensures ToUint8(Shr24(x)) == ToUint8(x / 0x100_0000)
  {
    var y := ToInt32(x);
    var k := (x - y) / TwoTo32;
    assert x == y + TwoTo32 * k;
    ShiftQuotient(y, k, 0x100);
    ShiftQuotient(y, k, 0x1_0000);
    ShiftQuotient(y, k, 0x100_0000);
    SameLowByte(y / 0x100, 0x1_0000 * k);
    SameLowByte(y / 0x1_0000, 0x100 * k);
    SameLowByte(y / 0x100_0000, k);
  }

  /** Round trip of `pack(0, x)`: reading the two bytes back gives `x` modulo 2^16. */
  lemma {:induction false} Pack16RoundTrip(x: int)
    ensures |Pack(0, x)| == 2
    ensures Le16(Pack(0, x), 0) == x % TwoTo16
  {
    ShiftedByte(x);
    SplitLowByte(x, 0x100);
  }

  /** Round trip of `pack(1, x)`: reading the four bytes back gives `x` modulo 2^32,
      so every value in [0, 2^32) comes back unchanged. */
  lemma {:induction false} Pack32RoundTrip(x: int)
    ensures |Pack(1, x)| == 4
    ensures Le32(Pack(1, x), 0) == x % TwoTo32
    ensures 0 <= x < TwoTo32 ==> Le32(Pack(1, x), 0) == x
  {
    var y := x / TwoTo16;
    PackHalves(x);
    Pack16RoundTrip(x);
    Pack16RoundTrip(y);
    Le32Halves(Pack(0, x), Pack(0, y));
    SplitLowHalf(x);
    if 0 <= x < TwoTo32 {
      DivModUnique(x, TwoTo32, 0, x);
    }
  }

  /** Four bytes read as the low half followed by the high half. */
  lemma Le32Halves(lo: seq<byte>, hi: seq<byte>)
    requires |lo| == 2 && |hi| == 2
    ensures Le32(lo + hi, 0) == Le16(lo, 0) + TwoTo16 * Le16(hi, 0)
  {
    assert (lo + hi)[2..4] == hi;
  }

  /** The four bytes of `pack(1, x)` are the two bytes of `pack(0, x)` followed by
      the two bytes of `pack(0, x / 2^16)`. */
  lemma {:induction false} PackHalves(x: int)
    ensures Pack(1, x) == Pack(0, x) + Pack(0, x / TwoTo16)
  {
    var y := x / TwoTo16;
    ShiftedByte(x);
    ShiftedByte(y);
    assert y / 0x100 == x / 0x100_0000 by {
      SplitLowByte(x, 0x1_0000);
      SplitLowByte(x / 0x100, 0x100);
    }
  }

  lemma {:induction false} SplitLowHalf(x: int)
    ensures x % TwoTo32 == x % TwoTo16 + TwoTo16 * ((x / TwoTo16) % TwoTo16)
  {
    var q, r := x / TwoTo16, x % TwoTo16;
    var q2, r2 := q / TwoTo16, q % TwoTo16;
    assert x == TwoTo32 * q2 + (TwoTo16 * r2 + r);
    DivModUnique(x, TwoTo32, q2, TwoTo16 * r2 + r);
  }

  /** A 16-bit sample written as `[v, v >> 8]` reads back, as two's complement,
      as `v` wrapped into [-2^15, 2^15): no saturation. Values already in that
      range come back exactly. */
  lemma {:induction false} SampleWrap(v: int)
    ensures Signed16(Le16(Pack(0, v), 0)) == v - TwoTo16 * ((v + 0x8000) / TwoTo16)
    ensures -0x8000 <= v < 0x8000 ==> Signed16(Le16(Pack(0, v), 0)) == v
  {
    Pack16RoundTrip(v);
    var u := v % TwoTo16;
    if u < 0x8000 {
      DivModUnique(v + 0x8000, TwoTo16, v / TwoTo16, u + 0x8000);
    } else {
      DivModUnique(v + 0x8000, TwoTo16, v / TwoTo16 + 1, u - 0x8000);
    }
  }

  /** The extreme of the volume range does not fit: 32768 reads back as -32768. */
  lemma FullScaleWraps()
    ensures Signed16(Le16(Pack(0, 0x8000), 0)) == -0x8000
  {
    Pack16RoundTrip(0x8000);
  }
}
