/**
 * Sample types and the pieces of C++ integer arithmetic the kernels depend on:
 * the range of each sample type, lane wrap-around, `>>` on signed values,
 * truncating narrowing and edge clamping.
 */
module Pixel {

  /** The six integer sample types the kernels are instantiated for. */
  datatype PixelType = U8 | S8 | U16 | S16 | U32 | S32 {

    predicate Signed() {
      S8? || S16? || S32?
    }

    /** `std::numeric_limits<T>::digits`: value bits, not counting a sign bit. */
    function Digits(): nat {
      match this
      case U8 => 8
      case S8 => 7
      case U16 => 16
      case S16 => 15
      case U32 => 32
      case S32 => 31
    }

    function Min(): int {
      match this
      case U8 => 0
      case S8 => -0x80
      case U16 => 0
      case S16 => -0x8000
      case U32 => 0
      case S32 => -0x8000_0000
    }

    function Max(): int {
      match this
      case U8 => 0xFF
      case S8 => 0x7F
      case U16 => 0xFFFF
      case S16 => 0x7FFF
      case U32 => 0xFFFF_FFFF
      case S32 => 0x7FFF_FFFF
    }

    /** Number of distinct values, 2 to the power of the width in bits. */
    function Modulus(): int {
      match this
      case U8 | S8 => 0x100
      case U16 | S16 => 0x1_0000
      case U32 | S32 => 0x1_0000_0000
    }
  }

  /** `std::numeric_limits<int>::digits` for a 32-bit `int`. */
  const IntDigits: nat := 31

  predicate InRange(t: PixelType, v: int) {
    t.Min() <= v <= t.Max()
  }

  /**
   * The value a lane of type `t` holds after an addition whose exact result is `v`:
   * vector additions wrap modulo 2^bits.
   */
  function Wrap(t: PixelType, v: int): (r: int)
    ensures InRange(t, r)
    ensures InRange(t, v) ==> r == v
  {
    if InRange(t, v) then v else t.Min() + (v - t.Min()) % t.Modulus()
  }

  /**
   * Wrapping is reduction modulo 2^bits into the range of the type: a value
   * already in range is its own residue.
   */
  lemma WrapIsModular(t: PixelType, v: int)
    ensures Wrap(t, v) == t.Min() + (v - t.Min()) % t.Modulus()
  {
    if InRange(t, v) {
      match t
      case U8 | S8 => assert 0 <= v - t.Min() < 0x100;
      case U16 | S16 => assert 0 <= v - t.Min() < 0x1_0000;
      case U32 | S32 => assert 0 <= v - t.Min() < 0x1_0000_0000;
    }
  }

  function Pow2(k: nat): (p: nat)
    ensures p >= 1
  {
    if k == 0 then 1 else 2 * Pow2(k - 1)
  }

  /** The powers of two the kernels shift by. */
  lemma SmallPowers()
    ensures Pow2(1) == 2 && Pow2(2) == 4 && Pow2(3) == 8 && Pow2(4) == 16 && Pow2(5) == 32
  {
    assert Pow2(0) == 1;
    assert Pow2(1) == 2;
    assert Pow2(2) == 4;
    assert Pow2(3) == 8;
    assert Pow2(4) == 16;
  }

  /**
   * `v >> k` on a signed (or promoted) value: an arithmetic shift, which is
   * floor division by 2^k; on non-negative values it is also the logical shift.
   */
  function Shr(v: int, k: nat): (r: int)
    ensures Pow2(k) * r <= v < Pow2(k) * (r + 1)
  {
    v / Pow2(k)
  }

  /**
   * `static_cast` to an integer type of the exact quotient `a / 16`: the
   * fraction is dropped, so the result is rounded toward zero.
   */
  function TruncDiv16(a: int): (q: int)
    ensures 0 <= a ==> 0 <= q && 16 * q <= a < 16 * (q + 1)
    ensures a < 0 ==> q <= 0 && 16 * (q - 1) < a <= 16 * q
  {
    if a >= 0 then a / 16 else -((-a) / 16)
  }

  /** Edge replication: the nearest index of `0 .. n-1`. */
  function Clamp(i: int, n: int): (r: int)
    requires n > 0
    ensures 0 <= r < n
    ensures 0 <= i < n ==> r == i
    ensures i < 0 ==> r == 0
    ensures n <= i ==> r == n - 1
  {
    if i < 0 then 0 else if i >= n then n - 1 else i
  }
}
