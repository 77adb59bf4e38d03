/**
 * The scalar isotropic 3x3 Gaussian (`blurGaussian3x3Kernel<T>` when SIMD is off).
 *
 * Each output sample is the 1-2-1 / 2-4-2 / 1-2-1 weighted mean of the nine
 * edge-replicated neighbours. The source sums the terms in `float`. The sample
 * types it accepts (fewer value bits than `int`) have at most 16 value bits, so
 * every term and partial sum is a multiple of 1/16 whose numerator needs at most
 * 20 significant bits, which `float`'s 24-bit significand holds exactly. The
 * model therefore uses the exact integer sum and then narrows toward zero, as
 * `static_cast<T>` does.
 */
module Gaussian {
  import opened Pixel
  import opened Frame

  /** The binomial weights applied to the nine samples; they add up to 16. */
  function WeightedSum(h: Hood): int {
    h.nw + 2 * h.n + h.ne + 2 * h.w + 4 * h.c + 2 * h.e + h.sw + 2 * h.s + h.se
  }

  /** One output sample: the weighted mean, narrowed toward zero. */
  function Gaussian3x3(h: Hood): int {
    TruncDiv16(WeightedSum(h))
  }

  /** A band of constant value v is left unchanged. */
  lemma FlatIsFixed(v: int)
    ensures Gaussian3x3(Flat(v)) == v
  {
    assert WeightedSum(Flat(v)) == 16 * v;
  }

  /** The output lies between the smallest and the largest of the nine samples. */
  lemma {:induction false} GaussianWithin(h: Hood, lo: int, hi: int)
    requires Within(h, lo, hi)
    ensures lo <= Gaussian3x3(h) <= hi
  {
    var s := WeightedSum(h);
    assert 16 * lo <= s <= 16 * hi;
    var q := TruncDiv16(s);
    if s >= 0 {
      assert 16 * q <= s < 16 * (q + 1);
    } else {
      assert 16 * (q - 1) < s <= 16 * q;
    }
  }

  /** Hence narrowing back to the sample type never overflows. */
  lemma GaussianFits(t: PixelType, h: Hood)
    requires Within(h, t.Min(), t.Max())
    ensures InRange(t, Gaussian3x3(h))
  {
    GaussianWithin(h, t.Min(), t.Max());
  }

  /** The kernel weighs left and right alike. */
  lemma GaussianMirror(h: Hood)
    ensures Gaussian3x3(Mirror(h)) == Gaussian3x3(h)
  {
    assert WeightedSum(Mirror(h)) == WeightedSum(h);
  }

  /**
   * `blurGaussian3x3Kernel<T>`: every pixel of every band of src is blurred into
   * the same place of dst; the extra bands of dst are left as they were.
   */
  method BlurGaussian3x3Kernel(t: PixelType, dst: array3<int>, src: array3<int>)
    requires t.Digits() < IntDigits
    requires dst.Length2 == src.Length2 && dst.Length1 == src.Length1
    requires dst.Length0 >= src.Length0
    requires dst != src
    requires AllInRange(t, src)
    modifies dst
    ensures forall z, y, x :: 0 <= z < src.Length0 && 0 <= y < src.Length1 && 0 <= x < src.Length2 ==>
      dst[z, y, x] == Gaussian3x3(HoodOf(src, z, y, x)) && InRange(t, dst[z, y, x])
    ensures forall z, y, x :: src.Length0 <= z < dst.Length0 && 0 <= y < dst.Length1 && 0 <= x < dst.Length2 ==>
      dst[z, y, x] == old(dst[z, y, x])
  {
    var z := 0;
    while z < src.Length0
      invariant 0 <= z <= src.Length0
      invariant forall z', y, x :: 0 <= z' < z && 0 <= y < src.Length1 && 0 <= x < src.Length2 ==>
        dst[z', y, x] == Gaussian3x3(HoodOf(src, z', y, x))
      invariant forall z', y, x :: z <= z' < dst.Length0 && 0 <= y < dst.Length1 && 0 <= x < dst.Length2 ==>
        dst[z', y, x] == old(dst[z', y, x])
    {
      BlurBand(dst, src, z);
      z := z + 1;
    }
    forall z, y, x | 0 <= z < src.Length0 && 0 <= y < src.Length1 && 0 <= x < src.Length2
      ensures InRange(t, dst[z, y, x])
    {
      GaussianFits(t, HoodOf(src, z, y, x));
    }
  }

  /** One band: a fresh window drafted at row 0 and shifted after every row. */
  method BlurBand(dst: array3<int>, src: array3<int>, z: int)
    requires dst.Length2 == src.Length2 && dst.Length1 == src.Length1
    requires 0 <= z < src.Length0 <= dst.Length0
    requires dst != src
    modifies dst
    ensures forall y, x :: 0 <= y < src.Length1 && 0 <= x < src.Length2 ==>
      dst[z, y, x] == Gaussian3x3(HoodOf(src, z, y, x))
    ensures forall z', y, x :: 0 <= z' < dst.Length0 && z' != z && 0 <= y < dst.Length1 && 0 <= x < dst.Length2 ==>
      dst[z', y, x] == old(dst[z', y, x])
  {
    var win := new Window(src);
    win.Draft(src, z);
    var y := 0;
    while y < src.Length1
      invariant 0 <= y <= src.Length1
      invariant win.Over(src, z) && win.y == y
      invariant forall y', x :: 0 <= y' < y && 0 <= x < src.Length2 ==>
        dst[z, y', x] == Gaussian3x3(HoodOf(src, z, y', x))
      invariant forall z', y', x :: 0 <= z' < dst.Length0 && z' != z && 0 <= y' < dst.Length1 && 0 <= x < dst.Length2 ==>
        dst[z', y', x] == old(dst[z', y', x])
    {
      BlurRow(dst, src, win, z);
      win.Shift(src, z);
      y := y + 1;
    }
  }

  /** One row: every column x of row win.y is written from the window's neighbourhood. */
  method BlurRow(dst: array3<int>, src: array3<int>, win: Window, z: int)
    requires dst.Length2 == src.Length2 && dst.Length1 == src.Length1 && src.Length0 <= dst.Length0
    requires win.Over(src, z) && win.y < win.height
    requires dst != src
    modifies dst
    ensures forall x :: 0 <= x < src.Length2 ==> dst[z, win.y, x] == Gaussian3x3(HoodOf(src, z, win.y, x))
    ensures forall z', y', x ::
      0 <= z' < dst.Length0 && 0 <= y' < dst.Length1 && 0 <= x < dst.Length2 && (z' != z || y' != win.y) ==>
      dst[z', y', x] == old(dst[z', y', x])
  {
    var y := win.y;
    var prevLine, currLine, nextLine := win.prev, win.curr, win.next;
    var x := 0;
    while x < src.Length2
      invariant 0 <= x <= src.Length2
      invariant forall x' :: 0 <= x' < x ==> dst[z, y, x'] == Gaussian3x3(LinesHood(prevLine, currLine, nextLine, x'))
      invariant forall z', y', x' ::
        0 <= z' < dst.Length0 && 0 <= y' < dst.Length1 && 0 <= x' < dst.Length2 && (z' != z || y' != y || x' >= x) ==>
        dst[z', y', x'] == old(dst[z', y', x'])
    {
      // the nine reads win3x3(y±1, x±1), see Window.LinesHoodIsAccessor
      dst[z, y, x] := Gaussian3x3(LinesHood(prevLine, currLine, nextLine, x));
      x := x + 1;
    }
    win.LinesAreHoods(src, z);
  }
}
