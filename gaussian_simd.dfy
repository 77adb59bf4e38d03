/**
 * The vectorised isotropic 3x3 Gaussian (the six `blurGaussian3x3Kernel`
 * overloads for 8-, 16- and 32-bit, signed and unsigned samples).
 *
 * Every lane computes the same shift-based sum
 *   (nw>>4) + (n>>3) + (ne>>4) + (w>>3) + (c>>2) + (e>>3) + (sw>>4) + (s>>3) + (se>>4)
 * in the lane's own width, so each addition wraps modulo 2^bits. The x86
 * branches load the east tap from the centre column; the NEON branch loads the
 * true east neighbour. Vector registers hold L lanes, and the column loop steps
 * by L from 0 with no remainder loop.
 */
module GaussianSimd {
  import opened Pixel
  import opened Frame
  import opened Gaussian

  /** The instruction sets the overloads dispatch on. */
  datatype Isa = SSE2 | AVX2 | AVX512 | NEON

  /** Lanes per vector: the register width the overload uses for type t, over the sample width. */
  function LaneWidth(t: PixelType, isa: Isa): (l: nat)
    ensures l > 0
  {
    match t
    case U8 | S8 => if isa == SSE2 || isa == NEON then 16 else 32
    case U16 | S16 => if isa == SSE2 || isa == NEON then 8 else 16
    case U32 | S32 =>
      match isa
      case SSE2 => 4
      case AVX2 => 8
      case AVX512 => 16
      case NEON => 4
  }

  /** Column offset of the "east" load from the current line: x86 uses x+0, NEON x+1. */
  function EastOffset(isa: Isa): int {
    if isa == NEON then 1 else 0
  }

  /** The exact sum of a sequence of terms, added from the first to the last. */
  function Total(terms: seq<int>): int {
    if |terms| == 0 then 0 else Total(terms[..|terms| - 1]) + terms[|terms| - 1]
  }

  /**
   * A lane register cleared to zero and then added each term in order, every
   * addition wrapping to the lane type.
   */
  function Accumulate(t: PixelType, terms: seq<int>): (r: int)
    ensures InRange(t, r)
  {
    if |terms| == 0 then 0 else Wrap(t, Accumulate(t, terms[..|terms| - 1]) + terms[|terms| - 1])
  }

  /** When no running total leaves the lane type, the register holds the exact total. */
  lemma {:induction false} AccumulateExact(t: PixelType, terms: seq<int>)
    requires forall k :: 0 < k <= |terms| ==> InRange(t, Total(terms[..k]))
    ensures Accumulate(t, terms) == Total(terms)
  {
    if |terms| > 0 {
      var init := terms[..|terms| - 1];
      forall k | 0 < k <= |init|
        ensures InRange(t, Total(init[..k]))
      {
        assert init[..k] == terms[..k];
      }
      AccumulateExact(t, init);
      assert terms[..|terms|] == terms;
    }
  }

  /** The running totals of nine terms, written out. */
  lemma PrefixTotals(q: seq<int>)
    requires |q| == 9
    ensures Total(q[..1]) == q[0]
    ensures Total(q[..2]) == q[0] + q[1]
    ensures Total(q[..3]) == q[0] + q[1] + q[2]
    ensures Total(q[..4]) == q[0] + q[1] + q[2] + q[3]
    ensures Total(q[..5]) == q[0] + q[1] + q[2] + q[3] + q[4]
    ensures Total(q[..6]) == q[0] + q[1] + q[2] + q[3] + q[4] + q[5]
    ensures Total(q[..7]) == q[0] + q[1] + q[2] + q[3] + q[4] + q[5] + q[6]
    ensures Total(q[..8]) == q[0] + q[1] + q[2] + q[3] + q[4] + q[5] + q[6] + q[7]
    ensures Total(q) == q[0] + q[1] + q[2] + q[3] + q[4] + q[5] + q[6] + q[7] + q[8]
  {
    assert q[..1][..0] == [];
    assert q[..2][..1] == q[..1];
    assert q[..3][..2] == q[..2];
    assert q[..4][..3] == q[..3];
    assert q[..5][..4] == q[..4];
    assert q[..6][..5] == q[..5];
    assert q[..7][..6] == q[..6];
    assert q[..8][..7] == q[..7];
    assert q[..9] == q;
  }

  /** The nine shifted taps of one lane, in the order the source adds them. */
  function ShiftedTaps(h: Hood): seq<int> {
    [Shr(h.nw, 4), Shr(h.n, 3), Shr(h.ne, 4),
     Shr(h.w, 3), Shr(h.c, 2), Shr(h.e, 3),
     Shr(h.sw, 4), Shr(h.s, 3), Shr(h.se, 4)]
  }

  /**
   * The nine shift-and-accumulate steps of one lane, in source order, starting
   * from zero; every addition wraps to the lane type.
   */
  function ShiftSum(t: PixelType, h: Hood): (r: int)
    ensures InRange(t, r)
  {
    Accumulate(t, ShiftedTaps(h))
  }

  /** The same nine shifted terms, added without any wrap-around. */
  function ExactShiftSum(h: Hood): int {
    Shr(h.nw, 4) + Shr(h.n, 3) + Shr(h.ne, 4) +
    Shr(h.w, 3) + Shr(h.c, 2) + Shr(h.e, 3) +
    Shr(h.sw, 4) + Shr(h.s, 3) + Shr(h.se, 4)
  }

  /** A lane of the x86 branches: the east tap is loaded from the centre column. */
  function X86Lane(t: PixelType, h: Hood): int {
    ShiftSum(t, h.(e := h.c))
  }

  /** A lane of the NEON branch: nine shift-right-accumulate steps over the true neighbours. */
  function NeonLane(t: PixelType, h: Hood): int {
    ShiftSum(t, h)
  }

  /** The lane function the overload runs on the given instruction set. */
  function Lane(t: PixelType, isa: Isa, h: Hood): int {
    if isa == NEON then NeonLane(t, h) else X86Lane(t, h)
  }

  /** Bounds on one shifted term, for a sample in lo .. hi with lo a multiple of 16. */
  lemma ShrBounds(v: int, lo: int, hi: int)
    requires lo <= v <= hi && lo % 16 == 0
    ensures lo <= 16 * Shr(v, 4) <= hi
    ensures lo <= 8 * Shr(v, 3) <= hi
    ensures lo <= 4 * Shr(v, 2) <= hi
  {
    SmallPowers();
    var q4, q3, q2 := Shr(v, 4), Shr(v, 3), Shr(v, 2);
    assert 16 * q4 <= v < 16 * (q4 + 1);
    assert 8 * q3 <= v < 8 * (q3 + 1);
    assert 4 * q2 <= v < 4 * (q2 + 1);
    var j := lo / 16;
    assert lo == 16 * j;
    assert j <= q4 && 2 * j <= q3 && 4 * j <= q2;
  }

  /**
   * The running sums of nine terms, weighted 1/16, 1/8, 1/16, 1/8, 1/4, 1/8,
   * 1/16, 1/8, 1/16 of values in lo .. hi, stay in lo .. hi when lo <= 0 <= hi.
   */
  lemma PartialSumsWithin(lo: int, hi: int, q1: int, q2: int, q3: int, q4: int, q5: int,
                          q6: int, q7: int, q8: int, q9: int)
    requires lo <= 0 <= hi
    requires lo <= 16 * q1 <= hi && lo <= 8 * q2 <= hi && lo <= 16 * q3 <= hi
    requires lo <= 8 * q4 <= hi && lo <= 4 * q5 <= hi && lo <= 8 * q6 <= hi
    requires lo <= 16 * q7 <= hi && lo <= 8 * q8 <= hi && lo <= 16 * q9 <= hi
    ensures lo <= q1 <= hi && lo <= q1 + q2 <= hi && lo <= q1 + q2 + q3 <= hi
    ensures lo <= q1 + q2 + q3 + q4 <= hi && lo <= q1 + q2 + q3 + q4 + q5 <= hi
    ensures lo <= q1 + q2 + q3 + q4 + q5 + q6 <= hi
    ensures lo <= q1 + q2 + q3 + q4 + q5 + q6 + q7 <= hi
    ensures lo <= q1 + q2 + q3 + q4 + q5 + q6 + q7 + q8 <= hi
    ensures lo <= q1 + q2 + q3 + q4 + q5 + q6 + q7 + q8 + q9 <= hi
  {
  }

  /**
   * Nine terms weighted as the shift taps are, each scaled back into the lane
   * type, never take a running total out of it, so the register holds the
   * exact total.
   */
  lemma TapTermsNoWrap(t: PixelType, q: seq<int>)
    requires |q| == 9
    requires InRange(t, 16 * q[0]) && InRange(t, 8 * q[1]) && InRange(t, 16 * q[2])
    requires InRange(t, 8 * q[3]) && InRange(t, 4 * q[4]) && InRange(t, 8 * q[5])
    requires InRange(t, 16 * q[6]) && InRange(t, 8 * q[7]) && InRange(t, 16 * q[8])
    ensures Accumulate(t, q) == Total(q)
  {
    PrefixTotals(q);
    PartialSumsWithin(t.Min(), t.Max(), q[0], q[1], q[2], q[3], q[4], q[5], q[6], q[7], q[8]);
    forall k | 0 < k <= |q|
      ensures InRange(t, Total(q[..k]))
    {
      if k == 1 { } else if k == 2 { } else if k == 3 { } else if k == 4 { }
      else if k == 5 { } else if k == 6 { } else if k == 7 { } else if k == 8 { }
      else { assert q[..k] == q; }
    }
    AccumulateExact(t, q);
  }

  /**
   * On samples of the lane type no partial sum leaves the type's range (the
   * shift weights add up to one), so the lane additions never wrap.
   */
  lemma ShiftSumNoWrap(t: PixelType, h: Hood)
    requires Within(h, t.Min(), t.Max())
    ensures ShiftSum(t, h) == ExactShiftSum(h)
  {
    var lo, hi := t.Min(), t.Max();
    assert lo % 16 == 0;
    ShrBounds(h.nw, lo, hi); ShrBounds(h.n, lo, hi); ShrBounds(h.ne, lo, hi);
    ShrBounds(h.w, lo, hi);  ShrBounds(h.c, lo, hi); ShrBounds(h.e, lo, hi);
    ShrBounds(h.sw, lo, hi); ShrBounds(h.s, lo, hi); ShrBounds(h.se, lo, hi);
    var q := ShiftedTaps(h);
    TapTermsNoWrap(t, q);
    PrefixTotals(q);
  }

  /** Without wrap-around the shift sum never exceeds the largest sample and loses at most 8. */
  lemma ExactShiftSumWithin(h: Hood, lo: int, hi: int)
    requires Within(h, lo, hi)
    ensures lo - 8 <= ExactShiftSum(h) <= hi
  {
    SmallPowers();
  }

  /**
   * Every shifted term is at most its exact share and loses less than one
   * unit of its shift: the nine losses add up to at most 4*15 + 4*2*7 + 4*3.
   */
  lemma ExactShiftSumBelowWeighted(h: Hood)
    ensures 16 * ExactShiftSum(h) <= WeightedSum(h)
    ensures WeightedSum(h) <= 16 * ExactShiftSum(h) + 128
  {
    SmallPowers();
  }

  /** The NEON lane never exceeds the scalar reference and falls short of it by at most 8. */
  lemma NeonBelowReference(t: PixelType, h: Hood)
    requires Within(h, t.Min(), t.Max())
    ensures NeonLane(t, h) <= Gaussian3x3(h)
    ensures Gaussian3x3(h) - NeonLane(t, h) <= 8
  {
    ShiftSumNoWrap(t, h);
    ExactShiftSumBelowWeighted(h);
  }

  /**
   * On either instruction set a lane never exceeds the largest of its nine
   * samples and falls at most 8 below the smallest.
   */
  lemma LaneWithin(t: PixelType, isa: Isa, h: Hood, lo: int, hi: int)
    requires Within(h, t.Min(), t.Max()) && Within(h, lo, hi)
    ensures lo - 8 <= Lane(t, isa, h) <= hi
  {
    var g := if isa == NEON then h else h.(e := h.c);
    ShiftSumNoWrap(t, g);
    ExactShiftSumWithin(g, lo, hi);
  }

  /**
   * Flat input is not preserved by the shift sum: a band of 10 becomes 6 and a
   * band of 15 becomes 7, 8 below the scalar reference.
   */
  lemma ShiftSumNotFlat()
    ensures NeonLane(U8, Flat(10)) == 6 && Gaussian3x3(Flat(10)) == 10
    ensures NeonLane(U8, Flat(15)) == 7 && Gaussian3x3(Flat(15)) == 15
  {
    SmallPowers();
    ShiftSumNoWrap(U8, Flat(10));
    ShiftSumNoWrap(U8, Flat(15));
    FlatIsFixed(10);
    FlatIsFixed(15);
  }

  /** The NEON lane weighs the left and right neighbours alike. */
  lemma NeonMirror(t: PixelType, h: Hood)
    requires Within(h, t.Min(), t.Max())
    ensures NeonLane(t, Mirror(h)) == NeonLane(t, h)
  {
    ShiftSumNoWrap(t, h);
    ShiftSumNoWrap(t, Mirror(h));
  }

  /** One lane on a neighbourhood of zeros except one sample of 8 at a tap weighted 1/8. */
  lemma OneTapLanes()
    ensures ShiftSum(U8, Flat(0)) == 0
    ensures ShiftSum(U8, Hood(0, 0, 0, 8, 0, 0, 0, 0, 0)) == 1
    ensures ShiftSum(U8, Hood(0, 0, 0, 0, 0, 8, 0, 0, 0)) == 1
  {
    SmallPowers();
    ShiftSumNoWrap(U8, Flat(0));
    ShiftSumNoWrap(U8, Hood(0, 0, 0, 8, 0, 0, 0, 0, 0));
    ShiftSumNoWrap(U8, Hood(0, 0, 0, 0, 0, 8, 0, 0, 0));
  }

  /** The x86 lane reads the centre where the east neighbour belongs: a lone 8 to the east is lost. */
  lemma X86EastLost()
    ensures X86Lane(U8, Hood(0, 0, 0, 0, 0, 8, 0, 0, 0)) == 0
  {
    OneTapLanes();
  }

  /** The same 8 to the west counts for one. */
  lemma X86WestKept()
    ensures X86Lane(U8, Hood(0, 0, 0, 8, 0, 0, 0, 0, 0)) == 1
  {
    OneTapLanes();
  }

  /** The NEON lane counts a lone 8 to the east for one. */
  lemma NeonEastKept()
    ensures NeonLane(U8, Hood(0, 0, 0, 0, 0, 8, 0, 0, 0)) == 1
  {
    OneTapLanes();
  }

  /**
   * The x86 lane does not weigh left and right alike: with a single non-zero
   * sample east of the centre the lane gives 0, with it west of the centre 1,
   * where the NEON lane gives 1.
   */
  lemma X86NotMirror()
    ensures var h := Hood(0, 0, 0, 0, 0, 8, 0, 0, 0);
      X86Lane(U8, h) == 0 && X86Lane(U8, Mirror(h)) == 1 && NeonLane(U8, h) == 1
  {
    X86EastLost();
    X86WestKept();
    NeonEastKept();
    assert Mirror(Hood(0, 0, 0, 0, 0, 8, 0, 0, 0)) == Hood(0, 0, 0, 8, 0, 0, 0, 0, 0);
  }

  /**
   * The x86 lane counts the centre twice, so it can exceed the scalar
   * reference: a lone centre of 255 gives 94 where the reference gives 63.
   */
  lemma X86AboveReference()
    ensures X86Lane(U8, Hood(0, 0, 0, 0, 255, 0, 0, 0, 0)) == 94
    ensures Gaussian3x3(Hood(0, 0, 0, 0, 255, 0, 0, 0, 0)) == 63
  {
    SmallPowers();
    ShiftSumNoWrap(U8, Hood(0, 0, 0, 0, 255, 255, 0, 0, 0));
  }

  /** Multiplication by a non-negative factor is monotone. */
  lemma {:induction false} MulMonotone(l: nat, a: int, b: int)
    requires a <= b
    ensures a * l <= b * l
  {
    if l > 0 {
      MulMonotone(l - 1, a, b);
      assert a * l == a * (l - 1) + a && b * l == b * (l - 1) + b;
    }
  }

  /** The vector starting at block k lies inside a row of nb whole blocks. */
  lemma BlockFits(k: int, nb: int, l: nat)
    requires 0 < l && 0 <= k * l < nb * l
    ensures (k + 1) * l <= nb * l
  {
    if k + 1 > nb {
      MulMonotone(l, nb, k);
    }
    if k + 1 <= nb {
      MulMonotone(l, k + 1, nb);
    }
  }

  /**
   * `blurGaussian3x3Kernel` for lane type t on instruction set isa: every pixel
   * of every band of src gets the lane function of its edge-replicated
   * neighbourhood; the extra bands of dst are left as they were.
   */
  method BlurGaussian3x3Kernel(t: PixelType, isa: Isa, dst: array3<int>, src: array3<int>)
    requires dst.Length2 == src.Length2 && dst.Length1 == src.Length1
    requires dst.Length0 >= src.Length0
    requires dst != src
    requires src.Length2 % LaneWidth(t, isa) == 0
    modifies dst
    ensures forall z, y, x :: 0 <= z < src.Length0 && 0 <= y < src.Length1 && 0 <= x < src.Length2 ==>
      dst[z, y, x] == Lane(t, isa, HoodOf(src, z, y, x)) && InRange(t, dst[z, y, x])
    ensures forall z, y, x :: src.Length0 <= z < dst.Length0 && 0 <= y < dst.Length1 && 0 <= x < dst.Length2 ==>
      dst[z, y, x] == old(dst[z, y, x])
  {
    var z := 0;
    while z < src.Length0
      invariant 0 <= z <= src.Length0
      invariant forall z', y, x :: 0 <= z' < z && 0 <= y < src.Length1 && 0 <= x < src.Length2 ==>
        dst[z', y, x] == Lane(t, isa, HoodOf(src, z', y, x))
      invariant forall z', y, x :: z <= z' < dst.Length0 && 0 <= y < dst.Length1 && 0 <= x < dst.Length2 ==>
        dst[z', y, x] == old(dst[z', y, x])
    {
      BlurBand(t, isa, dst, src, z);
      z := z + 1;
    }
  }

  /** One band: a fresh window drafted at row 0 and shifted after every row. */
  method BlurBand(t: PixelType, isa: Isa, dst: array3<int>, src: array3<int>, z: int)
    requires dst.Length2 == src.Length2 && dst.Length1 == src.Length1
    requires 0 <= z < src.Length0 <= dst.Length0
    requires dst != src
    requires src.Length2 % LaneWidth(t, isa) == 0
    modifies dst
    ensures forall y, x :: 0 <= y < src.Length1 && 0 <= x < src.Length2 ==>
      dst[z, y, x] == Lane(t, isa, HoodOf(src, z, y, x))
    ensures forall z', y, x :: 0 <= z' < dst.Length0 && z' != z && 0 <= y < dst.Length1 && 0 <= x < dst.Length2 ==>
      dst[z', y, x] == old(dst[z', y, x])
  {
    var win := new Window(src);
    win.Draft(src, z);
    var y := 0;
    while y < src.Length1
      invariant 0 <= y <= src.Length1
      invariant win.Over(src, z) && win.y == y
      invariant forall y', x :: 0 <= y' < y && 0 <= x < src.Length2 ==>
        dst[z, y', x] == Lane(t, isa, HoodOf(src, z, y', x))
      invariant forall z', y', x :: 0 <= z' < dst.Length0 && z' != z && 0 <= y' < dst.Length1 && 0 <= x < dst.Length2 ==>
        dst[z', y', x] == old(dst[z', y', x])
    {
      BlurRow(t, isa, dst, src, win, z);
      win.Shift(src, z);
      y := y + 1;
    }
  }

  /** One row: the columns are processed one vector of L lanes at a time. */
  method BlurRow(t: PixelType, isa: Isa, dst: array3<int>, src: array3<int>, win: Window, z: int)
    requires dst.Length2 == src.Length2 && dst.Length1 == src.Length1 && src.Length0 <= dst.Length0
    requires win.Over(src, z) && win.y < win.height
    requires dst != src
    requires src.Length2 % LaneWidth(t, isa) == 0
    modifies dst
    ensures forall x :: 0 <= x < src.Length2 ==> dst[z, win.y, x] == Lane(t, isa, HoodOf(src, z, win.y, x))
    ensures forall z', y', x ::
      0 <= z' < dst.Length0 && 0 <= y' < dst.Length1 && 0 <= x < dst.Length2 && (z' != z || y' != win.y) ==>
      dst[z', y', x] == old(dst[z', y', x])
  {
    var L := LaneWidth(t, isa);
    var y := win.y;
    var prevLine, currLine, nextLine := win.prev, win.curr, win.next;
    ghost var nb := src.Length2 / L;
    assert src.Length2 == nb * L;
    ghost var k := 0;
    var x := 0;
    while x < src.Length2
      invariant 0 <= x <= src.Length2 && x == k * L
      invariant forall x' :: 0 <= x' < x ==> dst[z, y, x'] == Lane(t, isa, LinesHood(prevLine, currLine, nextLine, x'))
      invariant forall z', y', x' ::
        0 <= z' < dst.Length0 && 0 <= y' < dst.Length1 && 0 <= x' < dst.Length2 && (z' != z || y' != y || x' >= x) ==>
        dst[z', y', x'] == old(dst[z', y', x'])
    {
      BlockFits(k, nb, L);
      BlurVector(t, isa, dst, prevLine, currLine, nextLine, z, y, x);
      x, k := x + L, k + 1;
    }
    win.LinesAreHoods(src, z);
  }

  /**
   * One vector: lanes x .. x+L-1 of row y, each loading its nine taps from the
   * three padded lines (the east tap at `x + EastOffset(isa)`) and storing its
   * shift sum.
   */
  method BlurVector(t: PixelType, isa: Isa, dst: array3<int>, prevLine: seq<int>, currLine: seq<int>,
                    nextLine: seq<int>, z: int, y: int, x: int)
    requires 0 <= z < dst.Length0 && 0 <= y < dst.Length1
    requires |prevLine| == |currLine| == |nextLine| == dst.Length2 + 2
    requires 0 <= x && x + LaneWidth(t, isa) <= dst.Length2
    modifies dst
    ensures forall c :: x <= c < x + LaneWidth(t, isa) ==> dst[z, y, c] == Lane(t, isa, LinesHood(prevLine, currLine, nextLine, c))
    ensures forall z', y', x' ::
      0 <= z' < dst.Length0 && 0 <= y' < dst.Length1 && 0 <= x' < dst.Length2 &&
      (z' != z || y' != y || x' < x || x + LaneWidth(t, isa) <= x') ==>
      dst[z', y', x'] == old(dst[z', y', x'])
  {
    var L := LaneWidth(t, isa);
    var i := 0;
    while i < L
      invariant 0 <= i <= L
      invariant forall c :: x <= c < x + i ==> dst[z, y, c] == Lane(t, isa, LinesHood(prevLine, currLine, nextLine, c))
      invariant forall z', y', x' ::
        0 <= z' < dst.Length0 && 0 <= y' < dst.Length1 && 0 <= x' < dst.Length2 &&
        (z' != z || y' != y || x' < x || x + i <= x') ==>
        dst[z', y', x'] == old(dst[z', y', x'])
    {
      var c := x + i;
      var h := Hood(Col(prevLine, c - 1), Col(prevLine, c), Col(prevLine, c + 1),
                    Col(currLine, c - 1), Col(currLine, c), Col(currLine, c + EastOffset(isa)),
                    Col(nextLine, c - 1), Col(nextLine, c), Col(nextLine, c + 1));
      LaneLoadsHood(t, isa, prevLine, currLine, nextLine, c, h);
      dst[z, y, c] := ShiftSum(t, h);
      i := i + 1;
    }
  }

  /** What one lane loads from the three lines is its neighbourhood, with the x86 east tap at the centre. */
  lemma LaneLoadsHood(t: PixelType, isa: Isa, prevLine: seq<int>, currLine: seq<int>, nextLine: seq<int>,
                      c: int, h: Hood)
    requires |prevLine| == |currLine| == |nextLine| && 0 <= c && c + 2 < |currLine|
    requires h == Hood(Col(prevLine, c - 1), Col(prevLine, c), Col(prevLine, c + 1),
                       Col(currLine, c - 1), Col(currLine, c), Col(currLine, c + EastOffset(isa)),
                       Col(nextLine, c - 1), Col(nextLine, c), Col(nextLine, c + 1))
    ensures ShiftSum(t, h) == Lane(t, isa, LinesHood(prevLine, currLine, nextLine, c))
  {
    var g := LinesHood(prevLine, currLine, nextLine, c);
    if isa == NEON {
      assert h == g;
    } else {
      assert h == g.(e := g.c);
    }
  }
}
