/**
 * Rasters and the 3x3 window frame.
 *
 * A raster is an `array3<int>` indexed `[band, row, column]`: `Length0` is the
 * band count, `Length1` the height and `Length2` the width. The window frame
 * (`window3x3_frame` of cpixmap.hpp) holds copies of three rows of one band,
 * each padded with one clamped column on either side, and slides down the band
 * one row at a time. Its accessor answers with edge replication: row and column
 * indices outside the raster are clamped to the nearest edge.
 */
module Frame {
  import opened Pixel

  /** The nine samples a 3x3 kernel reads around one pixel. */
  datatype Hood = Hood(nw: int, n: int, ne: int,
                       w: int,  c: int, e: int,
                       sw: int, s: int, se: int)

  /** Every one of the nine samples lies in `lo .. hi`. */
  predicate Within(h: Hood, lo: int, hi: int) {
    && lo <= h.nw <= hi && lo <= h.n <= hi && lo <= h.ne <= hi
    && lo <= h.w <= hi  && lo <= h.c <= hi && lo <= h.e <= hi
    && lo <= h.sw <= hi && lo <= h.s <= hi && lo <= h.se <= hi
  }

  /** The neighbourhood of a band whose samples all equal `v`. */
  function Flat(v: int): Hood {
    Hood(v, v, v, v, v, v, v, v, v)
  }

  /** Left-right reflection of a neighbourhood. */
  function Mirror(h: Hood): Hood {
    Hood(h.ne, h.n, h.nw, h.e, h.c, h.w, h.se, h.s, h.sw)
  }

  /** Every sample of the raster lies in `lo .. hi`. */
  ghost predicate AllWithin(a: array3<int>, lo: int, hi: int)
    reads a
  {
    forall z, y, x :: 0 <= z < a.Length0 && 0 <= y < a.Length1 && 0 <= x < a.Length2 ==>
      lo <= a[z, y, x] <= hi
  }

  /** Every sample of the raster is a value of type `t`. */
  ghost predicate AllInRange(t: PixelType, a: array3<int>)
    reads a
  {
    AllWithin(a, t.Min(), t.Max())
  }

  /** Sample (r, c) of band z with edge replication on both axes. */
  ghost function Clamped(src: array3<int>, z: int, r: int, c: int): int
    reads src
    requires 0 <= z < src.Length0 && src.Length1 > 0 && src.Length2 > 0
  {
    src[z, Clamp(r, src.Length1), Clamp(c, src.Length2)]
  }

  /** The edge-replicated 3x3 neighbourhood of pixel (y, x) of band z. */
  ghost function HoodOf(src: array3<int>, z: int, y: int, x: int): Hood
    reads src
    requires 0 <= z < src.Length0 && 0 <= y < src.Length1 && 0 <= x < src.Length2
  {
    Hood(Clamped(src, z, y - 1, x - 1), Clamped(src, z, y - 1, x), Clamped(src, z, y - 1, x + 1),
         Clamped(src, z, y, x - 1),     Clamped(src, z, y, x),     Clamped(src, z, y, x + 1),
         Clamped(src, z, y + 1, x - 1), Clamped(src, z, y + 1, x), Clamped(src, z, y + 1, x + 1))
  }

  /** Edge replication reads only samples of the raster, so bounds on the raster bound every neighbourhood. */
  lemma HoodOfWithin(a: array3<int>, z: int, y: int, x: int, lo: int, hi: int)
    requires 0 <= z < a.Length0 && 0 <= y < a.Length1 && 0 <= x < a.Length2
    requires AllWithin(a, lo, hi)
    ensures Within(HoodOf(a, z, y, x), lo, hi)
  {
  }

  /**
   * Sample (r, c) of band z with edge replication, for any r and c; an empty
   * raster has nothing to replicate and reads as zero.
   */
  ghost function EdgeSample(src: array3<int>, z: int, r: int, c: int): int
    reads src
    requires 0 <= z < src.Length0
  {
    if src.Length1 > 0 && src.Length2 > 0 then src[z, Clamp(r, src.Length1), Clamp(c, src.Length2)] else 0
  }

  /**
   * `line` is a copy of row r of band z, row index clamped, with one padding
   * column on each side: position i holds column i - 1, clamped.
   */
  ghost predicate IsPaddedRow(line: seq<int>, src: array3<int>, z: int, r: int)
    reads src
    requires 0 <= z < src.Length0
  {
    |line| == src.Length2 + 2 && forall i :: 0 <= i < |line| ==> line[i] == EdgeSample(src, z, r, i - 1)
  }

  /** Copy row r of band z into a padded line. */
  function PaddedRow(src: array3<int>, z: int, r: int): (line: seq<int>)
    reads src
    requires 0 <= z < src.Length0
    ensures IsPaddedRow(line, src, z, r)
  {
    seq(src.Length2 + 2, i requires 0 <= i < src.Length2 + 2 reads src =>
      if src.Length1 > 0 && src.Length2 > 0
      then src[z, Clamp(r, src.Length1), Clamp(i - 1, src.Length2)]
      else 0)
  }

  /**
   * The padding of a row copy: its middle is the row's own columns in order,
   * each end repeats the column next to it, and rows above the top or below
   * the bottom copy the first or the last row.
   */
  lemma PaddedRowReplicates(src: array3<int>, z: int, r: int)
    requires 0 <= z < src.Length0 && src.Length1 > 0 && src.Length2 > 0
    ensures var line, w := PaddedRow(src, z, r), src.Length2;
      && (0 <= r < src.Length1 ==> forall c :: 0 <= c < w ==> line[c + 1] == src[z, r, c])
      && line[0] == line[1]
      && line[w + 1] == line[w]
      && (r < 0 ==> line == PaddedRow(src, z, 0))
      && (src.Length1 <= r ==> line == PaddedRow(src, z, src.Length1 - 1))
  {
  }

  /** Column `c` (from -1 to the width) of a padded row. */
  function Col(line: seq<int>, c: int): int
    requires -1 <= c && c + 1 < |line|
  {
    line[c + 1]
  }

  /** The nine samples around column x of three padded lines. */
  function LinesHood(prev: seq<int>, curr: seq<int>, next: seq<int>, x: int): Hood
    requires |prev| == |curr| == |next| && 0 <= x && x + 2 < |curr|
  {
    Hood(Col(prev, x - 1), Col(prev, x), Col(prev, x + 1),
         Col(curr, x - 1), Col(curr, x), Col(curr, x + 1),
         Col(next, x - 1), Col(next, x), Col(next, x + 1))
  }

  class Window {
    var width: nat
    var height: nat
    /** The current row; the frame holds rows y-1, y and y+1. */
    var y: int
    var prev: seq<int>
    var curr: seq<int>
    var next: seq<int>

    ghost predicate Valid()
      reads this
    {
      |prev| == width + 2 && |curr| == width + 2 && |next| == width + 2 && 0 <= y <= height
    }

    /** The frame is bound to band z of src and holds its rows y-1, y, y+1. */
    ghost predicate Over(src: array3<int>, z: int)
      reads this, src
    {
      && Valid()
      && 0 <= z < src.Length0 && height == src.Length1 && width == src.Length2
      && IsPaddedRow(prev, src, z, y - 1)
      && IsPaddedRow(curr, src, z, y)
      && IsPaddedRow(next, src, z, y + 1)
    }

    /** A frame sized for the rows of src, not yet drafted. */
    constructor (src: array3<int>)
      ensures Valid() && width == src.Length2 && height == src.Length1 && y == 0
    {
      width, height, y := src.Length2, src.Length1, 0;
      prev := seq(src.Length2 + 2, _ => 0);
      curr := seq(src.Length2 + 2, _ => 0);
      next := seq(src.Length2 + 2, _ => 0);
    }

    /** `draftFrame`: bind the frame to band z at row 0; the row above is row 0 replicated. */
    method Draft(src: array3<int>, z: int)
      requires Valid() && 0 <= z < src.Length0 && height == src.Length1 && width == src.Length2
      modifies this
      ensures Over(src, z) && y == 0
      ensures width == old(width) && height == old(height)
    {
      y := 0;
      prev := PaddedRow(src, z, -1);
      curr := PaddedRow(src, z, 0);
      next := PaddedRow(src, z, 1);
    }

    /** `shiftFrame`: move down one row, rotating the buffers and copying the row two below. */
    method Shift(src: array3<int>, z: int)
      requires Over(src, z) && y < height
      modifies this
      ensures Over(src, z) && y == old(y) + 1
      ensures prev == old(curr) && curr == old(next)
      ensures width == old(width) && height == old(height)
    {
      var row := y + 1;
      var below := PaddedRow(src, z, row + 1);
      assert IsPaddedRow(curr, src, z, row - 1) && IsPaddedRow(next, src, z, row);
      prev, curr, next := curr, next, below;
      y := row;
    }

    /** `operator()(r, c)`: sample (r, c) for a row r within one of the current row. */
    function At(r: int, c: int): int
      reads this
      requires Valid() && y - 1 <= r <= y + 1 && -1 <= c <= width
    {
      Col(if r < y then prev else if r == y then curr else next, c)
    }

    /** The accessor contract: at(r, c) is src[clamp(r)][clamp(c)]. */
    lemma AtIsClamped(src: array3<int>, z: int, r: int, c: int)
      requires Over(src, z) && y < height && 0 < width
      requires y - 1 <= r <= y + 1 && -1 <= c <= width
      ensures At(r, c) == Clamped(src, z, r, c)
    {
    }

    /**
     * The kernels read the nine samples `win3x3(y±1, x±1)` through the
     * accessor; the model reads the same nine entries of the three lines with
     * `LinesHood`.
     */
    lemma LinesHoodIsAccessor(x: int)
      requires Valid() && 0 <= x < width
      ensures LinesHood(prev, curr, next, x) ==
        Hood(At(y - 1, x - 1), At(y - 1, x), At(y - 1, x + 1),
             At(y, x - 1),     At(y, x),     At(y, x + 1),
             At(y + 1, x - 1), At(y + 1, x), At(y + 1, x + 1))
    {
    }

    /** The padded lines, read at columns -1 .. width, are the clamped rows y-1, y, y+1. */
    lemma LinesAreClamped(src: array3<int>, z: int, c: int)
      requires Over(src, z) && y < height && 0 < width && -1 <= c <= width
      ensures Col(prev, c) == Clamped(src, z, y - 1, c)
      ensures Col(curr, c) == Clamped(src, z, y, c)
      ensures Col(next, c) == Clamped(src, z, y + 1, c)
    {
    }

    /** Every neighbourhood the window's lines give is the edge-replicated one of the raster. */
    lemma LinesAreHoods(src: array3<int>, z: int)
      requires Over(src, z) && y < height
      ensures forall x :: 0 <= x < width ==> LinesHood(prev, curr, next, x) == HoodOf(src, z, y, x)
    {
      forall x | 0 <= x < width
        ensures LinesHood(prev, curr, next, x) == HoodOf(src, z, y, x)
      {
        LinesAreClamped(src, z, x - 1);
        LinesAreClamped(src, z, x);
        LinesAreClamped(src, z, x + 1);
      }
    }

    /** Bounds on the raster bound every neighbourhood the window's lines give. */
    lemma LinesWithin(src: array3<int>, z: int, lo: int, hi: int)
      requires Over(src, z) && y < height && AllWithin(src, lo, hi)
      ensures forall x :: 0 <= x < width ==> Within(LinesHood(prev, curr, next, x), lo, hi)
    {
      LinesAreHoods(src, z);
      forall x | 0 <= x < width
        ensures Within(LinesHood(prev, curr, next, x), lo, hi)
      {
        HoodOfWithin(src, z, y, x, lo, hi);
      }
    }
  }
}
