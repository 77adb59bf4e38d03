# gaussian_filter in Dafny

A model of the integer image filters of `gaussian_filter.hpp` and
`gaussian_filter.SIMD.hpp`, with proofs about it.

A raster is a multi-band planar image of integer samples. It is modelled as an
`array3<int>` indexed `[band, row, column]`, and the sample type is one of six
widths (`Pixel.PixelType`: u8, s8, u16, s16, u32, s32). Every kernel walks the
bands, then the rows, then the columns. It reads the 3x3 neighbourhood of each
pixel through a sliding three-row window and writes the result into `dst` in place.
The window is `window3x3_frame` of cpixmap.hpp. It is drafted at row 0 of a band
and shifted after each row. At the borders it answers with edge replication.

- **Window frame** (`frame.dfy`). The class `Frame.Window` holds three padded
  row copies. `Draft` and `Shift` keep the invariant `Over(src, z)`: the rows
  are the clamped source rows `y-1`, `y` and `y+1`. The accessor contract is
  clamp-to-edge, `At(r, c) == src[z, clamp(r), clamp(c)]`. cpixmap.hpp is not
  part of this model, so this contract is the window's specification rather
  than a transcription of its code.
- **Isotropic Gaussian, scalar** (`gaussian.dfy`). Each output is the
  1-2-1 / 2-4-2 / 1-2-1 weighted sum divided by 16, narrowed toward zero. The
  source sums in `float`. The sample types it accepts (fewer value bits than
  `int`) have at most 16 value bits, so every term and partial sum is a
  multiple of 1/16 whose numerator needs at most 20 significant bits, which
  `float`'s 24-bit significand holds exactly. The model therefore uses the
  exact integer sum.
- **Isotropic Gaussian, vectorised** (`gaussian_simd.dfy`). Each lane adds nine
  right-shifted taps in the lane's own width, and every addition wraps. The x86
  branches load the east tap from the centre column; the NEON branch loads the
  true east neighbour. Columns go one vector of L lanes at a time.
- **Directional blur** (`directional.dfy`). Pass 1 labels every pixel with the
  axis of its strongest gradient. Pass 2 counts the nine labels around each
  pixel and takes the majority axis. It then blurs along that axis with
  `(a>>2) + (c>>1) + (b>>2)`. Both choices use the same if-cascade, which
  picks a largest score and gives ties to the higher direction code.

Three consequences of the code are worth knowing:
- The scalar Gaussian truncates toward zero (`static_cast`); it does not round
  to nearest (`Pixel.TruncDiv16`).
- The shift-based kernel does not keep a flat band flat: a flat u8 band of 10
  becomes 6 and one of 15 becomes 7 (`GaussianSimd.ShiftSumNotFlat`). The NEON
  lane is never above the scalar reference and at most 8 below it, for every
  sample type (`GaussianSimd.NeonBelowReference`). The x86 lane has no such
  bound, because it counts the centre in place of the east neighbour: a lone
  centre of 255 gives 94 where the reference gives 63
  (`GaussianSimd.X86AboveReference`).
- On the clean vertical edge 10, 10, 200 the directional blur labels the two
  edge columns HORIZONTAL, so the majority vote blurs across the edge: the
  middle column becomes 57, exactly what the isotropic kernel gives
  (`Directional.VerticalEdgeIsBlurredAcross`).

## Model

| member | source | states |
|---|---|---|
| Pixel.Wrap | gaussian_filter.SIMD.hpp:71-74 | a lane addition's result is a value of the lane type, and an exact sum already in range is kept unchanged |
| Pixel.WrapIsModular | gaussian_filter.SIMD.hpp:107-117 | the wrapped value is the exact sum reduced modulo 2^bits into the type's range |
| Pixel.Shr | gaussian_filter.hpp:98 | `v >> k` is floor division by 2^k: `2^k * r <= v < 2^k * (r + 1)`, also for negative v |
| Pixel.TruncDiv16 | gaussian_filter.hpp:51-54 | `static_cast` of the quotient by 16 rounds toward zero: a floor bracket for non-negative sums, a ceiling bracket for negative ones |
| Pixel.Clamp | gaussian_filter.hpp:51-54 | an out-of-range row or column index is replaced by the nearest edge index; in-range indices are unchanged |
| Frame.HoodOfWithin | gaussian_filter.hpp:51-54 | edge replication only reads raster samples, so bounds on the raster bound every 3x3 neighbourhood |
| Frame.PaddedRowReplicates | gaussian_filter.hpp:44-45 | a row copy holds the row's columns in order between two padding entries that repeat the first and last column, and rows above the top or below the bottom copy the first or last row |
| Frame.Window.constructor | gaussian_filter.hpp:44 | a new frame is sized for the source raster, with three rows of width + 2 entries |
| Frame.Window.Draft | gaussian_filter.hpp:45 | after drafting, the frame is at row 0 of band z, and its rows above and below are the clamped rows -1 and 1 |
| Frame.Window.Shift | gaussian_filter.hpp:62 | shifting moves the frame down one row and rotates the rows (previous := current, current := next), so the frame invariant is kept |
| Frame.Window.LinesHoodIsAccessor | gaussian_filter.hpp:51-54 | the nine entries the model reads from the row buffers at column x are the accessor reads at rows y-1 .. y+1 and columns x-1 .. x+1 |
| Frame.Window.AtIsClamped | gaussian_filter.hpp:51-54 | the accessor at (r, c) returns the source sample at the clamped row and column |
| Frame.Window.LinesAreClamped | gaussian_filter.SIMD.hpp:50-52 | the three raw row buffers, read at columns -1 .. width, are the clamped rows y-1, y and y+1 |
| Frame.Window.LinesAreHoods | gaussian_filter.SIMD.hpp:50-52 | the neighbourhood the row buffers give at every column is the edge-replicated neighbourhood of the raster |
| Frame.Window.LinesWithin | gaussian_filter.hpp:140-145 | bounds on the raster bound every neighbourhood read through the window |
| Gaussian.FlatIsFixed | gaussian_filter.hpp:51-54 | a band of constant value v blurs to v, because the weights add up to 16 |
| Gaussian.GaussianWithin | gaussian_filter.hpp:51-54 | every output lies between the smallest and the largest of its nine samples |
| Gaussian.GaussianFits | gaussian_filter.hpp:34-36 | for an accepted sample type, narrowing the result back to `T` never overflows |
| Gaussian.GaussianMirror | gaussian_filter.hpp:51-54 | the kernel gives the same value for a neighbourhood and its left-right mirror |
| Gaussian.BlurGaussian3x3Kernel | gaussian_filter.hpp:31-65 | every pixel of every source band gets the truncated weighted mean of its edge-replicated neighbourhood, in range of `T`; dst bands beyond the source's are unchanged |
| Gaussian.BlurBand | gaussian_filter.hpp:44-63 | one band, through a window drafted at row 0 and shifted after each row: every pixel of band z is blurred, and no other band changes |
| Gaussian.BlurRow | gaussian_filter.hpp:48-61 | every column of the window's current row is blurred, and no other row changes |
| GaussianSimd.LaneWidth | gaussian_filter.SIMD.hpp:62-93 | every overload strides the columns by a positive number of lanes |
| GaussianSimd.Accumulate | gaussian_filter.SIMD.hpp:107-117 | a register cleared to zero and then added each term in turn holds a value of the lane type |
| GaussianSimd.AccumulateExact | gaussian_filter.SIMD.hpp:107-117 | if no running total leaves the lane type, the register ends with the exact total |
| GaussianSimd.ShiftSum | gaussian_filter.SIMD.hpp:71-74 | the nine shift-and-add steps give a value of the lane type |
| GaussianSimd.ShiftSumNoWrap | gaussian_filter.SIMD.hpp:107-117 | on samples of the lane type no lane addition wraps: the lane holds the exact sum of the nine shifted taps |
| GaussianSimd.ExactShiftSumWithin | gaussian_filter.SIMD.hpp:71-74 | the shift sum never exceeds the largest sample and is at most 8 below the smallest |
| GaussianSimd.ExactShiftSumBelowWeighted | gaussian_filter.SIMD.hpp:71-74 | 16 times the shift sum is at most the weighted sum and falls short of it by at most 128, the sum of the nine largest shift losses |
| GaussianSimd.NeonBelowReference | gaussian_filter.SIMD.hpp:107-117 | on samples of any of the six types the NEON lane is never above the scalar reference and at most 8 below it |
| GaussianSimd.LaneWithin | gaussian_filter.SIMD.hpp:71-74 | on either instruction set a lane stays between the smallest sample minus 8 and the largest sample |
| GaussianSimd.ShiftSumNotFlat | gaussian_filter.SIMD.hpp:107-117 | flat u8 bands of 10 and 15 become 6 and 7, where the scalar reference keeps 10 and 15 |
| GaussianSimd.NeonMirror | gaussian_filter.SIMD.hpp:93-118 | the NEON lane gives the same value for a neighbourhood and its left-right mirror |
| GaussianSimd.OneTapLanes | gaussian_filter.SIMD.hpp:71-74 | a lone 8 at a tap weighted 1/8 contributes exactly 1 to the lane |
| GaussianSimd.X86EastLost | gaussian_filter.SIMD.hpp:82 | the x86 lane ignores the east neighbour: a lone 8 to the east gives 0 |
| GaussianSimd.X86WestKept | gaussian_filter.SIMD.hpp:82 | the x86 lane counts a lone 8 to the west as 1 |
| GaussianSimd.NeonEastKept | gaussian_filter.SIMD.hpp:101 | the NEON lane counts a lone 8 to the east as 1 |
| GaussianSimd.X86AboveReference | gaussian_filter.SIMD.hpp:82 | the x86 lane can exceed the scalar reference: a lone centre of 255 gives 94 against 63 |
| GaussianSimd.X86NotMirror | gaussian_filter.SIMD.hpp:68 | the x86 lane is not mirror-symmetric: 0 for the east-8 neighbourhood and 1 for its mirror, where NEON gives 1 |
| GaussianSimd.BlurGaussian3x3Kernel | gaussian_filter.SIMD.hpp:38-124 | every pixel of every source band gets the lane value of its edge-replicated neighbourhood for the instruction set, in range of the type; dst bands beyond the source's are unchanged |
| GaussianSimd.BlurBand | gaussian_filter.SIMD.hpp:44-123 | one band, window drafted at row 0 and shifted after each row: every pixel of band z gets its lane value, and no other band changes |
| GaussianSimd.BlurRow | gaussian_filter.SIMD.hpp:78-90 | the column loop, stepping by the lane width from 0: every column of the current row gets its lane value, and no other row changes |
| GaussianSimd.BlurVector | gaussian_filter.SIMD.hpp:79-89 | one vector store writes exactly lanes x .. x+L-1, each with the lane value of its neighbourhood |
| GaussianSimd.LaneLoadsHood | gaussian_filter.SIMD.hpp:80-84 | the nine loads of a lane are its neighbourhood; on x86 the east load is the centre column |
| Directional.Abs | gaussian_filter.hpp:97 | `std::abs` gives v or -v and is never negative |
| Directional.AxisScoreBounds | gaussian_filter.hpp:98-101 | the axial score `d + (d>>2) + (d>>3) + (d>>5)` lies between d and 45/32 of d |
| Directional.Cascade | gaussian_filter.hpp:108-124 | the cascade never answers UNDIRECTIONAL; it picks a largest of the four scores, and every direction with a higher code scores strictly less |
| Directional.CascadeIsTheTopChoice | gaussian_filter.hpp:108-124 | a direction is a largest score with only lower-scoring higher codes if and only if the cascade returns it |
| Directional.Classify | gaussian_filter.hpp:97-124 | every pixel gets one of the four axis labels, never UNDIRECTIONAL |
| Directional.ClassifyIsTopChoice | gaussian_filter.hpp:97-124 | the label is an axis of largest score, with ties going to the higher code |
| Directional.FlatIsSecondDiagonal | gaussian_filter.hpp:108-124 | a flat neighbourhood, with all four scores 0, is labelled DIAGONAL2 |
| Directional.EdgeScores | gaussian_filter.hpp:98-101 | the axial score of 0 is 0 and of 190 is 265 |
| Directional.Taps | gaussian_filter.hpp:143-145 | the nine labels around a pixel are counted one each |
| Directional.Tally | gaussian_filter.hpp:141-145 | the count array has NR_DIRECTION entries |
| Directional.TallyCounts | gaussian_filter.hpp:141-145 | each count is the number of times its code occurs among the labels |
| Directional.TallySum | gaussian_filter.hpp:141-145 | the counts add up to the number of labels |
| Directional.TallyStep | gaussian_filter.hpp:143 | one more label increments its own count and no other |
| Directional.TallyColumn | gaussian_filter.hpp:143-145 | labels a, b, b add one vote to a and two to b |
| Directional.Majority | gaussian_filter.hpp:153-181 | the vote cascade assigns one of the four axes whatever the counts, never UNDIRECTIONAL, so the `abort()` default of the blur switch is unreachable |
| Directional.MajorityIsLargest | gaussian_filter.hpp:153-170 | the vote picks an axis with a largest count, and ties go to the higher code |
| Directional.MajorityAtLeastThree | gaussian_filter.hpp:141-170 | with nine axis labels the winner has at least three votes and is one of the labels |
| Directional.SixThreeVote | gaussian_filter.hpp:153-170 | six votes for one axis beat three for another, whichever codes they have |
| Directional.VerticalEdgeVote | gaussian_filter.hpp:153-170 | six HORIZONTAL labels and three DIAGONAL2 labels vote HORIZONTAL |
| Directional.AxisBlurNearMean | gaussian_filter.hpp:172-180 | the 3x1 shift blur is at most the exact mean (a + 2c + b)/4 and at most 2 below it |
| Directional.AxisBlurWithin | gaussian_filter.hpp:172-180 | the blur lies between the smallest and largest of its three taps when the lower bound is a multiple of 4 |
| Directional.AxisBlurFits | gaussian_filter.hpp:172-180 | a blurred sample of type `T` is a value of `T`, so the store never narrows |
| Directional.SmoothPixelFits | gaussian_filter.hpp:140-182 | the pass-2 output of a pixel of type `T` is a value of `T` |
| Directional.VerticalEdgeLabels | gaussian_filter.hpp:97-124 | on the edge 10, 10, 200 the three columns are labelled DIAGONAL2, HORIZONTAL and HORIZONTAL |
| Directional.VerticalEdgeIsBlurredAcross | gaussian_filter.hpp:130-188 | on that edge the middle column is blurred horizontally to 57, the isotropic kernel's value |
| Directional.BlurDirectionalGaussian3x1Kernel | gaussian_filter.hpp:80-189 | dirmap ends holding every pixel's label, all axes; each dst pixel is the majority-axis blur of its neighbourhood, in range of `T` |
| Directional.ClassifyPass | gaussian_filter.hpp:89-128 | pass 1 labels every pixel of every band, and every label is an axis |
| Directional.ClassifyBand | gaussian_filter.hpp:90-127 | one band is labelled through a window drafted at row 0 and shifted after each row; no other band changes |
| Directional.ClassifyRow | gaussian_filter.hpp:94-125 | every column of the window's row is labelled, and no other row changes |
| Directional.SmoothPass | gaussian_filter.hpp:130-188 | pass 2 gives every pixel of every band its majority-axis blur, in range of `T` |
| Directional.SmoothBand | gaussian_filter.hpp:131-187 | one band, with a label window and a sample window drafted together and shifted together; no other band changes |
| Directional.SmoothStep | gaussian_filter.hpp:137-186 | one row iteration smooths the windows' row, changes no other row of dst, and moves both windows down one row, keeping their invariants |
| Directional.SmoothRow | gaussian_filter.hpp:138-183 | every pixel of the current row is smoothed, the rows already done stay smoothed, and no other row of dst changes |
| Directional.SmoothLine | gaussian_filter.hpp:140-183 | the column loop writes count, vote and blur from the six row buffers at every column, and no other row changes |

## Left out

- `#pragma omp parallel for`: every column loop is sequential. Each column writes only its own pixel, so the order does not matter.
- Vector types, NEON intrinsics and the `INSTRSET` dispatch are not modelled as such. An instruction set is the parameter `GaussianSimd.Isa`, which fixes the lane count and the east-tap column. One vector is L consecutive lanes, and each lane has the scalar semantics of its intrinsics: wrapping add, shift, and shift-right-accumulate.
- GaussianSimd.NeonLane: the NEON branch as written calls the 64-bit `vsra_n_*` intrinsics on 128-bit `uint8x16_t`, `int16x8_t` and similar registers (gaussian_filter.SIMD.hpp:109-117, and likewise in the other five overloads), which does not type-check. The model takes the 128-bit `vsraq_n_*` reading, with 16, 8 or 4 lanes, and the NEON lane in the finding below is that reading.
- IEEE `float` in the scalar Gaussian is not modelled. For the accepted sample types the float arithmetic is exact, and the model uses the exact rational value, truncated.
- cpixmap.hpp and cchunk.hpp are not part of this model. Their allocation, `getLine` and band layout are omitted. The window keeps value copies of padded rows rather than pointers into a padded buffer, so the memory-level loads at `x-1`, and beyond the row end on the last vector, are not modelled.
- `isMatched` is taken to mean equal width, height and band count.
- Gaussian.BlurGaussian3x3Kernel: requires `dst != src`. The source does not forbid in-place filtering, but the contract states outputs in terms of an unchanged source.
- GaussianSimd.BlurGaussian3x3Kernel: requires `dst != src`, for the same reason.
- Directional.BlurDirectionalGaussian3x1Kernel: requires dst, dirmap and src to be three distinct rasters. Aliasing between them is not modelled.
- GaussianSimd.BlurGaussian3x3Kernel: requires the width to be a multiple of the lane width. The source has no remainder loop, so on other widths it loads and stores past the end of the row.
- Gaussian.BlurGaussian3x3Kernel: the sample-type check (`is_integer` and fewer digits than `int`) is a precondition on `t`. The `assert` calls and their failure behaviour are not modelled.
- Directional.BlurDirectionalGaussian3x1Kernel: the `abort()` default of the blur switch is not modelled. It is unreachable because the vote cascade only ever assigns one of the four axes, whatever the counts (`Directional.Majority` ensures its result is not UNDIRECTIONAL).
- `Directional.Tally` models the `dirCount[]` increments as a function over the nine labels in source order, not as a local array updated in place.
- `iostream` is unused by the modelled code.

## Findings

| source | as written | input that shows it | evidently intended | confidence | as-written member | corrected member |
|---|---|---|---|---|---|---|
| gaussian_filter.SIMD.hpp:68 | every x86 branch loads the east tap `eeVec` from `currLine[x+0]`, the centre column (also lines 82, 156, 170, 244, 258, 332, 346, 420, 434, 448, 522, 536, 550) | a u8 pixel whose neighbourhood is zero except its east neighbour, 8: the x86 lane gives 0, and the mirrored neighbourhood gives 1 | `currLine[x+1]`, as the NEON branch loads at line 101, so that the kernel weighs left and right alike | high; not executed | GaussianSimd.X86NotMirror | GaussianSimd.NeonMirror |
