/**
 * The edge-adaptive directional blur (`blurDirectionalGaussian3x1Kernel<T>`).
 *
 * Pass 1 labels every pixel with the axis of its strongest gradient; pass 2
 * counts the nine labels around every pixel, takes the majority label and
 * blurs with a 1/4, 1/2, 1/4 three-tap kernel along that axis. Both choices
 * go through the same strict if-cascade, which picks a largest score and
 * breaks ties toward the higher direction code.
 */
module Directional {
  import opened Pixel
  import opened Frame
  import opened Gaussian

  /** `direction_t`. Only the four axes are ever chosen; `Undirectional` is code 0. */
  datatype Direction = Undirectional | Horizontal | Vertical | Diagonal1 | Diagonal2 {
    function Code(): nat {
      match this
      case Undirectional => 0
      case Horizontal => 1
      case Vertical => 2
      case Diagonal1 => 3
      case Diagonal2 => 4
    }
  }

  /** `NR_DIRECTION`: the number of direction codes, and the size of the count array. */
  const NrDirection: nat := 5

  /** `std::abs` on `int`. */
  function Abs(v: int): (r: nat)
    ensures r == v || r == -v
  {
    if v < 0 then -v else v
  }

  /** The score of a horizontal or vertical difference: about 1.41 times the difference. */
  function AxisScore(diff: nat): int {
    diff + Shr(diff, 2) + Shr(diff, 3) + Shr(diff, 5)
  }

  /**
   * The score is never below the difference and never above 45/32 of it, so
   * the axial differences are weighed by roughly the square root of two
   * against the diagonal ones.
   */
  lemma AxisScoreBounds(diff: nat)
    ensures diff <= AxisScore(diff)
    ensures 32 * AxisScore(diff) <= 45 * diff
  {
    SmallPowers();
    var q2, q3, q5 := Shr(diff, 2), Shr(diff, 3), Shr(diff, 5);
    assert 4 * q2 <= diff < 4 * (q2 + 1);
    assert 8 * q3 <= diff < 8 * (q3 + 1);
    assert 32 * q5 <= diff < 32 * (q5 + 1);
  }

  /** The score the cascade weighs for direction d. */
  function Pick(h: int, v: int, d1: int, d2: int, d: Direction): int
    requires d != Undirectional
  {
    match d
    case Horizontal => h
    case Vertical => v
    case Diagonal1 => d1
    case Diagonal2 => d2
  }

  /**
   * The decision cascade shared by both passes: among the horizontal,
   * vertical, first and second diagonal scores it returns one that is largest,
   * and of several largest ones the one with the highest code.
   */
  function Cascade(h: int, v: int, d1: int, d2: int): (r: Direction)
    ensures r != Undirectional
    ensures forall d :: d != Undirectional ==> Pick(h, v, d1, d2, d) <= Pick(h, v, d1, d2, r)
    ensures forall d :: d != Undirectional && d.Code() > r.Code() ==> Pick(h, v, d1, d2, d) < Pick(h, v, d1, d2, r)
  {
    if h > v then
      if h > d1 then
        if h > d2 then Horizontal else Diagonal2
      else
        if d1 > d2 then Diagonal1 else Diagonal2
    else
      if v > d1 then
        if v > d2 then Vertical else Diagonal2
      else
        if d1 > d2 then Diagonal1 else Diagonal2
  }

  /** d is a largest score, and every direction with a higher code scores strictly less. */
  ghost predicate IsTopChoice(h: int, v: int, d1: int, d2: int, d: Direction) {
    && d != Undirectional
    && (forall e :: e != Undirectional ==> Pick(h, v, d1, d2, e) <= Pick(h, v, d1, d2, d))
    && (forall e :: e != Undirectional && e.Code() > d.Code() ==> Pick(h, v, d1, d2, e) < Pick(h, v, d1, d2, d))
  }

  /** The cascade's choice is the only top choice: the tie order determines it. */
  lemma CascadeIsTheTopChoice(h: int, v: int, d1: int, d2: int, d: Direction)
    ensures IsTopChoice(h, v, d1, d2, d) <==> d == Cascade(h, v, d1, d2)
  {
    var r := Cascade(h, v, d1, d2);
  }

  /**
   * Pass 1 on one neighbourhood: the horizontal and vertical differences are
   * scored, the two diagonal ones are taken as they are, and the cascade picks.
   */
  function Classify(g: Hood): (r: Direction)
    ensures r != Undirectional
  {
    Cascade(AxisScore(Abs(g.w - g.e)), AxisScore(Abs(g.n - g.s)), Abs(g.ne - g.sw), Abs(g.nw - g.se))
  }

  /** The label is an axis of largest score, ties going to the higher code. */
  lemma ClassifyIsTopChoice(g: Hood)
    ensures IsTopChoice(AxisScore(Abs(g.w - g.e)), AxisScore(Abs(g.n - g.s)), Abs(g.ne - g.sw), Abs(g.nw - g.se), Classify(g))
  {
    var h, v, d1, d2 := AxisScore(Abs(g.w - g.e)), AxisScore(Abs(g.n - g.s)), Abs(g.ne - g.sw), Abs(g.nw - g.se);
    CascadeIsTheTopChoice(h, v, d1, d2, Classify(g));
  }

  /**
   * A flat neighbourhood, where all four scores are zero, is labelled with the
   * second diagonal, the last axis the cascade considers.
   */
  lemma FlatIsSecondDiagonal(v: int)
    ensures Classify(Flat(v)) == Diagonal2
  {
    assert Classify(Flat(v)) == Cascade(AxisScore(0), AxisScore(0), 0, 0);
    assert AxisScore(0) == 0 by {
      EdgeScores();
    }
    assert Cascade(0, 0, 0, 0) == Diagonal2;
  }

  /** The scores of a zero difference and of the difference 190 of the edge example. */
  lemma EdgeScores()
    ensures AxisScore(0) == 0 && AxisScore(190) == 265
  {
    SmallPowers();
  }

  /** The nine labels of a neighbourhood, row by row. */
  function Taps(g: Hood): (s: seq<int>)
    ensures |s| == 9
  {
    [g.nw, g.n, g.ne, g.w, g.c, g.e, g.sw, g.s, g.se]
  }

  /**
   * `dirCount[label]++` for each label in turn, from five zero counts.
   */
  function Tally(labels: seq<int>): (cnt: seq<int>)
    requires forall i :: 0 <= i < |labels| ==> 0 <= labels[i] < NrDirection
    ensures |cnt| == NrDirection
  {
    if |labels| == 0 then [0, 0, 0, 0, 0]
    else
      var init, last := labels[..|labels| - 1], labels[|labels| - 1];
      var prior := Tally(init);
      prior[last := prior[last] + 1]
  }

  /** Every count is the number of occurrences of its code among the labels. */
  lemma {:induction false} TallyCounts(labels: seq<int>)
    requires forall i :: 0 <= i < |labels| ==> 0 <= labels[i] < NrDirection
    ensures forall d :: 0 <= d < NrDirection ==> Tally(labels)[d] == multiset(labels)[d]
  {
    if |labels| > 0 {
      var init, last := labels[..|labels| - 1], labels[|labels| - 1];
      assert labels == init + [last];
      TallyCounts(init);
    }
  }

  /** Sum of the five counts. */
  function CountSum(cnt: seq<int>): int
    requires |cnt| == NrDirection
  {
    cnt[0] + cnt[1] + cnt[2] + cnt[3] + cnt[4]
  }

  /** Every label is counted exactly once: the counts add up to the number of labels. */
  lemma {:induction false} TallySum(labels: seq<int>)
    requires forall i :: 0 <= i < |labels| ==> 0 <= labels[i] < NrDirection
    ensures CountSum(Tally(labels)) == |labels|
  {
    if |labels| > 0 {
      TallySum(labels[..|labels| - 1]);
    }
  }

  /** The majority vote of pass 2: the cascade over the four axis counts. */
  function Majority(cnt: seq<int>): (r: Direction)
    requires |cnt| == NrDirection
    ensures r != Undirectional
  {
    Cascade(cnt[1], cnt[2], cnt[3], cnt[4])
  }

  /**
   * The vote goes to an axis with a largest count, and of several largest
   * counts to the one with the highest code.
   */
  lemma MajorityIsLargest(cnt: seq<int>)
    requires |cnt| == NrDirection
    ensures forall d :: d != Undirectional ==> cnt[d.Code()] <= cnt[Majority(cnt).Code()]
    ensures forall d :: d != Undirectional && d.Code() > Majority(cnt).Code() ==> cnt[d.Code()] < cnt[Majority(cnt).Code()]
  {
    assert forall d :: d != Undirectional ==> Pick(cnt[1], cnt[2], cnt[3], cnt[4], d) == cnt[d.Code()];
  }

  /**
   * With nine labels, all of them axes, the winning axis has at least three
   * votes, so it is a real label of the neighbourhood. (The `abort()` branch
   * is unreachable for a simpler reason: `Majority` never answers
   * `Undirectional`, whatever the counts.)
   */
  lemma MajorityAtLeastThree(labels: seq<int>)
    requires |labels| == 9
    requires forall i :: 0 <= i < |labels| ==> 1 <= labels[i] < NrDirection
    ensures Tally(labels)[Majority(Tally(labels)).Code()] >= 3
    ensures Majority(Tally(labels)).Code() in labels
  {
    var cnt := Tally(labels);
    TallySum(labels);
    TallyCounts(labels);
    assert 0 !in labels;
    assert cnt[0] == 0;
    var r := Majority(cnt);
    MajorityIsLargest(cnt);
    assert cnt[1] <= cnt[r.Code()] && cnt[2] <= cnt[r.Code()];
    assert cnt[3] <= cnt[r.Code()] && cnt[4] <= cnt[r.Code()];
  }

  /** The two taps of the 3x1 kernel beside the centre, along axis d. */
  function Ends(d: Direction, img: Hood): (int, int)
    requires d != Undirectional
  {
    match d
    case Horizontal => (img.w, img.e)
    case Vertical => (img.n, img.s)
    case Diagonal1 => (img.ne, img.sw)
    case Diagonal2 => (img.nw, img.se)
  }

  /** The 1/4, 1/2, 1/4 shift blur along axis d. */
  function AxisBlur(d: Direction, img: Hood): int
    requires d != Undirectional
  {
    var (a, b) := Ends(d, img);
    Shr(a, 2) + Shr(img.c, 1) + Shr(b, 2)
  }

  /**
   * The shift blur is at most the exact mean (a + 2c + b) / 4 and falls short
   * of it by at most two.
   */
  lemma AxisBlurNearMean(d: Direction, img: Hood)
    requires d != Undirectional
    ensures var (a, b) := Ends(d, img);
      4 * AxisBlur(d, img) <= a + 2 * img.c + b <= 4 * AxisBlur(d, img) + 8
  {
    SmallPowers();
    var (a, b) := Ends(d, img);
    var qa, qc, qb := Shr(a, 2), Shr(img.c, 1), Shr(b, 2);
    assert 4 * qa <= a < 4 * qa + 4 && 2 * qc <= img.c < 2 * qc + 2 && 4 * qb <= b < 4 * qb + 4;
  }

  /**
   * The output lies between the smallest and the largest of the three taps
   * when the smallest is a multiple of four, so a sample of type `t` blurs to
   * a sample of type `t` and the store never narrows.
   */
  lemma AxisBlurWithin(d: Direction, img: Hood, lo: int, hi: int)
    requires d != Undirectional && Within(img, lo, hi) && lo % 4 == 0
    ensures lo <= AxisBlur(d, img) <= hi
  {
    SmallPowers();
    var (a, b) := Ends(d, img);
    var qa, qc, qb := Shr(a, 2), Shr(img.c, 1), Shr(b, 2);
    assert 4 * qa <= a < 4 * qa + 4 && 2 * qc <= img.c < 2 * qc + 2 && 4 * qb <= b < 4 * qb + 4;
    var j := lo / 4;
    assert lo == 4 * j;
    assert j <= qa && 2 * j <= qc && j <= qb;
  }

  /** A blurred sample of type `t` is a value of type `t`: the store never narrows. */
  lemma AxisBlurFits(t: PixelType, d: Direction, img: Hood)
    requires d != Undirectional && Within(img, t.Min(), t.Max())
    ensures InRange(t, AxisBlur(d, img))
  {
    assert t.Min() % 4 == 0;
    AxisBlurWithin(d, img, t.Min(), t.Max());
  }

  /** Pass 2 on one pixel: the majority of the nine labels chooses the axis of the blur. */
  function SmoothPixel(labels: Hood, img: Hood): int
    requires Within(labels, 0, NrDirection - 1)
  {
    AxisBlur(Majority(Tally(Taps(labels))), img)
  }

  /** The three columns of a vertical edge 10, 10, 200 are labelled D2, H, H. */
  lemma VerticalEdgeLabels()
    ensures Classify(Flat(10)) == Diagonal2
    ensures Classify(Hood(10, 10, 200, 10, 10, 200, 10, 10, 200)) == Horizontal
    ensures Classify(Hood(10, 200, 200, 10, 200, 200, 10, 200, 200)) == Horizontal
  {
    FlatIsSecondDiagonal(10);
    assert Classify(Hood(10, 10, 200, 10, 10, 200, 10, 10, 200)) == Cascade(AxisScore(190), AxisScore(0), 190, 190);
    assert Classify(Hood(10, 200, 200, 10, 200, 200, 10, 200, 200)) == Cascade(AxisScore(190), AxisScore(0), 190, 190);
    EdgeScores();
    assert Cascade(265, 0, 190, 190) == Horizontal;
  }

  /** One more label increments its own count and no other. */
  lemma {:induction false} TallyStep(labels: seq<int>, code: int)
    requires forall i :: 0 <= i < |labels| ==> 0 <= labels[i] < NrDirection
    requires 0 <= code < NrDirection
    ensures Tally(labels + [code]) == Tally(labels)[code := Tally(labels)[code] + 1]
  {
    assert (labels + [code])[..|labels|] == labels;
  }

  /** One column labelled a, b, b: one more vote for a and two more for b. */
  lemma {:induction false} TallyColumn(labels: seq<int>, a: int, b: int)
    requires forall i :: 0 <= i < |labels| ==> 0 <= labels[i] < NrDirection
    requires 0 <= a < NrDirection && 0 <= b < NrDirection && a != b
    ensures forall d :: 0 <= d < NrDirection ==>
      Tally(labels + [a, b, b])[d] == Tally(labels)[d] + (if d == a then 1 else if d == b then 2 else 0)
  {
    TallyStep(labels, a);
    TallyStep(labels + [a], b);
    TallyStep(labels + [a] + [b], b);
    assert labels + [a] + [b] + [b] == labels + [a, b, b];
  }

  /** Columns labelled a, b, b: the six votes for b outweigh the three for a. */
  lemma SixThreeVote(a: int, b: int)
    requires 1 <= a < NrDirection && 1 <= b < NrDirection && a != b
    ensures Majority(Tally([a, b, b, a, b, b, a, b, b])).Code() == b
  {
    TallyColumn([], a, b);
    TallyColumn([a, b, b], a, b);
    TallyColumn([a, b, b, a, b, b], a, b);
    assert [] + [a, b, b] == [a, b, b];
    assert [a, b, b] + [a, b, b] == [a, b, b, a, b, b];
    assert [a, b, b, a, b, b] + [a, b, b] == [a, b, b, a, b, b, a, b, b];
    var cnt := Tally([a, b, b, a, b, b, a, b, b]);
    assert cnt[b] == 6 && cnt[a] == 3;
    MajorityIsLargest(cnt);
  }

  /** Six horizontal labels and three second-diagonal ones vote horizontal. */
  lemma VerticalEdgeVote()
    ensures Majority(Tally(Taps(Hood(4, 1, 1, 4, 1, 1, 4, 1, 1)))) == Horizontal
  {
    assert Taps(Hood(4, 1, 1, 4, 1, 1, 4, 1, 1)) == [4, 1, 1, 4, 1, 1, 4, 1, 1];
    SixThreeVote(4, 1);
  }

  /** A pixel of type `t` smooths to a value of type `t`. */
  lemma SmoothPixelFits(t: PixelType, labels: Hood, img: Hood)
    requires Within(labels, 0, NrDirection - 1) && Within(img, t.Min(), t.Max())
    ensures InRange(t, SmoothPixel(labels, img))
  {
    AxisBlurFits(t, Majority(Tally(Taps(labels))), img);
  }

  /**
   * A vertical edge, columns of 10, 10 and 200: the left column is flat and
   * labelled second diagonal, the other two are labelled horizontal, so the
   * middle column is blurred across the edge, to 57, the same value the
   * isotropic kernel gives.
   */
  lemma VerticalEdgeIsBlurredAcross()
    ensures SmoothPixel(Hood(4, 1, 1, 4, 1, 1, 4, 1, 1), Hood(10, 10, 200, 10, 10, 200, 10, 10, 200)) == 57
    ensures Gaussian3x3(Hood(10, 10, 200, 10, 10, 200, 10, 10, 200)) == 57
  {
    VerticalEdgeVote();
    SmallPowers();
    assert AxisBlur(Horizontal, Hood(10, 10, 200, 10, 10, 200, 10, 10, 200)) == 2 + 5 + 50;
  }

  /**
   * `blurDirectionalGaussian3x1Kernel<T>`: dirmap ends up holding the label
   * of every pixel, and dst the majority-axis blur of every pixel.
   */
  method BlurDirectionalGaussian3x1Kernel(t: PixelType, dst: array3<int>, dirmap: array3<int>, src: array3<int>)
    requires t.Digits() < IntDigits
    requires dst.Length0 == src.Length0 && dst.Length1 == src.Length1 && dst.Length2 == src.Length2
    requires dirmap.Length0 == dst.Length0 && dirmap.Length1 == dst.Length1 && dirmap.Length2 == dst.Length2
    requires dst != src && dst != dirmap && dirmap != src
    requires AllInRange(t, src)
    modifies dst, dirmap
    ensures forall z, y, x :: 0 <= z < src.Length0 && 0 <= y < src.Length1 && 0 <= x < src.Length2 ==>
      dirmap[z, y, x] == Classify(HoodOf(src, z, y, x)).Code()
    ensures AllWithin(dirmap, 1, NrDirection - 1)
    ensures forall z, y, x :: 0 <= z < src.Length0 && 0 <= y < src.Length1 && 0 <= x < src.Length2 ==>
      Within(HoodOf(dirmap, z, y, x), 1, NrDirection - 1) &&
      dst[z, y, x] == SmoothPixel(HoodOf(dirmap, z, y, x), HoodOf(src, z, y, x)) &&
      InRange(t, dst[z, y, x])
  {
    ClassifyPass(dirmap, src);
    SmoothPass(t, dst, dirmap, src);
    forall z, y, x | 0 <= z < src.Length0 && 0 <= y < src.Length1 && 0 <= x < src.Length2
      ensures Within(HoodOf(dirmap, z, y, x), 1, NrDirection - 1)
      ensures dst[z, y, x] == SmoothPixel(HoodOf(dirmap, z, y, x), HoodOf(src, z, y, x))
      ensures InRange(t, dst[z, y, x])
    {
      assert Smoothed(t, dst[z, y, x], dirmap, src, z, y, x);
    }
  }

  /** Pass 1: every band of src labelled into dirmap. */
  method ClassifyPass(dirmap: array3<int>, src: array3<int>)
    requires dirmap.Length0 == src.Length0 && dirmap.Length1 == src.Length1 && dirmap.Length2 == src.Length2
    requires dirmap != src
    modifies dirmap
    ensures forall z, y, x :: 0 <= z < src.Length0 && 0 <= y < src.Length1 && 0 <= x < src.Length2 ==>
      dirmap[z, y, x] == Classify(HoodOf(src, z, y, x)).Code()
    ensures AllWithin(dirmap, 1, NrDirection - 1)
  {
    var z := 0;
    while z < src.Length0
      invariant 0 <= z <= src.Length0
      invariant forall z', y, x :: 0 <= z' < z && 0 <= y < src.Length1 && 0 <= x < src.Length2 ==>
        dirmap[z', y, x] == Classify(HoodOf(src, z', y, x)).Code()
    {
      ClassifyBand(dirmap, src, z);
      z := z + 1;
    }
  }

  /** One band of pass 1: a fresh window drafted at row 0 and shifted after every row. */
  method ClassifyBand(dirmap: array3<int>, src: array3<int>, z: int)
    requires dirmap.Length0 == src.Length0 && dirmap.Length1 == src.Length1 && dirmap.Length2 == src.Length2
    requires 0 <= z < src.Length0
    requires dirmap != src
    modifies dirmap
    ensures forall y, x :: 0 <= y < src.Length1 && 0 <= x < src.Length2 ==>
      dirmap[z, y, x] == Classify(HoodOf(src, z, y, x)).Code()
    ensures forall z', y, x :: 0 <= z' < dirmap.Length0 && z' != z && 0 <= y < dirmap.Length1 && 0 <= x < dirmap.Length2 ==>
      dirmap[z', y, x] == old(dirmap[z', y, x])
  {
    var win := new Window(src);
    win.Draft(src, z);
    var y := 0;
    while y < src.Length1
      invariant 0 <= y <= src.Length1
      invariant win.Over(src, z) && win.y == y
      invariant forall y', x :: 0 <= y' < y && 0 <= x < src.Length2 ==>
        dirmap[z, y', x] == Classify(HoodOf(src, z, y', x)).Code()
      invariant forall z', y', x :: 0 <= z' < dirmap.Length0 && z' != z && 0 <= y' < dirmap.Length1 && 0 <= x < dirmap.Length2 ==>
        dirmap[z', y', x] == old(dirmap[z', y', x])
    {
      ClassifyRow(dirmap, src, win, z);
      win.Shift(src, z);
      y := y + 1;
    }
  }

  /** One row of pass 1: every column of row win.y gets its label. */
  method ClassifyRow(dirmap: array3<int>, src: array3<int>, win: Window, z: int)
    requires dirmap.Length0 == src.Length0 && dirmap.Length1 == src.Length1 && dirmap.Length2 == src.Length2
    requires win.Over(src, z) && win.y < win.height
    requires dirmap != src
    modifies dirmap
    ensures forall x :: 0 <= x < src.Length2 ==> dirmap[z, win.y, x] == Classify(HoodOf(src, z, win.y, x)).Code()
    ensures forall z', y', x ::
      0 <= z' < dirmap.Length0 && 0 <= y' < dirmap.Length1 && 0 <= x < dirmap.Length2 && (z' != z || y' != win.y) ==>
      dirmap[z', y', x] == old(dirmap[z', y', x])
  {
    var y := win.y;
    var prevLine, currLine, nextLine := win.prev, win.curr, win.next;
    var x := 0;
    while x < src.Length2
      invariant 0 <= x <= src.Length2
      invariant forall x' :: 0 <= x' < x ==> dirmap[z, y, x'] == Classify(LinesHood(prevLine, currLine, nextLine, x')).Code()
      invariant forall z', y', x' ::
        0 <= z' < dirmap.Length0 && 0 <= y' < dirmap.Length1 && 0 <= x' < dirmap.Length2 && (z' != z || y' != y || x' >= x) ==>
        dirmap[z', y', x'] == old(dirmap[z', y', x'])
    {
      dirmap[z, y, x] := Classify(LinesHood(prevLine, currLine, nextLine, x)).Code();
      x := x + 1;
    }
    win.LinesAreHoods(src, z);
  }

  /**
   * v is what pass 2 stores at (y, x) of band z: the labels around the pixel
   * are axes, and v is the majority-axis blur of the samples around it.
   */
  ghost predicate Smoothed(t: PixelType, v: int, dirmap: array3<int>, src: array3<int>, z: int, y: int, x: int)
    reads dirmap, src
    requires 0 <= z < src.Length0 && 0 <= y < src.Length1 && 0 <= x < src.Length2
    requires dirmap.Length0 == src.Length0 && dirmap.Length1 == src.Length1 && dirmap.Length2 == src.Length2
  {
    && Within(HoodOf(dirmap, z, y, x), 1, NrDirection - 1)
    && v == SmoothPixel(HoodOf(dirmap, z, y, x), HoodOf(src, z, y, x))
    && InRange(t, v)
  }

  /** Pass 2: every band of src blurred into dst along its majority label. */
  method SmoothPass(t: PixelType, dst: array3<int>, dirmap: array3<int>, src: array3<int>)
    requires dst.Length0 == src.Length0 && dst.Length1 == src.Length1 && dst.Length2 == src.Length2
    requires dirmap.Length0 == dst.Length0 && dirmap.Length1 == dst.Length1 && dirmap.Length2 == dst.Length2
    requires dst != src && dst != dirmap
    requires AllInRange(t, src)
    requires AllWithin(dirmap, 1, NrDirection - 1)
    modifies dst
    ensures forall z, y, x :: 0 <= z < src.Length0 && 0 <= y < src.Length1 && 0 <= x < src.Length2 ==>
      Smoothed(t, dst[z, y, x], dirmap, src, z, y, x)
  {
    var z := 0;
    while z < src.Length0
      invariant 0 <= z <= src.Length0
      invariant forall z', y, x :: 0 <= z' < z && 0 <= y < src.Length1 && 0 <= x < src.Length2 ==>
        Smoothed(t, dst[z', y, x], dirmap, src, z', y, x)
    {
      SmoothBand(t, dst, dirmap, src, z);
      z := z + 1;
    }
  }

  /** One band of pass 2: one window over the labels and one over the samples, moved together. */
  method SmoothBand(t: PixelType, dst: array3<int>, dirmap: array3<int>, src: array3<int>, z: int)
    requires dst.Length0 == src.Length0 && dst.Length1 == src.Length1 && dst.Length2 == src.Length2
    requires dirmap.Length0 == dst.Length0 && dirmap.Length1 == dst.Length1 && dirmap.Length2 == dst.Length2
    requires dst != src && dst != dirmap
    requires AllInRange(t, src)
    requires AllWithin(dirmap, 1, NrDirection - 1)
    requires 0 <= z < src.Length0
    modifies dst
    ensures forall y, x :: 0 <= y < src.Length1 && 0 <= x < src.Length2 ==>
      Smoothed(t, dst[z, y, x], dirmap, src, z, y, x)
    ensures forall z', y, x :: 0 <= z' < dst.Length0 && z' != z && 0 <= y < dst.Length1 && 0 <= x < dst.Length2 ==>
      dst[z', y, x] == old(dst[z', y, x])
  {
    var dirWin := new Window(dirmap);
    dirWin.Draft(dirmap, z);
    var imgWin := new Window(src);
    imgWin.Draft(src, z);
    var y := 0;
    while y < src.Length1
      invariant 0 <= y <= src.Length1
      invariant dirWin.Over(dirmap, z) && dirWin.y == y
      invariant imgWin.Over(src, z) && imgWin.y == y
      invariant dirWin != imgWin
      invariant forall y', x :: 0 <= y' < y && 0 <= x < src.Length2 ==>
        Smoothed(t, dst[z, y', x], dirmap, src, z, y', x)
      invariant forall z', y', x :: 0 <= z' < dst.Length0 && z' != z && 0 <= y' < dst.Length1 && 0 <= x < dst.Length2 ==>
        dst[z', y', x] == old(dst[z', y', x])
    {
      SmoothStep(t, dst, dirmap, src, dirWin, imgWin, z);
      y := y + 1;
    }
  }

  /**
   * One iteration of the row loop of pass 2: smooth the windows' row, then
   * move both windows down one row.
   */
  method SmoothStep(t: PixelType, dst: array3<int>, dirmap: array3<int>, src: array3<int>,
                    dirWin: Window, imgWin: Window, z: int)
    requires dst.Length0 == src.Length0 && dst.Length1 == src.Length1 && dst.Length2 == src.Length2
    requires dirmap.Length0 == dst.Length0 && dirmap.Length1 == dst.Length1 && dirmap.Length2 == dst.Length2
    requires dst != src && dst != dirmap && dirWin != imgWin
    requires AllInRange(t, src)
    requires AllWithin(dirmap, 1, NrDirection - 1)
    requires dirWin.Over(dirmap, z) && imgWin.Over(src, z) && dirWin.y == imgWin.y < imgWin.height
    requires forall y', x :: 0 <= y' < imgWin.y && 0 <= x < src.Length2 ==> Smoothed(t, dst[z, y', x], dirmap, src, z, y', x)
    modifies dst, dirWin, imgWin
    ensures forall y', x :: 0 <= y' <= old(imgWin.y) && 0 <= x < src.Length2 ==> Smoothed(t, dst[z, y', x], dirmap, src, z, y', x)
    ensures forall z', y', x ::
      0 <= z' < dst.Length0 && 0 <= y' < dst.Length1 && 0 <= x < dst.Length2 && (z' != z || y' != old(imgWin.y)) ==>
      dst[z', y', x] == old(dst[z', y', x])
    ensures dirWin.Over(dirmap, z) && imgWin.Over(src, z)
    ensures dirWin.y == imgWin.y == old(imgWin.y) + 1
  {
    SmoothRow(t, dst, dirmap, src, dirWin, imgWin, z);
    dirWin.Shift(dirmap, z);
    imgWin.Shift(src, z);
  }

  /** One row of pass 2: count, vote and blur at every column of the windows' row; the rows above stay as they were. */
  method SmoothRow(t: PixelType, dst: array3<int>, dirmap: array3<int>, src: array3<int>,
                   dirWin: Window, imgWin: Window, z: int)
    requires dst.Length0 == src.Length0 && dst.Length1 == src.Length1 && dst.Length2 == src.Length2
    requires dirmap.Length0 == dst.Length0 && dirmap.Length1 == dst.Length1 && dirmap.Length2 == dst.Length2
    requires dst != src && dst != dirmap
    requires AllInRange(t, src)
    requires AllWithin(dirmap, 1, NrDirection - 1)
    requires dirWin.Over(dirmap, z) && imgWin.Over(src, z) && dirWin.y == imgWin.y < imgWin.height
    requires forall y', x :: 0 <= y' < imgWin.y && 0 <= x < src.Length2 ==> Smoothed(t, dst[z, y', x], dirmap, src, z, y', x)
    modifies dst
    ensures forall y', x :: 0 <= y' <= imgWin.y && 0 <= x < src.Length2 ==> Smoothed(t, dst[z, y', x], dirmap, src, z, y', x)
    ensures forall z', y', x ::
      0 <= z' < dst.Length0 && 0 <= y' < dst.Length1 && 0 <= x < dst.Length2 && (z' != z || y' != imgWin.y) ==>
      dst[z', y', x] == old(dst[z', y', x])
  {
    var y := imgWin.y;
    var dirPrev, dirCurr, dirNext := dirWin.prev, dirWin.curr, dirWin.next;
    var imgPrev, imgCurr, imgNext := imgWin.prev, imgWin.curr, imgWin.next;
    dirWin.LinesWithin(dirmap, z, 1, NrDirection - 1);
    SmoothLine(dst, dirPrev, dirCurr, dirNext, imgPrev, imgCurr, imgNext, z, y);
    imgWin.LinesWithin(src, z, t.Min(), t.Max());
    dirWin.LinesAreHoods(dirmap, z);
    imgWin.LinesAreHoods(src, z);
    forall x | 0 <= x < src.Length2
      ensures Smoothed(t, dst[z, y, x], dirmap, src, z, y, x)
    {
      SmoothPixelFits(t, LinesHood(dirPrev, dirCurr, dirNext, x), LinesHood(imgPrev, imgCurr, imgNext, x));
    }
  }

  /** The column loop of one row of pass 2, over the six padded lines of the two windows. */
  method SmoothLine(dst: array3<int>, dirPrev: seq<int>, dirCurr: seq<int>, dirNext: seq<int>,
                    imgPrev: seq<int>, imgCurr: seq<int>, imgNext: seq<int>, z: int, y: int)
    requires 0 <= z < dst.Length0 && 0 <= y < dst.Length1
    requires |dirPrev| == |dirCurr| == |dirNext| == |imgPrev| == |imgCurr| == |imgNext| == dst.Length2 + 2
    requires forall x :: 0 <= x < dst.Length2 ==> Within(LinesHood(dirPrev, dirCurr, dirNext, x), 0, NrDirection - 1)
    modifies dst
    ensures forall x :: 0 <= x < dst.Length2 ==>
      dst[z, y, x] == SmoothPixel(LinesHood(dirPrev, dirCurr, dirNext, x), LinesHood(imgPrev, imgCurr, imgNext, x))
    ensures forall z', y', x ::
      0 <= z' < dst.Length0 && 0 <= y' < dst.Length1 && 0 <= x < dst.Length2 && (z' != z || y' != y) ==>
      dst[z', y', x] == old(dst[z', y', x])
  {
    var x := 0;
    while x < dst.Length2
      invariant 0 <= x <= dst.Length2
      invariant forall x' :: 0 <= x' < x ==>
        dst[z, y, x'] == SmoothPixel(LinesHood(dirPrev, dirCurr, dirNext, x'), LinesHood(imgPrev, imgCurr, imgNext, x'))
      invariant forall z', y', x' ::
        0 <= z' < dst.Length0 && 0 <= y' < dst.Length1 && 0 <= x' < dst.Length2 && (z' != z || y' != y || x' >= x) ==>
        dst[z', y', x'] == old(dst[z', y', x'])
    {
      dst[z, y, x] := SmoothPixel(LinesHood(dirPrev, dirCurr, dirNext, x), LinesHood(imgPrev, imgCurr, imgNext, x));
      x := x + 1;
    }
  }
}
