/** The colour chart's sampling geometry and the two local searches that
    refine each patch centre: the 3 x 3 stencil around a centre, clamped and
    unclamped pixel reads, the patch statistics, and the reference-colour and
    deviation-balancing searches as functions of the chart. */
module PatchSampling {
  import opened Wrappers
  import opened Numeric
  import opened Pixels
  import opened Geometry
  import ColorMetric

  type Metric = ColorMetric.Metric

  const RowCount: nat := 6
  const ColCount: nat := 4

  /** The 24 reference patches of the chart, in BGR, by row and column. */
  function ReferenceColor(row: nat, col: nat): Triple
    requires row < RowCount && col < ColCount
  {
    if row == 0 then
      InRow(col, Triple(171.0, 191.0, 99.0), Triple(41.0, 161.0, 229.0), Triple(166.0, 136.0, 0.0), Triple(50.0, 50.0, 50.0))
    else if row == 1 then
      InRow(col, Triple(176.0, 129.0, 130.0), Triple(62.0, 189.0, 160.0), Triple(150.0, 84.0, 188.0), Triple(85.0, 84.0, 83.0))
    else if row == 2 then
      InRow(col, Triple(65.0, 108.0, 90.0), Triple(105.0, 59.0, 91.0), Triple(22.0, 200.0, 238.0), Triple(121.0, 121.0, 120.0))
    else if row == 3 then
      InRow(col, Triple(157.0, 123.0, 93.0), Triple(98.0, 84.0, 195.0), Triple(56.0, 48.0, 176.0), Triple(161.0, 161.0, 160.0))
    else if row == 4 then
      InRow(col, Triple(129.0, 149.0, 196.0), Triple(168.0, 92.0, 72.0), Triple(72.0, 149.0, 71.0), Triple(201.0, 201.0, 200.0))
    else
      InRow(col, Triple(67.0, 81.0, 115.0), Triple(45.0, 123.0, 220.0), Triple(147.0, 62.0, 43.0), Triple(240.0, 245.0, 245.0))
  }

  /** Column col of a row of four patches. */
  function InRow(col: nat, c0: Triple, c1: Triple, c2: Triple, c3: Triple): Triple
  {
    if col == 0 then c0 else if col == 1 then c1 else if col == 2 then c2 else c3
  }

  /** Relative patch-centre positions across the width and down the height. */
  const XCenters: seq<real> := [0.143, 0.381, 0.613, 0.862]
  const YCenters: seq<real> := [0.160, 0.305, 0.440, 0.580, 0.717, 0.856]

  /** Stencil indexes of each side, in the order the sums visit them. */
  const TopIndexes: seq<nat> := [0, 1, 2]
  const BottomIndexes: seq<nat> := [6, 7, 8]
  const LeftIndexes: seq<nat> := [0, 3, 6]
  const RightIndexes: seq<nat> := [2, 5, 8]

  /** The four index lists are the rows and columns of the row-major 3 x 3 stencil. */
  lemma SideIndexes(i: nat)
    requires i < 9
    ensures i in TopIndexes <==> i / 3 == 0
    ensures i in BottomIndexes <==> i / 3 == 2
    ensures i in LeftIndexes <==> i % 3 == 0
    ensures i in RightIndexes <==> i % 3 == 2
  {
  }

  /** The chart raster and the stencil spacings derived from its size. */
  datatype Sampler = Sampler(image: Image, xScale: int, yScale: int, xPatch: int, yPatch: int)
  {
    ghost predicate Valid()
    {
      image.Valid() && image.rows > 0 && image.cols > 0 && xScale >= 0 && yScale >= 0
    }
  }

  /** The constructor's spacings: the stencil spans 4% of the width and 2% of
      the height either side of a centre, and the 3 x 3 sub-patch of the
      statistics an eighth of that. */
  function SamplerFor(image: Image): (s: Sampler)
    requires image.Valid() && image.rows > 0 && image.cols > 0
    ensures s.Valid() && s.image == image
    ensures 0 <= s.xScale && s.xScale as real <= 0.04 * image.cols as real
    ensures 0 <= s.yScale && s.yScale as real <= 0.02 * image.rows as real
    ensures s.xPatch == s.xScale / 8 && s.yPatch == s.yScale / 8
  {
    var xScale := Trunc(0.04 * image.cols as real);
    var yScale := Trunc(0.02 * image.rows as real);
    Sampler(image, xScale, yScale, xScale / 8, yScale / 8)
  }

  /** The unrefined centre of a patch. */
  function InitialCenter(s: Sampler, row: nat, col: nat): Point
    requires row < RowCount && col < ColCount
  {
    Point(XCenters[col] * s.image.cols as real, YCenters[row] * s.image.rows as real)
  }

  /** `getSurroundingPoints`: the stencil around a centre, row by row. */
  function Surrounding(s: Sampler, c: Point): (ps: seq<Point>)
    ensures |ps| == 9
  {
    var xs, ys := s.xScale as real, s.yScale as real;
    [Point(c.x - xs, c.y - ys), Point(c.x, c.y - ys), Point(c.x + xs, c.y - ys),
     Point(c.x - xs, c.y), Point(c.x, c.y), Point(c.x + xs, c.y),
     Point(c.x - xs, c.y + ys), Point(c.x, c.y + ys), Point(c.x + xs, c.y + ys)]
  }

  /** Stencil point i is offset by column i % 3 and row i / 3 of the 3 x 3 grid. */
  lemma SurroundingAt(s: Sampler, c: Point, i: nat)
    requires i < 9
    ensures Surrounding(s, c)[i] ==
      Point(c.x + (i % 3 - 1) as real * s.xScale as real, c.y + (i / 3 - 1) as real * s.yScale as real)
  {
    if i < 3 {
      assert i / 3 == 0 && i % 3 == i;
    } else if i < 6 {
      assert i / 3 == 1 && i % 3 == i - 3;
    } else {
      assert i / 3 == 2 && i % 3 == i - 6;
    }
  }

  /** Index 4 is the centre, and index 8 - i lies diametrically opposite index i. */
  lemma SurroundingSymmetry(s: Sampler, c: Point, i: nat)
    requires i < 9
    ensures Surrounding(s, c)[4] == c
    ensures var ps := Surrounding(s, c);
      ps[8 - i].x - c.x == -(ps[i].x - c.x) && ps[8 - i].y - c.y == -(ps[i].y - c.y)
  {
  }

  /** Moving the centre moves the whole stencil. */
  lemma SurroundingShift(s: Sampler, c: Point, dx: real, dy: real, i: nat)
    requires i < 9
    ensures Surrounding(s, Point(c.x + dx, c.y + dy))[i] == Translate(Surrounding(s, c)[i], dx, dy)
  {
    SurroundingAt(s, c, i);
    SurroundingAt(s, Point(c.x + dx, c.y + dy), i);
  }

  predicate XIn(s: Sampler, p: Point, dx: real)
  {
    0.0 <= p.x + dx < s.image.cols as real
  }

  predicate YIn(s: Sampler, p: Point, dy: real)
  {
    0.0 <= p.y + dy < s.image.rows as real
  }

  /** The shifted point lies in [0, cols) x [0, rows). */
  predicate InImage(s: Sampler, p: Point, dx: real, dy: real)
  {
    XIn(s, p, dx) && YIn(s, p, dy)
  }

  /** What `checkCorrectness` decides: every point, shifted, lies in the image. */
  predicate ShiftedInside(s: Sampler, ps: seq<Point>, dx: real, dy: real)
  {
    forall i :: 0 <= i < |ps| ==> InImage(s, ps[i], dx, dy)
  }

  /** The whole stencil around c lies in the image. */
  predicate AllInside(s: Sampler, c: Point)
  {
    ShiftedInside(s, Surrounding(s, c), 0.0, 0.0)
  }

  /** An unclamped read (`Mat.get`) at the truncated shifted point, which the
      source only performs on points inside the image. */
  function PixelAtPoint(s: Sampler, p: Point, dx: real, dy: real): Triple
    requires s.Valid() && InImage(s, p, dx, dy)
  {
    s.image.At(Trunc(p.y + dy), Trunc(p.x + dx))
  }

  /** `getColor`: a read clamped into the image, so it is always in bounds. */
  function GetColor(s: Sampler, x: int, y: int): Triple
    requires s.Valid()
  {
    s.image.At(Clamp(y, s.image.rows), Clamp(x, s.image.cols))
  }

  /** The nine clamped colours of the sub-patch around (x, y), visited as
      the statistics visit them: offset a of the outer loop moves x by a
      patch width, offset b of the inner loop moves y by a patch height. */
  function SubPatch(s: Sampler, x: int, y: int): (cs: seq<Triple>)
    requires s.Valid()
    ensures |cs| == 9
  {
    seq(9, k requires 0 <= k < 9 => GetColor(s, x + (k / 3 - 1) * s.xPatch, y + (k % 3 - 1) * s.yPatch))
  }

  function Channels(cs: seq<Triple>, k: nat): (v: seq<real>)
    requires k < 3
    ensures |v| == |cs|
  {
    seq(|cs|, i requires 0 <= i < |cs| => if k == 0 then cs[i].c0 else if k == 1 then cs[i].c1 else cs[i].c2)
  }

  /** `getMeanColor`: the channel-wise mean of the sub-patch. */
  function MeanColor(s: Sampler, x: int, y: int): Triple
    requires s.Valid()
  {
    var cs := SubPatch(s, x, y);
    Triple(Sum(Channels(cs, 0)) / 9.0, Sum(Channels(cs, 1)) / 9.0, Sum(Channels(cs, 2)) / 9.0)
  }

  /** HSV value of a colour: its largest channel. */
  function Value(c: Triple): real
  {
    MaxR(c.c0, MaxR(c.c1, c.c2))
  }

  function Values(cs: seq<Triple>): (v: seq<real>)
    ensures |v| == |cs|
  {
    seq(|cs|, i requires 0 <= i < |cs| => Value(cs[i]))
  }

  /** `getValueVariance`: the second moment of the sub-patch's values minus the
      squared first moment. */
  function ValueVariance(s: Sampler, x: int, y: int): real
    requires s.Valid()
  {
    var v := Values(SubPatch(s, x, y));
    SumSq(v) / 9.0 - (Sum(v) / 9.0) * (Sum(v) / 9.0)
  }

  /** In exact arithmetic the variance of the values is never negative. */
  lemma ValueVarianceNonNegative(s: Sampler, x: int, y: int)
    requires s.Valid()
    ensures ValueVariance(s, x, y) >= 0.0
  {
    var v := Values(SubPatch(s, x, y));
    VarianceNonNegative(v, 9.0);
  }

  // ----- Reference-colour search -----

  const RefIterations: nat := 3
  const VarianceThreshold: real := 100.0
  const Infinity: real := 1000000000.0

  /** The patches whose opposite sample must be twice, rather than 1.1 times,
      as far from the reference before the centre moves. */
  function OppositeThreshold(row: nat, col: nat): real
  {
    if row <= 1 && col == 3 then 2.0 else 1.1
  }

  /** The probe for stencil point p: the offset from the centre stretched by
      the distance coefficient 1.5, truncated. Its sub-patch counts only when its
      value variance is below the threshold, and is then scored by its Lab
      distance to the reference. */
  function ProbeDistance(s: Sampler, c: Point, p: Point, reference: Triple, lab: Metric): Option<real>
    requires s.Valid()
  {
    var x := Trunc(c.x + (p.x - c.x) * 1.5);
    var y := Trunc(c.y + (p.y - c.y) * 1.5);
    if ValueVariance(s, x, y) < VarianceThreshold then Some(lab(MeanColor(s, x, y), reference)) else None
  }

  function ProbeDistances(s: Sampler, c: Point, reference: Triple, lab: Metric): (ds: seq<Option<real>>)
    requires s.Valid()
    ensures |ds| == 9
    ensures forall i :: 0 <= i < 9 ==> ds[i] == ProbeDistance(s, c, Surrounding(s, c)[i], reference, lab)
  {
    var ps := Surrounding(s, c);
    seq(9, i requires 0 <= i < 9 => ProbeDistance(s, c, ps[i], reference, lab))
  }

  /** The scan for the nearest probe: starts from index -1 at distance 1e9
      and takes a probe only when it is strictly nearer. */
  function Nearest(ds: seq<Option<real>>): (r: (int, real))
    ensures -1 <= r.0 < |ds|
  {
    if |ds| == 0 then (-1, Infinity)
    else
      var prev := Nearest(ds[..|ds| - 1]);
      var last := ds[|ds| - 1];
      if last.Some? && last.value < prev.1 then (|ds| - 1, last.value) else prev
  }

  /** Nearest finds the first probe of least distance among those below 1e9,
      and reports -1 exactly when there is none. */
  lemma {:induction false} NearestIsFirstMinimum(ds: seq<Option<real>>)
    ensures var (n, d) := Nearest(ds);
      (n == -1 <==> forall j :: 0 <= j < |ds| ==> ds[j].None? || ds[j].value >= Infinity) &&
      (n == -1 ==> d == Infinity) &&
      (n != -1 ==>
        0 <= n < |ds| && ds[n] == Some(d) && d < Infinity &&
        (forall j :: 0 <= j < n ==> ds[j].None? || ds[j].value > d) &&
        (forall j :: n < j < |ds| ==> ds[j].None? || ds[j].value >= d))
  {
    if |ds| > 0 {
      var p := ds[..|ds| - 1];
      NearestIsFirstMinimum(p);
      assert forall j :: 0 <= j < |p| ==> ds[j] == p[j];
    }
  }

  /** The result of one round of a search: stop where it is, or carry on from
      a (possibly unchanged) centre with (possibly shrunk) steps. */
  datatype Round = Stop | Continue(center: Point, xStep: real, yStep: real)

  /** `dir * step` for a direction of +1, -1 or 0. */
  function Signed(dir: int, step: real): (d: real)
    requires -1 <= dir <= 1
    ensures dir == 0 ==> d == 0.0
    ensures dir > 0 ==> d == step
    ensures dir < 0 ==> d == -step
  {
    if dir > 0 then step else if dir < 0 then -step else 0.0
  }

  /** New coordinate and step on one axis after a round that chose direction
      `dir` (+1, -1 or 0) and may move only when `allowed`: the step shrinks
      whenever a direction was chosen, moved or not. */
  function StepAxis(pos: real, step: real, dir: int, allowed: bool, change: real): (r: (real, real))
    requires change > 0.0 && -1 <= dir <= 1 && step >= 0.0
    ensures r.0 == pos || (allowed && dir != 0 && r.0 == pos + Signed(dir, step) && Abs(r.0 - pos) == step)
    ensures (dir == 0 ==> r.1 == step) && (dir != 0 ==> r.1 == step / change)
  {
    if dir == 0 then (pos, step)
    else ((if allowed then pos + Signed(dir, step) else pos), step / change)
  }

  /** A round that carries on moves each coordinate by exactly its step or
      not at all, and shrinks a step by the change factor whenever it moves
      along it (and otherwise keeps it or shrinks it). */
  predicate MovesBy(c: Point, r: Round, xStep: real, yStep: real, change: real)
  {
    change > 0.0 && r.Continue? ==>
      (r.center.x == c.x || (Abs(r.center.x - c.x) == xStep && r.xStep == xStep / change)) &&
      (r.center.y == c.y || (Abs(r.center.y - c.y) == yStep && r.yStep == yStep / change)) &&
      (r.xStep == xStep || r.xStep == xStep / change) && (r.yStep == yStep || r.yStep == yStep / change)
  }

  /** p lies within k x steps horizontally and k y steps vertically of c. */
  predicate Within(p: Point, c: Point, xStep: real, yStep: real, k: real)
  {
    Abs(p.x - c.x) <= k * xStep && Abs(p.y - c.y) <= k * yStep
  }

  /** With steps shrinking by 1.2, six steps bound the rest of the reference search. */
  lemma ReferenceRoundBound(c: Point, r: Round, xStep: real, yStep: real, p: Point)
    requires MovesBy(c, r, xStep, yStep, 1.2) && r.Continue? && xStep >= 0.0 && yStep >= 0.0
    requires Within(p, r.center, r.xStep, r.yStep, 6.0)
    ensures Within(p, c, xStep, yStep, 6.0)
  {
    AxisBoundStep(c.x, r.center.x, p.x, xStep, r.xStep, 1.2, 6.0);
    AxisBoundStep(c.y, r.center.y, p.y, yStep, r.yStep, 1.2, 6.0);
  }

  /** With steps shrinking by 1.5, three steps bound the rest of the deviation search. */
  lemma DeviationRoundBound(c: Point, r: Round, xStep: real, yStep: real, p: Point)
    requires MovesBy(c, r, xStep, yStep, 1.5) && r.Continue? && xStep >= 0.0 && yStep >= 0.0
    requires Within(p, r.center, r.xStep, r.yStep, 3.0)
    ensures Within(p, c, xStep, yStep, 3.0)
  {
    AxisBoundStep(c.x, r.center.x, p.x, xStep, r.xStep, 1.5, 3.0);
    AxisBoundStep(c.y, r.center.y, p.y, yStep, r.yStep, 1.5, 3.0);
  }

  /** The end of a round of either search: both axes step as chosen, each
      moving only where its own check allowed it. */
  function Advance(c: Point, xDir: int, xOk: bool, yDir: int, yOk: bool,
                   xStep: real, yStep: real, change: real): (r: Round)
    requires change > 0.0 && -1 <= xDir <= 1 && -1 <= yDir <= 1 && xStep >= 0.0 && yStep >= 0.0
    ensures r.Continue?
    ensures r.center.x == c.x || (xOk && xDir != 0 && r.center.x == c.x + Signed(xDir, xStep))
    ensures r.center.y == c.y || (yOk && yDir != 0 && r.center.y == c.y + Signed(yDir, yStep))
    ensures MovesBy(c, r, xStep, yStep, change)
  {
    var (x, xs) := StepAxis(c.x, xStep, xDir, xOk, change);
    var (y, ys) := StepAxis(c.y, yStep, yDir, yOk, change);
    Continue(Point(x, y), xs, ys)
  }

  /** A round whose moves were each allowed by the check on its own axis keeps
      the whole stencil inside. */
  lemma AdvanceKeepsInside(s: Sampler, c: Point, xDir: int, xOk: bool, yDir: int, yOk: bool,
                           xStep: real, yStep: real, change: real)
    requires change > 0.0 && -1 <= xDir <= 1 && -1 <= yDir <= 1 && xStep >= 0.0 && yStep >= 0.0
    requires xOk ==> ShiftedInside(s, Surrounding(s, c), Signed(xDir, xStep), 0.0)
    requires yOk ==> ShiftedInside(s, Surrounding(s, c), 0.0, Signed(yDir, yStep))
    requires AllInside(s, c)
    ensures AllInside(s, Advance(c, xDir, xOk, yDir, yOk, xStep, yStep, change).center)
  {
    var r := Advance(c, xDir, xOk, yDir, yOk, xStep, yStep, change);
    var dx, dy := r.center.x - c.x, r.center.y - c.y;
    AxisMovesKeepInside(s, c, dx, dy);
    assert r.center == Point(c.x + dx, c.y + dy);
  }

  /** The direction a chosen stencil index asks for on each axis. */
  function Directions(n: int): (d: (int, int))
    ensures -1 <= d.0 <= 1 && -1 <= d.1 <= 1
  {
    (if n in RightIndexes then 1 else if n in LeftIndexes then -1 else 0,
     if n in BottomIndexes then 1 else if n in TopIndexes then -1 else 0)
  }

  /** One round of `correctByReference`. */
  function ReferenceRound(s: Sampler, c: Point, row: nat, col: nat, xStep: real, yStep: real, lab: Metric): Round
    requires s.Valid() && row < RowCount && col < ColCount && xStep >= 0.0 && yStep >= 0.0
  {
    var reference := ReferenceColor(row, col);
    var ps := Surrounding(s, c);
    var (n, nd) := Nearest(ProbeDistances(s, c, reference, lab));
    if n < 0 || n >= 9 then Stop
    else
      var opposite := ps[8 - n];
      var ox, oy := Trunc(c.x + (opposite.x - c.x)), Trunc(c.y + (opposite.y - c.y));
      if lab(MeanColor(s, ox, oy), reference) < nd * OppositeThreshold(row, col) then Stop
      else
        var (xDir, yDir) := Directions(n);
        Advance(c, xDir, ShiftedInside(s, ps, Signed(xDir, xStep), 0.0),
                yDir, ShiftedInside(s, ps, 0.0, Signed(yDir, yStep)), xStep, yStep, 1.2)
  }

  /** `correctByReference` from the given state with k rounds left. The
      search never moves the stencil out of the image, and since steps
      shrinking by 1.2 sum to less than six first steps, it moves the centre
      at most 6 x steps horizontally and 6 y steps vertically. */
  function ReferenceSearch(s: Sampler, c: Point, row: nat, col: nat, k: nat, xStep: real, yStep: real, lab: Metric): (p: Point)
    requires s.Valid() && row < RowCount && col < ColCount && xStep >= 0.0 && yStep >= 0.0
    ensures AllInside(s, c) ==> AllInside(s, p)
    ensures Within(p, c, xStep, yStep, 6.0)
    decreases k
  {
    if k == 0 then c
    else
      var r := ReferenceRound(s, c, row, col, xStep, yStep, lab);
      if r.Stop? then c
      else
        ReferenceRoundFacts(s, c, row, col, xStep, yStep, lab);
        var p := ReferenceSearch(s, r.center, row, col, k - 1, r.xStep, r.yStep, lab);
        ReferenceRoundMoves(s, c, row, col, xStep, yStep, lab);
        ReferenceRoundBound(c, r, xStep, yStep, p);
        p
  }

  // ----- Deviation-balancing search -----

  const DeviationIterations: nat := 10

  /** Every listed stencil point, shifted, can be read. */
  predicate Readable(s: Sampler, ps: seq<Point>, idx: seq<nat>, dx: real, dy: real)
  {
    forall i :: 0 <= i < |idx| ==> idx[i] < |ps| && InImage(s, ps[idx[i]], dx, dy)
  }

  /** `deviationSum`: the RGB distances from the shifted centre's colour to the
      shifted colours of the listed stencil points, added left to right from 0. */
  function DeviationSum(s: Sampler, ps: seq<Point>, c: Point, idx: seq<nat>, dx: real, dy: real, rgb: Metric): real
    requires s.Valid() && |ps| == 9 && InImage(s, c, dx, dy) && Readable(s, ps, idx, dx, dy)
  {
    if |idx| == 0 then 0.0
    else
      DeviationSum(s, ps, c, idx[..|idx| - 1], dx, dy, rgb)
        + rgb(PixelAtPoint(s, c, dx, dy), PixelAtPoint(s, ps[idx[|idx| - 1]], dx, dy))
  }

  /** The side sums of the stencil are read in bounds whenever the shifted stencil is inside. */
  lemma SidesInside(s: Sampler, c: Point, dx: real, dy: real)
    requires ShiftedInside(s, Surrounding(s, c), dx, dy)
    ensures InImage(s, c, dx, dy)
    ensures var ps := Surrounding(s, c);
      Readable(s, ps, TopIndexes, dx, dy) && Readable(s, ps, BottomIndexes, dx, dy) &&
      Readable(s, ps, LeftIndexes, dx, dy) && Readable(s, ps, RightIndexes, dx, dy)
  {
    assert Surrounding(s, c)[4] == c;
  }

  /** The deviation sums of the unshifted stencil's two opposite sides: left
      and right columns when `horizontal`, else top and bottom rows. */
  function SideSums(s: Sampler, c: Point, horizontal: bool, rgb: Metric): (real, real)
    requires s.Valid() && AllInside(s, c)
  {
    var ps := Surrounding(s, c);
    SidesInside(s, c, 0.0, 0.0);
    if horizontal then (DeviationSum(s, ps, c, LeftIndexes, 0.0, 0.0, rgb), DeviationSum(s, ps, c, RightIndexes, 0.0, 0.0, rgb))
    else (DeviationSum(s, ps, c, TopIndexes, 0.0, 0.0, rgb), DeviationSum(s, ps, c, BottomIndexes, 0.0, 0.0, rgb))
  }

  /** The direction one axis asks for: +1 when the first side's sum is at least
      1.5 times the second's, -1 in the opposite case, 0 when neither dominates. */
  function Dominant(a: real, b: real): (dir: int)
    ensures -1 <= dir <= 1
    ensures dir == 1 <==> a >= b * 1.5
    ensures dir == -1 <==> a < b * 1.5 && b >= a * 1.5
  {
    if a >= b * 1.5 then 1 else if b >= a * 1.5 then -1 else 0
  }

  /** The shift (dx, dy) of a move by d along one axis. */
  function AxisShift(d: real, horizontal: bool): (real, real)
  {
    if horizontal then (d, 0.0) else (0.0, d)
  }

  /** Whether and how one axis moves in a round of `correctByDeviation`: towards
      the side whose deviation dominates by the threshold, when the shifted
      stencil stays inside and the two sides' shifted sums strictly drop. */
  function DeviationAxis(s: Sampler, c: Point, step: real, horizontal: bool, rgb: Metric): (r: (int, bool))
    requires s.Valid() && AllInside(s, c)
    ensures -1 <= r.0 <= 1
    ensures r.1 ==> r.0 != 0 && (var (dx, dy) := AxisShift(Signed(r.0, step), horizontal);
                                 ShiftedInside(s, Surrounding(s, c), dx, dy))
  {
    var (a, b) := SideSums(s, c, horizontal, rgb);
    var dir := Dominant(a, b);
    var (dx, dy) := AxisShift(Signed(dir, step), horizontal);
    (dir, dir != 0 && ShiftLowers(s, c, dx, dy, horizontal, a + b, rgb))
  }

  /** A half round of `correctByDeviation` that decided from the side sums a
      and b and, when one side dominated, moved by (dx, dy) exactly when the
      trial move lowered the sums, ends where DeviationAxis says. */
  lemma BalanceOutcome(s: Sampler, c: Point, step: real, horizontal: bool, rgb: Metric,
                       a: real, b: real, dx: real, dy: real, moves: bool, pos: real, newStep: real)
    requires s.Valid() && AllInside(s, c) && step >= 0.0 && (a, b) == SideSums(s, c, horizontal, rgb)
    requires Dominant(a, b) == 0 ==> !moves
    requires Dominant(a, b) != 0 ==>
      (dx, dy) == AxisShift(Signed(Dominant(a, b), step), horizontal) &&
      moves == ShiftLowers(s, c, dx, dy, horizontal, a + b, rgb)
    requires newStep == if Dominant(a, b) == 0 then step else step / 1.5
    requires pos == (if horizontal then c.x else c.y) + (if moves then Signed(Dominant(a, b), step) else 0.0)
    ensures var (dir, improves) := DeviationAxis(s, c, step, horizontal, rgb);
      (pos, newStep) == StepAxis(if horizontal then c.x else c.y, step, dir, improves, 1.5)
  {
  }

  /** The stencil shifted by (dx, dy) stays inside the image and the two
      opposite sides (left and right, or top and bottom) sum to less than
      `before` there. */
  function ShiftLowers(s: Sampler, c: Point, dx: real, dy: real, horizontal: bool, before: real, rgb: Metric): bool
    requires s.Valid()
  {
    var ps := Surrounding(s, c);
    ShiftedInside(s, ps, dx, dy) &&
    (SidesInside(s, c, dx, dy);
     var (a, b) := if horizontal then (LeftIndexes, RightIndexes) else (TopIndexes, BottomIndexes);
     DeviationSum(s, ps, c, a, dx, dy, rgb) + DeviationSum(s, ps, c, b, dx, dy, rgb) < before)
  }

  /** One round of `correctByDeviation`; both axes are judged from the same stencil. */
  function DeviationRound(s: Sampler, c: Point, xStep: real, yStep: real, rgb: Metric): (r: Round)
    requires s.Valid() && AllInside(s, c) && xStep >= 0.0 && yStep >= 0.0
  {
    var (xDir, xMoves) := DeviationAxis(s, c, xStep, true, rgb);
    var (yDir, yMoves) := DeviationAxis(s, c, yStep, false, rgb);
    Advance(c, xDir, xMoves, yDir, yMoves, xStep, yStep, 1.5)
  }

  // ----- What both searches keep -----

  /** A move on each axis that is committed only when the stencil shifted along
      that axis stays inside keeps the whole stencil inside. */
  lemma AxisMovesKeepInside(s: Sampler, c: Point, dx: real, dy: real)
    requires AllInside(s, c)
    requires dx != 0.0 ==> ShiftedInside(s, Surrounding(s, c), dx, 0.0)
    requires dy != 0.0 ==> ShiftedInside(s, Surrounding(s, c), 0.0, dy)
    ensures AllInside(s, Point(c.x + dx, c.y + dy))
  {
    var ps, qs := Surrounding(s, c), Surrounding(s, Point(c.x + dx, c.y + dy));
    forall i | 0 <= i < 9
      ensures InImage(s, qs[i], 0.0, 0.0)
    {
      SurroundingShift(s, c, dx, dy, i);
      assert XIn(s, ps[i], dx) && YIn(s, ps[i], dy);
    }
  }

  /** A round of the deviation search carries on, keeps the stencil inside
      and keeps its steps non-negative. */
  lemma DeviationRoundFacts(s: Sampler, c: Point, xStep: real, yStep: real, rgb: Metric)
    requires s.Valid() && AllInside(s, c) && xStep >= 0.0 && yStep >= 0.0
    ensures var r := DeviationRound(s, c, xStep, yStep, rgb);
      r.Continue? && AllInside(s, r.center) && r.xStep >= 0.0 && r.yStep >= 0.0 &&
      MovesBy(c, r, xStep, yStep, 1.5)
  {
    var (xDir, xMoves) := DeviationAxis(s, c, xStep, true, rgb);
    var (yDir, yMoves) := DeviationAxis(s, c, yStep, false, rgb);
    AdvanceKeepsInside(s, c, xDir, xMoves, yDir, yMoves, xStep, yStep, 1.5);
  }

  /** `correctByDeviation` from the given state with k rounds left. */
  /** The search keeps the stencil inside, and since steps shrinking by 1.5
      sum to less than three first steps, it moves the centre at most 3 x
      steps horizontally and 3 y steps vertically. */
  function DeviationSearch(s: Sampler, c: Point, k: nat, xStep: real, yStep: real, rgb: Metric): (p: Point)
    requires s.Valid() && AllInside(s, c) && xStep >= 0.0 && yStep >= 0.0
    ensures AllInside(s, p)
    ensures Within(p, c, xStep, yStep, 3.0)
    decreases k
  {
    if k == 0 then c
    else
      var r := DeviationRound(s, c, xStep, yStep, rgb);
      DeviationRoundFacts(s, c, xStep, yStep, rgb);
      var p := DeviationSearch(s, r.center, k - 1, r.xStep, r.yStep, rgb);
      DeviationRoundBound(c, r, xStep, yStep, p);
      p
  }

  /** A round of the reference search that carries on keeps the stencil
      inside and keeps its steps non-negative. */
  lemma ReferenceRoundFacts(s: Sampler, c: Point, row: nat, col: nat, xStep: real, yStep: real, lab: Metric)
    requires s.Valid() && row < RowCount && col < ColCount && xStep >= 0.0 && yStep >= 0.0
    ensures var r := ReferenceRound(s, c, row, col, xStep, yStep, lab);
      r.Continue? ==> (AllInside(s, c) ==> AllInside(s, r.center)) && r.xStep >= 0.0 && r.yStep >= 0.0
  {
    var ps := Surrounding(s, c);
    var (n, nd) := Nearest(ProbeDistances(s, c, ReferenceColor(row, col), lab));
    if 0 <= n < 9 {
      var (xDir, yDir) := Directions(n);
      if AllInside(s, c) {
        AdvanceKeepsInside(s, c, xDir, ShiftedInside(s, ps, Signed(xDir, xStep), 0.0),
                           yDir, ShiftedInside(s, ps, 0.0, Signed(yDir, yStep)), xStep, yStep, 1.2);
      }
    }
  }

  /** A round of the reference search that carries on moves each coordinate
      by exactly its step or not at all, and shrinks a step by 1.2 whenever it
      moves along it. */
  lemma ReferenceRoundMoves(s: Sampler, c: Point, row: nat, col: nat, xStep: real, yStep: real, lab: Metric)
    requires s.Valid() && row < RowCount && col < ColCount && xStep >= 0.0 && yStep >= 0.0
    ensures var r := ReferenceRound(s, c, row, col, xStep, yStep, lab);
      MovesBy(c, r, xStep, yStep, 1.2)
  {
    var ps := Surrounding(s, c);
    var (n, nd) := Nearest(ProbeDistances(s, c, ReferenceColor(row, col), lab));
    if 0 <= n < 9 {
      var (xDir, yDir) := Directions(n);
      var a := Advance(c, xDir, ShiftedInside(s, ps, Signed(xDir, xStep), 0.0),
                       yDir, ShiftedInside(s, ps, 0.0, Signed(yDir, yStep)), xStep, yStep, 1.2);
      var r := ReferenceRound(s, c, row, col, xStep, yStep, lab);
      assert r.Continue? ==> r == a;
    }
  }

  /** One round's move, added to the at most k later steps left after it,
      stays within k first steps when each step shrinks by the given factor
      and k * (change - 1) >= change. */
  lemma AxisBoundStep(c: real, c2: real, r: real, step: real, step2: real, change: real, k: real)
    requires step >= 0.0 && change > 1.0 && k >= 0.0 && k * (change - 1.0) >= change
    requires c2 == c || (Abs(c2 - c) == step && step2 == step / change)
    requires step2 == step || step2 == step / change
    requires Abs(r - c2) <= k * step2
    ensures Abs(r - c) <= k * step
  {
    var q := step / change;
    assert q * change == step;
    assert 0.0 <= q <= step by {
      assert q * change >= q * 1.0;
    }
    assert k * q <= k * step by {
      assert k * step - k * q == k * (step - q);
    }
    if c2 != c {
      assert k * q + step <= k * step by {
        assert k * step - k * q - step == q * (k * (change - 1.0) - change);
        assert q * (k * (change - 1.0) - change) >= 0.0;
      }
    }
  }

  /** The reference search leaves the centre where it is when no probe's
      sub-patch is flat enough, or when the probe opposite the nearest is
      nearly as close to the reference. */
  lemma ReferenceSearchStops(s: Sampler, c: Point, row: nat, col: nat, k: nat, xStep: real, yStep: real, lab: Metric)
    requires s.Valid() && row < RowCount && col < ColCount && k > 0 && xStep >= 0.0 && yStep >= 0.0
    requires (forall i :: 0 <= i < 9 ==> ProbeDistance(s, c, Surrounding(s, c)[i], ReferenceColor(row, col), lab).None?) ||
      var (n, nd) := Nearest(ProbeDistances(s, c, ReferenceColor(row, col), lab));
      0 <= n < 9 &&
      var o := Surrounding(s, c)[8 - n];
      lab(MeanColor(s, Trunc(c.x + (o.x - c.x)), Trunc(c.y + (o.y - c.y))), ReferenceColor(row, col)) < nd * OppositeThreshold(row, col)
    ensures ReferenceSearch(s, c, row, col, k, xStep, yStep, lab) == c
  {
    ReferenceRoundStops(s, c, row, col, xStep, yStep, lab);
  }

  /** The round behind ReferenceSearchStops: no probe in the chart, or a
      nearest probe whose opposite point is close enough, ends the search. */
  lemma ReferenceRoundStops(s: Sampler, c: Point, row: nat, col: nat, xStep: real, yStep: real, lab: Metric)
    requires s.Valid() && row < RowCount && col < ColCount && xStep >= 0.0 && yStep >= 0.0
    requires (forall i :: 0 <= i < 9 ==> ProbeDistance(s, c, Surrounding(s, c)[i], ReferenceColor(row, col), lab).None?) ||
      var (n, nd) := Nearest(ProbeDistances(s, c, ReferenceColor(row, col), lab));
      0 <= n < 9 &&
      var o := Surrounding(s, c)[8 - n];
      lab(MeanColor(s, Trunc(c.x + (o.x - c.x)), Trunc(c.y + (o.y - c.y))), ReferenceColor(row, col)) < nd * OppositeThreshold(row, col)
    ensures ReferenceRound(s, c, row, col, xStep, yStep, lab).Stop?
  {
    var ds := ProbeDistances(s, c, ReferenceColor(row, col), lab);
    NearestIsFirstMinimum(ds);
  }

  // ----- The initial grid -----

  /** A centre at least one stencil spacing inside every edge keeps its stencil inside. */
  lemma CenterWithMargin(s: Sampler, c: Point)
    requires s.xScale as real <= c.x && c.x + s.xScale as real < s.image.cols as real
    requires s.yScale as real <= c.y && c.y + s.yScale as real < s.image.rows as real
    requires s.xScale >= 0 && s.yScale >= 0
    ensures AllInside(s, c)
  {
    var ps := Surrounding(s, c);
    forall i | 0 <= i < 9
      ensures InImage(s, ps[i], 0.0, 0.0)
    {
      SurroundingAt(s, c, i);
    }
  }

  /** Every initial centre of a chart has its whole stencil inside the chart. */
  lemma InitialCentersInside(image: Image, row: nat, col: nat)
    requires image.Valid() && image.rows > 0 && image.cols > 0 && row < RowCount && col < ColCount
    ensures AllInside(SamplerFor(image), InitialCenter(SamplerFor(image), row, col))
  {
    var s := SamplerFor(image);
    InitialCenterMargins(s, row, col);
    CenterWithMargin(s, InitialCenter(s, row, col));
  }

  /** With steps of at most 4% of the width and 2% of the height, an initial
      centre lies at least one step inside the chart. */
  lemma InitialCenterMargins(s: Sampler, row: nat, col: nat)
    requires row < RowCount && col < ColCount && s.image.rows > 0 && s.image.cols > 0
    requires 0 <= s.xScale && s.xScale as real <= 0.04 * s.image.cols as real
    requires 0 <= s.yScale && s.yScale as real <= 0.02 * s.image.rows as real
    ensures var c := InitialCenter(s, row, col);
      s.xScale as real <= c.x && c.x + s.xScale as real < s.image.cols as real &&
      s.yScale as real <= c.y && c.y + s.yScale as real < s.image.rows as real
  {
    CenterFractions(row, col);
    XMargin(XCenters[col], s.image.cols as real, s.xScale as real);
    YMargin(YCenters[row], s.image.rows as real, s.yScale as real);
  }

  /** A centre between 14.3% and 86.2% of the width is at least one stencil
      step, at most 4% of the width, from either side. */
  lemma XMargin(f: real, w: real, step: real)
    requires 0.143 <= f <= 0.862 && 0.0 < w && 0.0 <= step <= 0.04 * w
    ensures step <= f * w
    ensures f * w + step < w
  {
    assert 0.143 * w <= f * w <= 0.862 * w;
  }

  /** A centre between 16% and 85.6% of the height is at least one stencil
      step, at most 2% of the height, from the top and the bottom. */
  lemma YMargin(f: real, h: real, step: real)
    requires 0.160 <= f <= 0.856 && 0.0 < h && 0.0 <= step <= 0.02 * h
    ensures step <= f * h
    ensures f * h + step < h
  {
    assert 0.160 * h <= f * h <= 0.856 * h;
  }

  /** The relative centres lie between 14% and 87% of either side. */
  lemma CenterFractions(row: nat, col: nat)
    requires row < RowCount && col < ColCount
    ensures 0.143 <= XCenters[col] <= 0.862 && 0.160 <= YCenters[row] <= 0.856
  {
  }

}
