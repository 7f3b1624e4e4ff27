/** The colour chart object: the 6 x 4 grid of refined patch centres, the
    samples read around them, the (observed, reference) training pairs built
    from them, and the calibration of a whole image through a regression model. */
module ColorCheckers {
  import opened Wrappers
  import opened Numeric
  import opened Pixels
  import opened Geometry
  import opened ColorSpaces
  import opened PixelPasses
  import opened PatchSampling
  import opened SampleGrid
  import Regression
  import ColorMetric

  // ----- The refined grid -----

  /** A then B: a point within a of b, and b within k of c, lies within a + k of c. */
  lemma WithinCompose(p: Point, q: Point, c: Point, xStep: real, yStep: real, a: real, k: real)
    requires Within(p, q, xStep, yStep, a) && Within(q, c, xStep, yStep, k)
    ensures Within(p, c, xStep, yStep, a + k)
  {
  }

  /** The centre the constructor stores for a patch: the initial centre,
      refined first by the reference search and then by the deviation search,
      each only when its flag is set. Whatever the flags, the stencil stays in
      the chart and the centre moves at most nine stencil spacings along
      each axis. */
  function CenterFor(image: Image, row: nat, col: nat, withReference: bool, withDeviation: bool,
                     lab: Metric, rgb: Metric): (p: Point)
    requires image.Valid() && image.rows > 0 && image.cols > 0 && row < RowCount && col < ColCount
    ensures AllInside(SamplerFor(image), p)
    ensures var s := SamplerFor(image);
      Within(p, InitialCenter(s, row, col), s.xScale as real, s.yScale as real, 9.0)
  {
    var s := SamplerFor(image);
    var xs, ys := s.xScale as real, s.yScale as real;
    var p0 := InitialCenter(s, row, col);
    InitialCentersInside(image, row, col);
    var p1 := if withReference then ReferenceSearch(s, p0, row, col, RefIterations, xs, ys, lab) else p0;
    assert Within(p1, p0, xs, ys, 6.0);
    var p2 := if withDeviation then DeviationSearch(s, p1, DeviationIterations, xs, ys, rgb) else p1;
    assert Within(p2, p1, xs, ys, 3.0);
    WithinCompose(p2, p1, p0, xs, ys, 3.0, 6.0);
    p2
  }

  /** The constructor with neither correction keeps the initial grid. */
  lemma UncorrectedGrid(image: Image, row: nat, col: nat, lab: Metric, rgb: Metric)
    requires image.Valid() && image.rows > 0 && image.cols > 0 && row < RowCount && col < ColCount
    ensures CenterFor(image, row, col, false, false, lab, rgb) == InitialCenter(SamplerFor(image), row, col)
  {
  }

  /** Sub-patch index 3 (a + 1) + (b + 1) is the colour at offset a along x
      and b along y. */
  lemma SubPatchAt(s: Sampler, x: int, y: int, a: int, b: int)
    requires s.Valid() && -1 <= a <= 1 && -1 <= b <= 1
    ensures SubPatch(s, x, y)[3 * (a + 1) + (b + 1)] == GetColor(s, x + a * s.xPatch, y + b * s.yPatch)
  {
    var k := 3 * (a + 1) + (b + 1);
    assert k / 3 - 1 == a && k % 3 - 1 == b;
  }

  /** What one more colour, known to be `color`, adds to each channel sum. */
  lemma ChannelSumsStep(cs: seq<Triple>, k: nat, color: Triple)
    requires k < |cs| && cs[k] == color
    ensures Sum(Channels(cs, 0)[..k + 1]) == Sum(Channels(cs, 0)[..k]) + color.c0
    ensures Sum(Channels(cs, 1)[..k + 1]) == Sum(Channels(cs, 1)[..k]) + color.c1
    ensures Sum(Channels(cs, 2)[..k + 1]) == Sum(Channels(cs, 2)[..k]) + color.c2
  {
    SumPrefixStep(Channels(cs, 0), k);
    SumPrefixStep(Channels(cs, 1), k);
    SumPrefixStep(Channels(cs, 2), k);
  }

  /** Entry 3 (a + 1) + (b + 1) of the sub-patch's values is the value of
      the colour at offset a along x and b along y. */
  lemma ValueAt(s: Sampler, x: int, y: int, a: int, b: int)
    requires s.Valid() && -1 <= a <= 1 && -1 <= b <= 1
    ensures Values(SubPatch(s, x, y))[3 * (a + 1) + (b + 1)] == Value(GetColor(s, x + a * s.xPatch, y + b * s.yPatch))
  {
    SubPatchAt(s, x, y, a, b);
  }

  // ----- Samples, training pairs and the chart's colour lists -----

  /** The 6 x 4 patches, numbered row by row: patch 4 * row + col. */
  const PatchCount: nat := 24

  /** The grid is complete and every stencil lies in the chart. */
  predicate GridInside(s: Sampler, centers: seq<seq<Point>>)
  {
    |centers| == RowCount &&
    (forall r :: 0 <= r < RowCount ==> |centers[r]| == ColCount) &&
    forall r, c :: 0 <= r < RowCount && 0 <= c < ColCount ==> AllInside(s, centers[r][c])
  }

  /** An image read in place of the chart raster has the chart's size. */
  ghost predicate SameShape(s: Sampler, img: Image)
  {
    s.Valid() && img.Valid() && img.rows == s.image.rows && img.cols == s.image.cols
  }

  /** The centre of patch p, counting row by row. */
  function PatchCenter(s: Sampler, centers: seq<seq<Point>>, p: nat): (c: Point)
    requires GridInside(s, centers) && p < PatchCount
    ensures AllInside(s, c)
  {
    centers[p / 4][p % 4]
  }

  /** The reference colour of patch p, counting row by row. */
  function PatchReference(p: nat): Triple
    requires p < PatchCount
  {
    ReferenceColor(p / 4, p % 4)
  }

  /** `Mat.get` at the truncated coordinates of a point inside the image. */
  function ReadAt(img: Image, p: Point): Triple
    requires img.Valid() && 0.0 <= p.x < img.cols as real && 0.0 <= p.y < img.rows as real
  {
    img.At(Trunc(p.y), Trunc(p.x))
  }

  /** The nine stencil reads of a patch, in stencil order. */
  function StencilSamples(s: Sampler, img: Image, c: Point): (cs: seq<Triple>)
    requires SameShape(s, img) && AllInside(s, c)
    ensures |cs| == 9
  {
    var ps := Surrounding(s, c);
    seq(9, i requires 0 <= i < 9 => ReadAt(img, ps[i]))
  }

  /** The samples of one patch: the whole grid over the stencil's bounding box
      at a spacing of ten pixels, or the nine stencil points. */
  function PatchSamples(s: Sampler, img: Image, c: Point, allPoints: bool): (cs: seq<Triple>)
    requires SameShape(s, img) && AllInside(s, c)
    ensures !allPoints ==> |cs| == 9
  {
    if allPoints then
      var ps := Surrounding(s, c);
      assert InImage(s, ps[0], 0.0, 0.0) && InImage(s, ps[8], 0.0, 0.0);
      TruncMonotone(ps[0].x, ps[8].x);
      TruncMonotone(ps[0].y, ps[8].y);
      var minX, maxX, minY, maxY := Trunc(ps[0].x), Trunc(ps[8].x), Trunc(ps[0].y), Trunc(ps[8].y);
      Grid(img, minX, GridSize(minX, maxX), minY, GridSize(minY, maxY))
    else
      StencilSamples(s, img, c)
  }

  /** `n` copies of a colour. */
  function Repeat(t: Triple, n: nat): (cs: seq<Triple>)
    ensures |cs| == n && forall i :: 0 <= i < n ==> cs[i] == t
  {
    seq(n, _ => t)
  }

  /** The lists of patches 0 .. n - 1, one after the other. */
  function Flatten(parts: seq<seq<Triple>>, n: nat): seq<Triple>
    requires n <= |parts|
  {
    if n == 0 then [] else Flatten(parts, n - 1) + parts[n - 1]
  }

  /** For each colour of Flatten(parts, n), the reference colour of its patch. */
  function Labels(parts: seq<seq<Triple>>, n: nat): seq<Triple>
    requires n <= |parts| <= PatchCount
  {
    if n == 0 then [] else Labels(parts, n - 1) + Repeat(PatchReference(n - 1), |parts[n - 1]|)
  }

  /** Every colour has its reference colour: the two lists have the same length. */
  lemma {:induction false} LabelsLength(parts: seq<seq<Triple>>, n: nat)
    requires n <= |parts| <= PatchCount
    ensures |Labels(parts, n)| == |Flatten(parts, n)|
  {
    if n > 0 {
      LabelsLength(parts, n - 1);
    }
  }

  /** Index k of a run of nine appended after p runs of nine is index k % 9 of run p. */
  lemma NinthRun(a: seq<Triple>, b: seq<Triple>, p: nat, k: nat)
    requires |a| == 9 * p && |b| == 9 && 9 * p <= k < 9 * p + 9
    ensures k / 9 == p && (a + b)[k] == b[k % 9]
  {
    assert k / 9 == p && k % 9 == k - 9 * p;
  }

  /** With nine colours per patch, patch p contributes colours 9p .. 9p + 8,
      each paired with patch p's reference colour. */
  lemma {:induction false} FlattenNines(parts: seq<seq<Triple>>, n: nat)
    requires n <= |parts| <= PatchCount
    requires forall p :: 0 <= p < |parts| ==> |parts[p]| == 9
    ensures |Flatten(parts, n)| == |Labels(parts, n)| == 9 * n
    ensures forall k :: 0 <= k < 9 * n ==>
      Flatten(parts, n)[k] == parts[k / 9][k % 9] && Labels(parts, n)[k] == PatchReference(k / 9)
  {
    if n > 0 {
      var p := n - 1;
      FlattenNines(parts, p);
      var a, b := Flatten(parts, p), Labels(parts, p);
      var sa, sb := parts[p], Repeat(PatchReference(p), 9);
      assert Flatten(parts, n) == a + sa;
      assert Labels(parts, n) == b + sb;
      forall k | 0 <= k < 9 * n
        ensures (a + sa)[k] == parts[k / 9][k % 9] && (b + sb)[k] == PatchReference(k / 9)
      {
        if k >= 9 * p {
          NinthRun(a, sa, p, k);
          NinthRun(b, sb, p, k);
        } else {
          assert (a + sa)[k] == a[k] && (b + sb)[k] == b[k];
        }
      }
    }
  }

  /** The samples of each patch, in the row-by-row patch order. */
  function PatchSampleLists(s: Sampler, img: Image, centers: seq<seq<Point>>, allPoints: bool): (parts: seq<seq<Triple>>)
    requires SameShape(s, img) && GridInside(s, centers)
    ensures |parts| == PatchCount
  {
    seq(PatchCount, p requires 0 <= p < PatchCount => PatchSamples(s, img, PatchCenter(s, centers, p), allPoints))
  }

  /** The observed colours of patches 0 .. n - 1, row by row. */
  function Collected(s: Sampler, img: Image, centers: seq<seq<Point>>, allPoints: bool, n: nat): seq<Triple>
    requires SameShape(s, img) && GridInside(s, centers) && n <= PatchCount
  {
    Flatten(PatchSampleLists(s, img, centers, allPoints), n)
  }

  /** The reference colour of each observed colour, patch by patch. */
  function References(s: Sampler, img: Image, centers: seq<seq<Point>>, allPoints: bool, n: nat): seq<Triple>
    requires SameShape(s, img) && GridInside(s, centers) && n <= PatchCount
  {
    Labels(PatchSampleLists(s, img, centers, allPoints), n)
  }

  /** Patch (row, col) is patch 4 * row + col of the row-by-row count. */
  lemma PatchIndex(row: nat, col: nat)
    requires row < RowCount && col < ColCount
    ensures var p := 4 * row + col;
      p < PatchCount && p / 4 == row && p % 4 == col && PatchReference(p) == ReferenceColor(row, col)
  {
  }

  /** One more patch: what the loops over rows and columns append. */
  lemma CollectedStep(s: Sampler, img: Image, centers: seq<seq<Point>>, allPoints: bool, row: nat, col: nat)
    requires SameShape(s, img) && GridInside(s, centers) && row < RowCount && col < ColCount
    ensures var p, samples := 4 * row + col, PatchSamples(s, img, centers[row][col], allPoints);
      p + 1 <= PatchCount &&
      Collected(s, img, centers, allPoints, p + 1) == Collected(s, img, centers, allPoints, p) + samples &&
      References(s, img, centers, allPoints, p + 1) ==
        References(s, img, centers, allPoints, p) + Repeat(ReferenceColor(row, col), |samples|)
  {
    PatchIndex(row, col);
  }

  /** Every colour converted out of BGR into a space. */
  function Converted(cs: seq<Triple>, space: ColorSpace, pow: Pow): (r: seq<Triple>)
    ensures |r| == |cs| && forall i :: 0 <= i < |cs| ==> r[i] == FromBgr(space, cs[i], pow)
  {
    seq(|cs|, i requires 0 <= i < |cs| => FromBgr(space, cs[i], pow))
  }

  lemma ConvertedAppend(a: seq<Triple>, b: seq<Triple>, space: ColorSpace, pow: Pow)
    ensures Converted(a + b, space, pow) == Converted(a, space, pow) + Converted(b, space, pow)
  {
  }

  /** Colour k of the stencil samples patch by patch: point k % 9 of patch k / 9. */
  function StencilAt(s: Sampler, img: Image, centers: seq<seq<Point>>, k: nat): Triple
    requires SameShape(s, img) && GridInside(s, centers) && k < 9 * (PatchCount)
  {
    StencilSamples(s, img, PatchCenter(s, centers, k / 9))[k % 9]
  }

  /** With the nine stencil points per patch, patch p contributes colours
      9p .. 9p + 8: its stencil reads, each paired with its reference colour. */
  lemma StencilCollected(s: Sampler, img: Image, centers: seq<seq<Point>>, n: nat)
    requires SameShape(s, img) && GridInside(s, centers) && n <= PatchCount
    ensures |Collected(s, img, centers, false, n)| == |References(s, img, centers, false, n)| == 9 * n
    ensures forall k :: 0 <= k < 9 * n ==>
      Collected(s, img, centers, false, n)[k] == StencilAt(s, img, centers, k) &&
      References(s, img, centers, false, n)[k] == PatchReference(k / 9)
  {
    var parts := PatchSampleLists(s, img, centers, false);
    FlattenNines(parts, n);
  }

  /** The training colours of `calculateTrainAndAnswers`: the stencil reads of
      the chart raster, converted into the features space. */
  function TrainColors(s: Sampler, centers: seq<seq<Point>>, space: ColorSpace, pow: Pow): seq<Triple>
    requires s.Valid() && GridInside(s, centers)
  {
    Converted(Collected(s, s.image, centers, false, PatchCount), space, pow)
  }

  /** The answers: each stencil read's reference colour, converted into the target space. */
  function AnswerColors(s: Sampler, centers: seq<seq<Point>>, space: ColorSpace, pow: Pow): seq<Triple>
    requires s.Valid() && GridInside(s, centers)
  {
    Converted(References(s, s.image, centers, false, PatchCount), space, pow)
  }

  /** There are 216 training pairs, nine per patch. Pair k holds stencil point
      k % 9 of patch k / 9, in the features space, and that patch's fixed
      reference colour, in the target space. */
  lemma TrainingPairs(s: Sampler, centers: seq<seq<Point>>, fs: ColorSpace, ts: ColorSpace, pow: Pow, k: nat)
    requires s.Valid() && GridInside(s, centers) && k < 216
    ensures |TrainColors(s, centers, fs, pow)| == |AnswerColors(s, centers, ts, pow)| == 216
    ensures TrainColors(s, centers, fs, pow)[k] ==
      FromBgr(fs, StencilAt(s, s.image, centers, k), pow)
    ensures AnswerColors(s, centers, ts, pow)[k] == FromBgr(ts, PatchReference(k / 9), pow)
  {
    StencilCollected(s, s.image, centers, PatchCount);
  }

  /** `pixelArea`: the chart's 64 x 108 mm over the quad's area in pixels,
      the area of one pixel in square millimetres. A degenerate quad has no
      finite answer. */
  function PixelArea(q: Quad): (r: Option<real>)
    ensures r.None? <==> Area(q) == 0.0
    ensures r.Some? ==> r.value * Area(q) == 64.0 * 108.0 && r.value > 0.0
  {
    AreaNonNegativeAndIgnoresBr(q, q.br);
    if Area(q) == 0.0 then None else Some(64.0 * 108.0 / Area(q))
  }

  /** The three passes over the same n pixels: pixel p ends up as the third
      function of the second of the first of its input, later slots untouched. */
  lemma ThreePasses(src: seq<real>, n: nat, f: Triple -> Triple, g: Triple -> Triple, h: Triple -> Triple)
    requires 3 * n <= |src|
    ensures var r := MapPixels(MapPixels(MapPixels(src, n, f), n, g), n, h);
      |r| == |src| &&
      (forall p :: 0 <= p < n ==> PixelAt(r, p) == h(g(f(PixelAt(src, p))))) &&
      (forall i :: 3 * n <= i < |src| ==> r[i] == src[i])
  {
    var a := MapPixels(src, n, f);
    var b := MapPixels(a, n, g);
    MapPixelsSpec(src, n, f);
    MapPixelsSpec(a, n, g);
    MapPixelsSpec(b, n, h);
    forall p | 0 <= p < n
      ensures PixelAt(MapPixels(b, n, h), p) == h(g(f(PixelAt(src, p))))
    {
      assert PixelAt(a, p) == f(PixelAt(src, p));
      assert PixelAt(b, p) == g(PixelAt(a, p));
    }
  }

  // ----- The three per-pixel passes of `calibrate` -----

  /** The conversion of the first pass, as a per-pixel function. */
  function FromBgrMap(space: ColorSpace, pow: Pow): Triple -> Triple
  {
    t => FromBgr(space, t, pow)
  }

  /** The conversion of the third pass, as a per-pixel function. */
  function ToBgrMap(space: ColorSpace, pow: Pow): Triple -> Triple
  {
    t => ToBgr(space, t, pow)
  }

  /** First pass: each of the first n pixels converted in place into the features space. */
  method FromBgrPass(buf: array<real>, n: nat, space: ColorSpace, pow: Pow)
    requires 3 * n <= buf.Length
    modifies buf
    ensures buf[..] == MapPixels(old(buf[..]), n, FromBgrMap(space, pow))
  {
    for p := 0 to n
      invariant buf[..] == MapPixels(old(buf[..]), p, FromBgrMap(space, pow))
    {
      FromBgrPixel(buf, p, space, pow, old(buf[..]));
    }
  }

  /** One step of the first pass: pixel p converted in place. */
  method FromBgrPixel(buf: array<real>, p: nat, space: ColorSpace, pow: Pow, ghost s: seq<real>)
    requires 3 * p + 3 <= buf.Length == |s| && buf[..] == MapPixels(s, p, FromBgrMap(space, pow))
    modifies buf
    ensures buf[..] == MapPixels(s, p + 1, FromBgrMap(space, pow))
  {
    ghost var cur, t := buf[..], TripleAt(buf, 3 * p);
    var _, _ := ConvertFromBgr(space, buf, 3 * p, true, pow);
    PassStep(s, p, FromBgrMap(space, pow), cur, t, buf[..]);
  }

  /** Second pass: each of the first n pixels replaced by the model's estimate. */
  method CalibratePass(buf: array<real>, n: nat, model: Regression.RegressionModel)
    requires 3 * n <= buf.Length && model.Trained()
    modifies buf
    ensures buf[..] == MapPixels(old(buf[..]), n,
      Regression.Calibration(model.order, model.intercept, model.beta1, model.beta2, model.beta3))
  {
    ghost var f := Regression.Calibration(model.order, model.intercept, model.beta1, model.beta2, model.beta3);
    for p := 0 to n
      invariant buf[..] == MapPixels(old(buf[..]), p, f)
    {
      CalibratePixel(buf, p, model, old(buf[..]), f);
    }
  }

  /** One step of the second pass: pixel p replaced by the model's estimate f. */
  method CalibratePixel(buf: array<real>, p: nat, model: Regression.RegressionModel, ghost s: seq<real>,
                        ghost f: Triple -> Triple)
    requires 3 * p + 3 <= buf.Length == |s| && model.Trained()
    requires f == Regression.Calibration(model.order, model.intercept, model.beta1, model.beta2, model.beta3)
    requires buf[..] == MapPixels(s, p, f)
    modifies buf
    ensures buf[..] == MapPixels(s, p + 1, f)
  {
    ghost var cur, t := buf[..], TripleAt(buf, 3 * p);
    assert f(t) == model.Apply(t);
    model.Calibrate(buf, 3 * p);
    PassStep(s, p, f, cur, t, buf[..]);
  }

  /** Third pass: each of the first n pixels converted in place back to BGR. */
  method ToBgrPass(buf: array<real>, n: nat, space: ColorSpace, pow: Pow)
    requires 3 * n <= buf.Length
    modifies buf
    ensures buf[..] == MapPixels(old(buf[..]), n, ToBgrMap(space, pow))
  {
    for p := 0 to n
      invariant buf[..] == MapPixels(old(buf[..]), p, ToBgrMap(space, pow))
    {
      ToBgrPixel(buf, p, space, pow, old(buf[..]));
    }
  }

  /** One step of the third pass: pixel p converted back in place. */
  method ToBgrPixel(buf: array<real>, p: nat, space: ColorSpace, pow: Pow, ghost s: seq<real>)
    requires 3 * p + 3 <= buf.Length == |s| && buf[..] == MapPixels(s, p, ToBgrMap(space, pow))
    modifies buf
    ensures buf[..] == MapPixels(s, p + 1, ToBgrMap(space, pow))
  {
    ghost var cur, t := buf[..], TripleAt(buf, 3 * p);
    ConvertToBgr(space, buf, 3 * p, pow);
    PassStep(s, p, ToBgrMap(space, pow), cur, t, buf[..]);
  }

  class ColorChecker {
    const sampler: Sampler
    var centers: seq<seq<Point>>

    /** The grid has one centre per patch and each centre's stencil lies in the chart. */
    ghost predicate Valid()
      reads this
    {
      sampler.Valid() && GridInside(sampler, centers)
    }

    /** Builds the grid row by row, refining each initial centre as the flags say. */
    constructor (image: Image, withReference: bool, withDeviation: bool, lab: Metric, rgb: Metric)
      requires image.Valid() && image.rows > 0 && image.cols > 0
      ensures sampler == SamplerFor(image) && Valid()
      ensures forall r, c :: 0 <= r < RowCount && 0 <= c < ColCount ==>
        centers[r][c] == CenterFor(image, r, c, withReference, withDeviation, lab, rgb)
    {
      sampler := SamplerFor(image);
      new;
      var rows: seq<seq<Point>> := [];
      var row := 0;
      while row < RowCount
        invariant 0 <= row <= RowCount && |rows| == row
        invariant forall r :: 0 <= r < row ==> |rows[r]| == ColCount
        invariant forall r, c :: 0 <= r < row && 0 <= c < ColCount ==>
          rows[r][c] == CenterFor(image, r, c, withReference, withDeviation, lab, rgb)
      {
        var points := RowCenters(image, row, withReference, withDeviation, lab, rgb);
        rows := rows + [points];
        row := row + 1;
      }
      centers := rows;
    }

    /** The inner loop of the constructor: the centres of one row, left to right. */
    method RowCenters(image: Image, row: nat, withReference: bool, withDeviation: bool, lab: Metric, rgb: Metric)
      returns (points: seq<Point>)
      requires image.Valid() && image.rows > 0 && image.cols > 0 && sampler == SamplerFor(image) && row < RowCount
      ensures |points| == ColCount
      ensures forall c :: 0 <= c < ColCount ==> points[c] == CenterFor(image, row, c, withReference, withDeviation, lab, rgb)
    {
      points := [];
      var col := 0;
      while col < ColCount
        invariant 0 <= col <= ColCount && |points| == col
        invariant forall c :: 0 <= c < col ==> points[c] == CenterFor(image, row, c, withReference, withDeviation, lab, rgb)
      {
        var point := PatchCenterFor(image, row, col, withReference, withDeviation, lab, rgb);
        points := points + [point];
        col := col + 1;
      }
    }

    /** One patch of the constructor: the initial centre, refined as the flags say. */
    method PatchCenterFor(image: Image, row: nat, col: nat, withReference: bool, withDeviation: bool, lab: Metric, rgb: Metric)
      returns (point: Point)
      requires image.Valid() && image.rows > 0 && image.cols > 0 && sampler == SamplerFor(image)
      requires row < RowCount && col < ColCount
      ensures point == CenterFor(image, row, col, withReference, withDeviation, lab, rgb)
    {
      point := InitialCenter(sampler, row, col);
      InitialCentersInside(image, row, col);
      if withReference {
        point := CorrectByReference(point, row, col, lab);
      }
      if withDeviation {
        point := CorrectByDeviation(point, rgb);
      }
    }

    /** `checkCorrectness`: every point, shifted, lies in the chart. */
    method CheckCorrectness(points: seq<Point>, dx: real, dy: real) returns (ok: bool)
      ensures ok == ShiftedInside(sampler, points, dx, dy)
    {
      var i := 0;
      while i < |points|
        invariant 0 <= i <= |points|
        invariant forall j :: 0 <= j < i ==> InImage(sampler, points[j], dx, dy)
      {
        var p := points[i];
        if p.x + dx < 0.0 || p.x + dx >= sampler.image.cols as real ||
           p.y + dy < 0.0 || p.y + dy >= sampler.image.rows as real {
          return false;
        }
        i := i + 1;
      }
      return true;
    }

    /** `getMeanColor`: sums the sub-patch channel by channel, then divides by 9. */
    method GetMeanColor(x: int, y: int) returns (m: Triple)
      requires sampler.Valid()
      ensures m == MeanColor(sampler, x, y)
    {
      ghost var cs := SubPatch(sampler, x, y);
      ghost var v0, v1, v2 := Channels(cs, 0), Channels(cs, 1), Channels(cs, 2);
      var r0, r1, r2 := 0.0, 0.0, 0.0;
      ghost var k := 0;
      var row := -1;
      while row < 2
        invariant -1 <= row <= 2 && k == 3 * (row + 1)
        invariant r0 == Sum(v0[..k]) && r1 == Sum(v1[..k]) && r2 == Sum(v2[..k])
      {
        var col := -1;
        while col < 2
          invariant -1 <= col <= 2 && k == 3 * (row + 1) + (col + 1)
          invariant r0 == Sum(v0[..k]) && r1 == Sum(v1[..k]) && r2 == Sum(v2[..k])
        {
          var color := SubPatchColor(x, y, row, col);
          ChannelSumsStep(cs, k, color);
          r0, r1, r2 := r0 + color.c0, r1 + color.c1, r2 + color.c2;
          col, k := col + 1, k + 1;
        }
        row := row + 1;
      }
      assert v0[..9] == v0 && v1[..9] == v1 && v2[..9] == v2;
      m := Triple(r0 / 9.0, r1 / 9.0, r2 / 9.0);
    }

    /** The sums accumulated by `getValueVariance`: the sub-patch's values and
        their squares, visited row by row. */
    method SubPatchMoments(x: int, y: int) returns (firstMoment: real, secondMoment: real)
      requires sampler.Valid()
      ensures firstMoment == Sum(Values(SubPatch(sampler, x, y)))
      ensures secondMoment == SumSq(Values(SubPatch(sampler, x, y)))
    {
      ghost var v := Values(SubPatch(sampler, x, y));
      firstMoment, secondMoment := 0.0, 0.0;
      ghost var k := 0;
      var row := -1;
      while row < 2
        invariant -1 <= row <= 2 && k == 3 * (row + 1)
        invariant firstMoment == Sum(v[..k]) && secondMoment == SumSq(v[..k])
      {
        var col := -1;
        while col < 2
          invariant -1 <= col <= 2 && k == 3 * (row + 1) + (col + 1)
          invariant firstMoment == Sum(v[..k]) && secondMoment == SumSq(v[..k])
        {
          var value := SubPatchValue(x, y, row, col);
          MomentStep(v, k, value);
          firstMoment, secondMoment := firstMoment + value, secondMoment + value * value;
          col, k := col + 1, k + 1;
        }
        row := row + 1;
      }
      assert v[..9] == v;
    }

    /** One visit of `getMeanColor`: the colour at offset row along x and col along y. */
    method SubPatchColor(x: int, y: int, row: int, col: int) returns (color: Triple)
      requires sampler.Valid() && -1 <= row <= 1 && -1 <= col <= 1
      ensures color == SubPatch(sampler, x, y)[3 * (row + 1) + (col + 1)]
    {
      color := GetColor(sampler, x + row * sampler.xPatch, y + col * sampler.yPatch);
      SubPatchAt(sampler, x, y, row, col);
    }

    /** One visit of `getValueVariance`: the value, the largest channel, of the
        colour at offset row along x and col along y. */
    method SubPatchValue(x: int, y: int, row: int, col: int) returns (value: real)
      requires sampler.Valid() && -1 <= row <= 1 && -1 <= col <= 1
      ensures value == Values(SubPatch(sampler, x, y))[3 * (row + 1) + (col + 1)]
    {
      var color := GetColor(sampler, x + row * sampler.xPatch, y + col * sampler.yPatch);
      value := MaxR(color.c0, MaxR(color.c1, color.c2));
      ValueAt(sampler, x, y, row, col);
    }

    /** `getValueVariance`: the two moments, each over 9, then the second
        minus the square of the first. */
    method GetValueVariance(x: int, y: int) returns (variance: real)
      requires sampler.Valid()
      ensures variance == ValueVariance(sampler, x, y)
    {
      var firstMoment, secondMoment := SubPatchMoments(x, y);
      firstMoment := firstMoment / 9.0;
      secondMoment := secondMoment / 9.0;
      variance := secondMoment - firstMoment * firstMoment;
    }

    /** One probe of the scan: the Lab distance of the sub-patch at the stretched
        offset, when that sub-patch is flat enough. */
    method Probe(c: Point, point: Point, reference: Triple, lab: Metric) returns (d: Option<real>)
      requires sampler.Valid()
      ensures d == ProbeDistance(sampler, c, point, reference, lab)
    {
      var x := Trunc(c.x + (point.x - c.x) * 1.5);
      var y := Trunc(c.y + (point.y - c.y) * 1.5);
      var variance := GetValueVariance(x, y);
      if variance < VarianceThreshold {
        var color := GetMeanColor(x, y);
        return Some(lab(color, reference));
      }
      return None;
    }

    /** The probe scan of `correctByReference`: the first probe of least
        distance whose sub-patch is flat enough, or -1 and 1e9. */
    method NearestProbe(c: Point, reference: Triple, lab: Metric) returns (nearestPoint: int, nearestDistance: real)
      requires sampler.Valid()
      ensures (nearestPoint, nearestDistance) == Nearest(ProbeDistances(sampler, c, reference, lab))
    {
      var points := Surrounding(sampler, c);
      ghost var ds := ProbeDistances(sampler, c, reference, lab);
      nearestPoint, nearestDistance := -1, Infinity;
      var i := 0;
      while i < |points|
        invariant 0 <= i <= |points|
        invariant (nearestPoint, nearestDistance) == Nearest(ds[..i])
      {
        var probe := Probe(c, points[i], reference, lab);
        if probe.Some? && probe.value < nearestDistance {
          nearestPoint, nearestDistance := i, probe.value;
        }
        assert ds[..i + 1][..i] == ds[..i];
        i := i + 1;
      }
      assert ds[..i] == ds;
    }

    /** One round of `correctByReference`: scan the nine probes for the
        nearest, give up if there is none or its opposite is nearly as near,
        otherwise step towards it on each axis the stencil can move along. */
    method ReferenceStep(c: Point, row: nat, col: nat, xStep: real, yStep: real, lab: Metric) returns (r: Round)
      requires sampler.Valid() && row < RowCount && col < ColCount && xStep >= 0.0 && yStep >= 0.0
      ensures r == ReferenceRound(sampler, c, row, col, xStep, yStep, lab)
    {
      var reference := ReferenceColor(row, col);
      var points := Surrounding(sampler, c);
      var nearestPoint, nearestDistance := NearestProbe(c, reference, lab);
      if nearestPoint == -1 {
        return Stop;
      }
      var point := points[8 - nearestPoint];
      var x := Trunc(c.x + (point.x - c.x));
      var y := Trunc(c.y + (point.y - c.y));
      var color := GetMeanColor(x, y);
      var oppositeDistance := lab(color, reference);
      if oppositeDistance < nearestDistance * OppositeThreshold(row, col) {
        return Stop;
      }
      r := MoveTowards(c, points, nearestPoint, xStep, yStep);
    }

    /** The move of a `correctByReference` round towards stencil point n: on
        each axis the point's side asks for, one step when the stencil shifted
        along that axis stays inside, and the step shrinks by 1.2 either way. */
    method MoveTowards(c: Point, points: seq<Point>, nearestPoint: int, xStep: real, yStep: real) returns (r: Round)
      requires points == Surrounding(sampler, c) && 0 <= nearestPoint < 9 && xStep >= 0.0 && yStep >= 0.0
      ensures var (xDir, yDir) := Directions(nearestPoint);
        r == Advance(c, xDir, ShiftedInside(sampler, points, Signed(xDir, xStep), 0.0),
                     yDir, ShiftedInside(sampler, points, 0.0, Signed(yDir, yStep)), xStep, yStep, 1.2)
    {
      var cx, cy, xs, ys := c.x, c.y, xStep, yStep;
      if nearestPoint in RightIndexes {
        var ok := CheckCorrectness(points, xStep, 0.0);
        if ok {
          cx := cx + xStep;
        }
        xs := xs / 1.2;
      } else if nearestPoint in LeftIndexes {
        var ok := CheckCorrectness(points, -xStep, 0.0);
        if ok {
          cx := cx - xStep;
        }
        xs := xs / 1.2;
      }
      if nearestPoint in BottomIndexes {
        var ok := CheckCorrectness(points, 0.0, yStep);
        if ok {
          cy := cy + yStep;
        }
        ys := ys / 1.2;
      } else if nearestPoint in TopIndexes {
        var ok := CheckCorrectness(points, 0.0, -yStep);
        if ok {
          cy := cy - yStep;
        }
        ys := ys / 1.2;
      }
      r := Continue(Point(cx, cy), xs, ys);
    }

    /** `correctByReference`: at most three rounds from the stencil spacings. */
    method CorrectByReference(center: Point, row: nat, col: nat, lab: Metric) returns (p: Point)
      requires sampler.Valid() && row < RowCount && col < ColCount
      ensures p == ReferenceSearch(sampler, center, row, col, RefIterations,
                                   sampler.xScale as real, sampler.yScale as real, lab)
    {
      ghost var goal := ReferenceSearch(sampler, center, row, col, RefIterations,
                                        sampler.xScale as real, sampler.yScale as real, lab);
      var c := center;
      var xStep, yStep := sampler.xScale as real, sampler.yScale as real;
      var iteration := 0;
      while iteration < RefIterations
        invariant 0 <= iteration <= RefIterations && xStep >= 0.0 && yStep >= 0.0
        invariant ReferenceSearch(sampler, c, row, col, RefIterations - iteration, xStep, yStep, lab) == goal
      {
        var r := ReferenceStep(c, row, col, xStep, yStep, lab);
        if r.Stop? {
          return c;
        }
        ReferenceRoundFacts(sampler, c, row, col, xStep, yStep, lab);
        c, xStep, yStep := r.center, r.xStep, r.yStep;
        iteration := iteration + 1;
      }
      return c;
    }

    /** One half of a `correctByDeviation` round (the horizontal one on the
        left and right columns, the vertical one on the top and bottom rows):
        when one side's sum dominates the other's by 1.5, steps towards it if
        the shifted stencil stays inside and the two shifted sums drop; the
        step shrinks by 1.5 whenever a side dominated. */
    method BalanceAxis(c: Point, points: seq<Point>, step: real, horizontal: bool, rgb: Metric)
      returns (pos: real, newStep: real)
      requires sampler.Valid() && AllInside(sampler, c) && points == Surrounding(sampler, c) && step >= 0.0
      ensures var (dir, improves) := DeviationAxis(sampler, c, step, horizontal, rgb);
        (pos, newStep) == StepAxis(if horizontal then c.x else c.y, step, dir, improves, 1.5)
    {
      var a, b := SideSumsAt(c, points, horizontal, rgb);
      pos, newStep := if horizontal then c.x else c.y, step;
      var moves := false;
      var dx, dy := 0.0, 0.0;
      if a >= b * 1.5 {
        dx, dy := if horizontal then step else 0.0, if horizontal then 0.0 else step;
        moves := TryShift(c, points, dx, dy, horizontal, a + b, rgb);
        if moves {
          pos := pos + step;
        }
        newStep := newStep / 1.5;
      } else if b >= a * 1.5 {
        dx, dy := if horizontal then -step else 0.0, if horizontal then 0.0 else -step;
        moves := TryShift(c, points, dx, dy, horizontal, a + b, rgb);
        if moves {
          pos := pos - step;
        }
        newStep := newStep / 1.5;
      }
      BalanceOutcome(sampler, c, step, horizontal, rgb, a, b, dx, dy, moves, pos, newStep);
    }

    /** The two opposite side sums of the unshifted stencil, as `deviationSum` reads them. */
    method SideSumsAt(c: Point, points: seq<Point>, horizontal: bool, rgb: Metric) returns (a: real, b: real)
      requires sampler.Valid() && AllInside(sampler, c) && points == Surrounding(sampler, c)
      ensures (a, b) == SideSums(sampler, c, horizontal, rgb)
    {
      SidesInside(sampler, c, 0.0, 0.0);
      if horizontal {
        a := DeviationSum(sampler, points, c, LeftIndexes, 0.0, 0.0, rgb);
        b := DeviationSum(sampler, points, c, RightIndexes, 0.0, 0.0, rgb);
      } else {
        a := DeviationSum(sampler, points, c, TopIndexes, 0.0, 0.0, rgb);
        b := DeviationSum(sampler, points, c, BottomIndexes, 0.0, 0.0, rgb);
      }
    }

    /** The trial move of either half: `checkCorrectness` on the shifted
        stencil, then the two opposite side sums at the shifted stencil
        compared with their sum before. */
    method TryShift(c: Point, points: seq<Point>, dx: real, dy: real, horizontal: bool, before: real, rgb: Metric)
      returns (moves: bool)
      requires sampler.Valid() && points == Surrounding(sampler, c)
      ensures moves == ShiftLowers(sampler, c, dx, dy, horizontal, before, rgb)
    {
      moves := false;
      var ok := CheckCorrectness(points, dx, dy);
      if ok {
        SidesInside(sampler, c, dx, dy);
        var a, b := if horizontal then LeftIndexes else TopIndexes, if horizontal then RightIndexes else BottomIndexes;
        var newA := DeviationSum(sampler, points, c, a, dx, dy, rgb);
        var newB := DeviationSum(sampler, points, c, b, dx, dy, rgb);
        moves := newA + newB < before;
      }
    }

    /** One round of `correctByDeviation`: both halves judge the same stencil,
        and the new centre takes both moves. */
    method DeviationStep(c: Point, xStep: real, yStep: real, rgb: Metric) returns (r: Round)
      requires sampler.Valid() && AllInside(sampler, c) && xStep >= 0.0 && yStep >= 0.0
      ensures r == DeviationRound(sampler, c, xStep, yStep, rgb)
    {
      var points := Surrounding(sampler, c);
      var cx, xs := BalanceAxis(c, points, xStep, true, rgb);
      var cy, ys := BalanceAxis(c, points, yStep, false, rgb);
      r := Continue(Point(cx, cy), xs, ys);
    }

    /** `correctByDeviation`: exactly ten rounds from the stencil spacings. */
    method CorrectByDeviation(center: Point, rgb: Metric) returns (p: Point)
      requires sampler.Valid() && AllInside(sampler, center)
      ensures p == DeviationSearch(sampler, center, DeviationIterations,
                                   sampler.xScale as real, sampler.yScale as real, rgb)
    {
      ghost var goal := DeviationSearch(sampler, center, DeviationIterations,
                                        sampler.xScale as real, sampler.yScale as real, rgb);
      var c := center;
      var xStep, yStep := sampler.xScale as real, sampler.yScale as real;
      var iteration := 0;
      while iteration < DeviationIterations
        invariant 0 <= iteration <= DeviationIterations && xStep >= 0.0 && yStep >= 0.0
        invariant AllInside(sampler, c)
        invariant DeviationSearch(sampler, c, DeviationIterations - iteration, xStep, yStep, rgb) == goal
      {
        var r := DeviationStep(c, xStep, yStep, rgb);
        DeviationRoundFacts(sampler, c, xStep, yStep, rgb);
        c, xStep, yStep := r.center, r.xStep, r.yStep;
        iteration := iteration + 1;
      }
      p := c;
    }
  

    // ----- Samples and training pairs -----

    /** `getSamplePoints`: the whole grid over the stencil's bounding box at a
        spacing of ten pixels, row by row, or the nine stencil points, read
        from an image of the chart's size. */
    method GetSamplePoints(img: Image, row: nat, col: nat, allPoints: bool) returns (points: seq<Triple>)
      requires Valid() && SameShape(sampler, img) && row < RowCount && col < ColCount
      ensures points == PatchSamples(sampler, img, centers[row][col], allPoints)
    {
      var c := centers[row][col];
      assert AllInside(sampler, c);
      if allPoints {
        var ps := Surrounding(sampler, c);
        assert InImage(sampler, ps[0], 0.0, 0.0) && InImage(sampler, ps[8], 0.0, 0.0);
        TruncMonotone(ps[0].x, ps[8].x);
        TruncMonotone(ps[0].y, ps[8].y);
        points := SampleGrid.GridSamples(img, Trunc(ps[0].x), Trunc(ps[8].x), Trunc(ps[0].y), Trunc(ps[8].y));
      } else {
        points := StencilReads(img, c);
      }
    }

    /** The stencil branch of `getSamplePoints`: the nine points in stencil order. */
    method StencilReads(img: Image, c: Point) returns (points: seq<Triple>)
      requires SameShape(sampler, img) && AllInside(sampler, c)
      ensures points == StencilSamples(sampler, img, c)
    {
      var ps := Surrounding(sampler, c);
      points := [];
      var i := 0;
      while i < 9
        invariant 0 <= i <= 9 && |points| == i
        invariant forall j :: 0 <= j < i ==> InImage(sampler, ps[j], 0.0, 0.0) && points[j] == ReadAt(img, ps[j])
      {
        assert InImage(sampler, ps[i], 0.0, 0.0);
        points := points + [ReadAt(img, ps[i])];
        i := i + 1;
      }
    }

    /** The inner loop of `getCellColors`: every sample paired with the patch's reference colour. */
    static method AddSamples(cellColors: ColorMetric.CellColors, samples: seq<Triple>, referenceColor: Triple)
      requires cellColors.Valid()
      modifies cellColors
      ensures cellColors.Valid()
      ensures cellColors.actual == old(cellColors.actual) + samples
      ensures cellColors.reference == old(cellColors.reference) + Repeat(referenceColor, |samples|)
    {
      var i := 0;
      while i < |samples|
        invariant 0 <= i <= |samples| && cellColors.Valid()
        invariant cellColors.actual == old(cellColors.actual) + samples[..i]
        invariant cellColors.reference == old(cellColors.reference) + Repeat(referenceColor, i)
      {
        assert samples[..i + 1] == samples[..i] + [samples[i]];
        cellColors.AddColor(samples[i], referenceColor);
        i := i + 1;
      }
      assert samples[..i] == samples;
    }

    /** `getCellColors`: the samples of every patch, row by row, each paired
        with that patch's reference colour. */
    method GetCellColors(img: Image, allPoints: bool) returns (cellColors: ColorMetric.CellColors)
      requires Valid() && SameShape(sampler, img)
      ensures fresh(cellColors) && cellColors.Valid()
      ensures cellColors.actual == Collected(sampler, img, centers, allPoints, PatchCount)
      ensures cellColors.reference == References(sampler, img, centers, allPoints, PatchCount)
    {
      cellColors := new ColorMetric.CellColors();
      var row := 0;
      while row < RowCount
        invariant 0 <= row <= RowCount && fresh(cellColors)
        invariant Gathered(cellColors, img, allPoints, 4 * row)
      {
        AddRow(cellColors, img, row, allPoints);
        row := row + 1;
      }
    }

    /** The colour lists hold the samples of patches 0 .. n - 1 of the image,
        each paired with its patch's reference colour. */
    ghost predicate Gathered(cellColors: ColorMetric.CellColors, img: Image, allPoints: bool, n: nat)
      reads this, cellColors
    {
      cellColors.Valid() &&
      (Valid() && SameShape(sampler, img) && n <= PatchCount ==>
        cellColors.actual == Collected(sampler, img, centers, allPoints, n) &&
        cellColors.reference == References(sampler, img, centers, allPoints, n))
    }

    /** The inner loop of `getCellColors`: the patches of one row, left to right. */
    method AddRow(cellColors: ColorMetric.CellColors, img: Image, row: nat, allPoints: bool)
      requires Valid() && SameShape(sampler, img) && row < RowCount
      requires Gathered(cellColors, img, allPoints, 4 * row)
      modifies cellColors
      ensures Gathered(cellColors, img, allPoints, 4 * row + 4)
    {
      var col := 0;
      while col < ColCount
        invariant 0 <= col <= ColCount && Gathered(cellColors, img, allPoints, 4 * row + col)
      {
        AddPatch(cellColors, img, row, col, allPoints);
        col := col + 1;
      }
    }

    /** The body of `getCellColors`'s loops: the samples of patch (row, col),
        each paired with that patch's reference colour. */
    method AddPatch(cellColors: ColorMetric.CellColors, img: Image, row: nat, col: nat, allPoints: bool)
      requires Valid() && SameShape(sampler, img) && row < RowCount && col < ColCount
      requires Gathered(cellColors, img, allPoints, 4 * row + col)
      modifies cellColors
      ensures Gathered(cellColors, img, allPoints, 4 * row + col + 1)
    {
      var actualColors := GetSamplePoints(img, row, col, allPoints);
      var referenceColor := ReferenceColor(row, col);
      CollectedStep(sampler, img, centers, allPoints, row, col);
      AddSamples(cellColors, actualColors, referenceColor);
    }

    /** `calculateTrainAndAnswers`: for every stencil read of the chart raster,
        the read converted into the features space and the patch's reference
        colour converted into the target space. */
    method CalculateTrainAndAnswers(fs: ColorSpace, ts: ColorSpace, pow: Pow) returns (train: seq<Triple>, answers: seq<Triple>)
      requires Valid()
      ensures train == TrainColors(sampler, centers, fs, pow)
      ensures answers == AnswerColors(sampler, centers, ts, pow)
    {
      ghost var img := sampler.image;
      ghost var p := 0;
      train, answers := [], [];
      var row := 0;
      while row < RowCount
        invariant 0 <= row <= RowCount && p == 4 * row
        invariant train == Converted(Collected(sampler, img, centers, false, p), fs, pow)
        invariant answers == Converted(References(sampler, img, centers, false, p), ts, pow)
      {
        var col := 0;
        while col < ColCount
          invariant 0 <= col <= ColCount && p == 4 * row + col
          invariant train == Converted(Collected(sampler, img, centers, false, p), fs, pow)
          invariant answers == Converted(References(sampler, img, centers, false, p), ts, pow)
        {
          var t, a := ConvertPatch(row, col, fs, ts, pow);
          train, answers := train + t, answers + a;
          col, p := col + 1, p + 1;
        }
        row := row + 1;
      }
    }

    /** The body of `calculateTrainAndAnswers`'s loops: what patch (row, col)
        adds to the converted samples and to the converted references. */
    method ConvertPatch(row: nat, col: nat, fs: ColorSpace, ts: ColorSpace, pow: Pow)
      returns (t: seq<Triple>, a: seq<Triple>)
      requires Valid() && row < RowCount && col < ColCount
      ensures 4 * row + col < PatchCount
      ensures Converted(Collected(sampler, sampler.image, centers, false, 4 * row + col + 1), fs, pow) ==
        Converted(Collected(sampler, sampler.image, centers, false, 4 * row + col), fs, pow) + t
      ensures Converted(References(sampler, sampler.image, centers, false, 4 * row + col + 1), ts, pow) ==
        Converted(References(sampler, sampler.image, centers, false, 4 * row + col), ts, pow) + a
    {
      ghost var img := sampler.image;
      var samplePoints := GetSamplePoints(sampler.image, row, col, false);
      CollectedStep(sampler, img, centers, false, row, col);
      t, a := ConvertSamples(samplePoints, ReferenceColor(row, col), fs, ts, pow);
      ConvertedAppend(Collected(sampler, img, centers, false, 4 * row + col), samplePoints, fs, pow);
      ConvertedAppend(References(sampler, img, centers, false, 4 * row + col),
                      Repeat(ReferenceColor(row, col), |samplePoints|), ts, pow);
    }

    /** The inner loop of `calculateTrainAndAnswers`: each sample and a copy of
        the reference colour, converted out of place. */
    static method ConvertSamples(samples: seq<Triple>, referenceColor: Triple, fs: ColorSpace, ts: ColorSpace, pow: Pow)
      returns (train: seq<Triple>, answers: seq<Triple>)
      ensures train == Converted(samples, fs, pow)
      ensures answers == Converted(Repeat(referenceColor, |samples|), ts, pow)
    {
      train, answers := [], [];
      var i := 0;
      while i < |samples|
        invariant 0 <= i <= |samples| && |train| == |answers| == i
        invariant forall j :: 0 <= j < i ==> train[j] == FromBgr(fs, samples[j], pow)
        invariant forall j :: 0 <= j < i ==> answers[j] == FromBgr(ts, referenceColor, pow)
      {
        train := train + [FromBgr(fs, samples[i], pow)];
        answers := answers + [FromBgr(ts, referenceColor, pow)];
        i := i + 1;
      }
    }

    /** `labDeviationFromReference`: the mean Lab distance of the stencil reads
        of the chart raster from their reference colours. */
    method LabDeviationFromReference(lab: Metric) returns (d: real)
      requires Valid()
      ensures var observed, reference := Collected(sampler, sampler.image, centers, false, PatchCount),
                                         References(sampler, sampler.image, centers, false, PatchCount);
        |observed| == |reference| == 216 && d == ColorMetric.Mean(ColorMetric.PairMetrics(observed, reference, lab))
    {
      var cellColors := GetCellColors(sampler.image, false);
      StencilCollected(sampler, sampler.image, centers, PatchCount);
      d := cellColors.CalculateMetric(lab);
    }

    /** `getTransformationDeviation`: the model's transformation deviance on
        the training pairs with both sides in the features space; a singular
        fit is an error. */
    method TransformationDeviation(model: Regression.RegressionModel, fs: ColorSpace, pow: Pow,
                                   fit: Regression.Fit, det: Regression.Determinant)
      returns (r: Result<real, Regression.Failure>)
      requires Valid() && model.order != Regression.Identity
      ensures var train, answers := TrainColors(sampler, centers, fs, pow), AnswerColors(sampler, centers, fs, pow);
        |train| == |answers| == 216 &&
        (r.Ok? <==> model.AllDevianceRowsOk(train, answers, fit)) &&
        (r.Ok? ==> r.value == 1.0 - det(model.DevianceMatrix(train, answers, fit)))
    {
      var train, answers := CalculateTrainAndAnswers(fs, fs, pow);
      TrainingPairs(sampler, centers, fs, fs, pow, 0);
      r := model.TransformationDeviance(train, answers, fit, det);
    }

    // ----- Calibration of a whole image -----

    /** `calibrate` over the first n pixels of a flat BGR buffer: convert them
        into the features space, train the model on the chart's pairs, then
        calibrate them and convert them back. A failed training is an error
        (the source throws); otherwise each of those pixels is the model's
        estimate between the two conversions and every later slot is kept. */
    method CalibrateBuffer(src: seq<real>, n: nat, model: Regression.RegressionModel,
                           fs: ColorSpace, ts: ColorSpace, pow: Pow, fit: Regression.Fit)
      returns (r: Option<seq<real>>)
      requires Valid() && 3 * n <= |src| && Regression.SizedFit(fit)
      modifies model
      ensures var train, answers := TrainColors(sampler, centers, fs, pow), AnswerColors(sampler, centers, ts, pow);
        |answers| == |train| == 216 &&
        (model.beta1, model.beta2, model.beta3) ==
          Regression.TrainedBetas(model.order, model.intercept, train, answers, fit,
                                  old(model.beta1), old(model.beta2), old(model.beta3)) &&
        (r.Some? <==> Regression.Trainable(model.order, model.intercept, train, answers, fit))
      ensures r.Some? ==> (model.Trained() && |r.value| == |src| &&
        (forall p :: 0 <= p < n ==>
          PixelAt(r.value, p) == ToBgr(ts, model.Apply(FromBgr(fs, PixelAt(src, p), pow)), pow)) &&
        (forall i :: 3 * n <= i < |src| ==> r.value[i] == src[i]))
    {
      var temp := new real[|src|](i requires 0 <= i < |src| => src[i]);
      assert temp[..] == src;
      FromBgrPass(temp, n, fs, pow);
      var ok := TrainOnChart(model, fs, ts, pow, fit);
      if !ok {
        return None;
      }
      ghost var f := Regression.Calibration(model.order, model.intercept, model.beta1, model.beta2, model.beta3);
      CalibratePass(temp, n, model);
      ToBgrPass(temp, n, ts, pow);
      r := Some(temp[..]);
      ThreePasses(src, n, FromBgrMap(fs, pow), f, ToBgrMap(ts, pow));
    }

    /** The training step of `calibrate`: the model is trained on the chart's
        pairs, and a failed fit is reported instead of thrown. */
    method TrainOnChart(model: Regression.RegressionModel, fs: ColorSpace, ts: ColorSpace, pow: Pow, fit: Regression.Fit)
      returns (ok: bool)
      requires Valid() && Regression.SizedFit(fit)
      modifies model
      ensures var train, answers := TrainColors(sampler, centers, fs, pow), AnswerColors(sampler, centers, ts, pow);
        |answers| == |train| == 216 &&
        (model.beta1, model.beta2, model.beta3) ==
          Regression.TrainedBetas(model.order, model.intercept, train, answers, fit,
                                  old(model.beta1), old(model.beta2), old(model.beta3)) &&
        (ok <==> Regression.Trainable(model.order, model.intercept, train, answers, fit))
      ensures ok ==> model.Trained()
    {
      var train, answers := CalculateTrainAndAnswers(fs, ts, pow);
      TrainingPairs(sampler, centers, fs, ts, pow, 0);
      ghost var b1, b2, b3 := model.beta1, model.beta2, model.beta3;
      ok := model.Train(train, answers, fit);
      if ok {
        Regression.TrainingReady(model.order, model.intercept, train, answers, fit, b1, b2, b3);
      }
    }

    /** `calibrate` as written: each pass runs `for (i = 0; i + 3 < size; i += 3)`,
        which reaches the pixels p with 3p + 3 < size. */
    method Calibrate(src: seq<real>, model: Regression.RegressionModel,
                     fs: ColorSpace, ts: ColorSpace, pow: Pow, fit: Regression.Fit)
      returns (r: Option<seq<real>>)
      requires Valid() && Regression.SizedFit(fit)
      modifies model
      ensures var train, answers := TrainColors(sampler, centers, fs, pow), AnswerColors(sampler, centers, ts, pow);
        |answers| == |train| == 216 &&
        (r.Some? <==> Regression.Trainable(model.order, model.intercept, train, answers, fit))
      ensures r.Some? ==> (model.Trained() && |r.value| == |src| &&
        (forall p: nat :: 3 * p + 3 < |src| ==>
          PixelAt(r.value, p) == ToBgr(ts, model.Apply(FromBgr(fs, PixelAt(src, p), pow)), pow)) &&
        (forall i :: 3 * AsWrittenPixelCount(|src|) <= i < |src| ==> r.value[i] == src[i]))
    {
      r := CalibrateBuffer(src, AsWrittenPixelCount(|src|), model, fs, ts, pow, fit);
    }

    /** `calibrate` with the loop bound the passes evidently intend,
        `i + 3 <= size`: on a buffer of whole pixels every pixel is calibrated. */
    method CalibrateAllPixels(src: seq<real>, model: Regression.RegressionModel,
                              fs: ColorSpace, ts: ColorSpace, pow: Pow, fit: Regression.Fit)
      returns (r: Option<seq<real>>)
      requires Valid() && Regression.SizedFit(fit) && |src| % 3 == 0
      modifies model
      ensures var train, answers := TrainColors(sampler, centers, fs, pow), AnswerColors(sampler, centers, ts, pow);
        |answers| == |train| == 216 &&
        (r.Some? <==> Regression.Trainable(model.order, model.intercept, train, answers, fit))
      ensures r.Some? ==> (model.Trained() && |r.value| == |src| &&
        forall p :: 0 <= p < |src| / 3 ==>
          PixelAt(r.value, p) == ToBgr(ts, model.Apply(FromBgr(fs, PixelAt(src, p), pow)), pow))
    {
      r := CalibrateBuffer(src, PixelCount(|src|), model, fs, ts, pow, fit);
    }
  }
}
