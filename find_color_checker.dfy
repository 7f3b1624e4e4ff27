/** The chart locator's decision logic around its foreign calls: the ratio
    test on nearest-neighbour matches, the guards under which there is no
    homography, the chart corners projected with a margin, the full-image
    fallback, the crop and shift of the two-pass search, and the choice of
    the best margin. Keypoint detection, descriptor matching, the RANSAC fit
    and the perspective transform are parameters. */
module ChartLocator {
  import opened Wrappers
  import opened Numeric
  import opened Pixels
  import opened Geometry

  /** One descriptor match: reference keypoint, image keypoint and distance. */
  datatype Match = Match(queryIdx: nat, trainIdx: nat, distance: real)

  /** The two nearest neighbours `knnMatch` finds for one reference descriptor. */
  datatype MatchPair = MatchPair(best: Match, second: Match)

  /** The matrix `findHomography` returns; one with no rows or no columns is a failed fit. */
  datatype Homography = Homography(rows: nat, cols: nat, entries: seq<real>)

  /** What the locator is built from: the reference chart image's size, the
      matching model's ratio threshold, and the foreign steps (the number of
      keypoints detected in an image, the two-nearest matches of the
      reference descriptors in it, the fit of a homography to the kept
      matches, and the projection of a point through a homography). */
  datatype Locator = Locator(
    refRows: nat, refCols: nat, threshold: real,
    keypointCount: Image -> nat,
    knnMatch: Image -> seq<MatchPair>,
    fit: (Image, seq<Match>) -> Homography,
    project: (Homography, Point) -> Point)

  // ----- Ratio test -----

  /** The ratio test: the best match is kept when it is no farther than
      `threshold` times the second best. */
  predicate PassesRatioTest(m: MatchPair, threshold: real)
  {
    m.best.distance <= m.second.distance * threshold
  }

  /** The best matches of the pairs that pass the ratio test, in the pairs' order. */
  function GoodMatches(pairs: seq<MatchPair>, threshold: real): (good: seq<Match>)
    ensures |good| <= |pairs|
  {
    if |pairs| == 0 then []
    else
      var prev := GoodMatches(pairs[..|pairs| - 1], threshold);
      var last := pairs[|pairs| - 1];
      if PassesRatioTest(last, threshold) then prev + [last.best] else prev
  }

  /** The positions of the pairs that pass, in increasing order. */
  function KeptPositions(pairs: seq<MatchPair>, threshold: real): (idx: seq<nat>)
  {
    if |pairs| == 0 then []
    else
      var prev := KeptPositions(pairs[..|pairs| - 1], threshold);
      if PassesRatioTest(pairs[|pairs| - 1], threshold) then prev + [|pairs| - 1] else prev
  }

  /** The kept matches are exactly the best matches of the passing pairs, in
      the pairs' order: good[k] is the best match of pair idx[k], the
      positions idx strictly increase, and a pair's position is among them
      exactly when the pair passes. */
  lemma {:induction false} GoodMatchesAreTheFilter(pairs: seq<MatchPair>, threshold: real)
    ensures var good, idx := GoodMatches(pairs, threshold), KeptPositions(pairs, threshold);
      |idx| == |good| &&
      (forall k :: 0 <= k < |idx| ==> idx[k] < |pairs| && good[k] == pairs[idx[k]].best) &&
      (forall k, l :: 0 <= k < l < |idx| ==> idx[k] < idx[l]) &&
      (forall i :: 0 <= i < |pairs| ==> (i in idx <==> PassesRatioTest(pairs[i], threshold)))
  {
    if |pairs| > 0 {
      var p := pairs[..|pairs| - 1];
      GoodMatchesAreTheFilter(p, threshold);
      assert forall i :: 0 <= i < |p| ==> pairs[i] == p[i];
    }
  }

  /** No match is kept exactly when no pair passes the ratio test. */
  lemma NoGoodMatches(pairs: seq<MatchPair>, threshold: real)
    ensures |GoodMatches(pairs, threshold)| == 0 <==>
      forall i :: 0 <= i < |pairs| ==> !PassesRatioTest(pairs[i], threshold)
  {
    GoodMatchesAreTheFilter(pairs, threshold);
    var idx := KeptPositions(pairs, threshold);
    if |idx| > 0 {
      assert idx[0] in idx;
    }
  }

  /** Filtering distributes over concatenation: matches found later are
      appended after those found earlier. */
  lemma {:induction false} GoodMatchesAppend(a: seq<MatchPair>, b: seq<MatchPair>, threshold: real)
    ensures GoodMatches(a + b, threshold) == GoodMatches(a, threshold) + GoodMatches(b, threshold)
  {
    if |b| == 0 {
      assert a + b == a;
    } else {
      assert (a + b)[..|a + b| - 1] == a + b[..|b| - 1];
      GoodMatchesAppend(a, b[..|b| - 1], threshold);
    }
  }

  /** `getGoodMatches`: one pass over the pairs, appending each kept best match. */
  method GetGoodMatches(pairs: seq<MatchPair>, threshold: real) returns (good: seq<Match>)
    ensures good == GoodMatches(pairs, threshold)
  {
    good := [];
    for i := 0 to |pairs|
      invariant good == GoodMatches(pairs[..i], threshold)
    {
      var m := pairs[i];
      if m.best.distance <= m.second.distance * threshold {
        good := good + [m.best];
      }
      assert pairs[..i + 1][..i] == pairs[..i];
    }
    assert pairs[..|pairs|] == pairs;
  }

  // ----- Homography and projected corners -----

  /** A fitted matrix that is not empty. */
  predicate NonEmpty(h: Homography)
  {
    h.cols > 0 && h.rows > 0
  }

  /** `getHomography`: none for an image under 100 rows or 50 columns, with
      fewer than two keypoints, with no match passing the ratio test, or
      when the fit comes back empty. */
  function GetHomography(loc: Locator, image: Image): (h: Option<Homography>)
    ensures h.Some? <==>
      image.rows >= 100 && image.cols >= 50 && loc.keypointCount(image) >= 2 &&
      (exists i :: 0 <= i < |loc.knnMatch(image)| && PassesRatioTest(loc.knnMatch(image)[i], loc.threshold)) &&
      NonEmpty(loc.fit(image, GoodMatches(loc.knnMatch(image), loc.threshold)))
    ensures h.Some? ==> h.value == loc.fit(image, GoodMatches(loc.knnMatch(image), loc.threshold))
  {
    NoGoodMatches(loc.knnMatch(image), loc.threshold);
    if image.rows < 100 || image.cols < 50 then None
    else if loc.keypointCount(image) < 2 then None
    else
      var good := GoodMatches(loc.knnMatch(image), loc.threshold);
      if |good| == 0 then None
      else
        var h := loc.fit(image, good);
        if NonEmpty(h) then Some(h) else None
  }

  /** The reference image's frame widened by `scale` of its width and height
      on every side: corners (-s w, -s h), ((1 + s) w, -s h), ((1 + s) w, (1 + s) h)
      and (-s w, (1 + s) h), as tl, tr, br, bl. */
  function ReferenceCorners(loc: Locator, scale: real): Quad
  {
    var w, h := loc.refCols as real, loc.refRows as real;
    FromDiagonal(Point(-scale * w, -scale * h), Point((1.0 + scale) * w, (1.0 + scale) * h))
  }

  /** The widened frame is (1 + 2 scale) times the reference size on each
      axis, and its area is the product of the two. */
  lemma ReferenceCornersSize(loc: Locator, scale: real)
    ensures var w, h, q := loc.refCols as real, loc.refRows as real, ReferenceCorners(loc, scale);
      q.br.x - q.tl.x == (1.0 + 2.0 * scale) * w && q.br.y - q.tl.y == (1.0 + 2.0 * scale) * h &&
      Area(q) == Abs((q.br.x - q.tl.x) * (q.br.y - q.tl.y))
  {
    var w, h := loc.refCols as real, loc.refRows as real;
    DiagonalRectangleArea(Point(-scale * w, -scale * h), Point((1.0 + scale) * w, (1.0 + scale) * h));
  }

  /** A wider margin contains a narrower one: every corner of the frame
      widened by s lies inside the frame widened by t >= s >= -1/2. */
  lemma MarginsNest(loc: Locator, s: real, t: real)
    requires -0.5 <= s <= t
    ensures forall c :: c in Points(ReferenceCorners(loc, s)) ==> IsInside(ReferenceCorners(loc, t), c)
  {
    var w, h := loc.refCols as real, loc.refRows as real;
    var lo, hi := ScaledOrder(s, t, w);
    var top, bottom := ScaledOrder(s, t, h);
    NestedRectangles(Point(lo.1, top.1), Point(hi.1, bottom.1), Point(lo.0, top.0), Point(hi.0, bottom.0));
  }

  /** An axis-aligned rectangle inside another has its corners inside it. */
  lemma NestedRectangles(tl: Point, br: Point, outerTl: Point, outerBr: Point)
    requires outerTl.x <= tl.x <= br.x <= outerBr.x && outerTl.y <= tl.y <= br.y <= outerBr.y
    ensures forall c :: c in Points(FromDiagonal(tl, br)) ==> IsInside(FromDiagonal(outerTl, outerBr), c)
  {
  }

  /** The low and high ends of a side of length w widened by t and by s,
      in nesting order. */
  lemma ScaledOrder(s: real, t: real, w: real) returns (lo: (real, real), hi: (real, real))
    requires -0.5 <= s <= t && w >= 0.0
    ensures lo == (-t * w, -s * w) && hi == ((1.0 + t) * w, (1.0 + s) * w)
    ensures lo.0 <= lo.1 <= hi.1 <= hi.0
  {
    lo, hi := (-t * w, -s * w), ((1.0 + t) * w, (1.0 + s) * w);
    assert (t - s) * w >= 0.0;
    assert (1.0 + 2.0 * s) * w >= 0.0;
  }

  /** `getQuad`: none without a homography, else the widened frame's corners
      projected through it, in the same order. */
  function GetQuad(loc: Locator, homography: Option<Homography>, scale: real): (q: Option<Quad>)
    ensures q.Some? <==> homography.Some?
    ensures q.Some? ==> var r := ReferenceCorners(loc, scale);
      Points(q.value) == [loc.project(homography.value, r.tl), loc.project(homography.value, r.tr),
                          loc.project(homography.value, r.br), loc.project(homography.value, r.bl)]
  {
    match homography
    case None => None
    case Some(h) =>
      var r := ReferenceCorners(loc, scale);
      Some(Quad(loc.project(h, r.tl), loc.project(h, r.tr), loc.project(h, r.br), loc.project(h, r.bl)))
  }

  /** Without a margin the projected corners are those of the reference image
      itself: (0, 0), (w, 0), (w, h) and (0, h). */
  lemma NoMarginProjectsTheFrame(loc: Locator, h: Homography)
    ensures var w, hh := loc.refCols as real, loc.refRows as real;
      GetQuad(loc, Some(h), 0.0) == Some(Quad(loc.project(h, Point(0.0, 0.0)), loc.project(h, Point(w, 0.0)),
                                             loc.project(h, Point(w, hh)), loc.project(h, Point(0.0, hh))))
  {
    var r := ReferenceCorners(loc, 0.0);
    var w, hh := loc.refCols as real, loc.refRows as real;
    assert r == Quad(Point(0.0, 0.0), Point(w, 0.0), Point(w, hh), Point(0.0, hh));
  }

  // ----- Full-image fallback and the one-pass search -----

  /** `fullImageQuad`: the corners of the image's pixel grid,
      (0, 0), (cols - 1, 0), (cols - 1, rows - 1), (0, rows - 1). */
  function FullImageQuad(image: Image): (q: Quad)
    ensures q == FromDiagonal(Point(0.0, 0.0), Point((image.cols - 1) as real, (image.rows - 1) as real))
  {
    Quad(Point(0.0, 0.0), Point((image.cols - 1) as real, 0.0),
         Point((image.cols - 1) as real, (image.rows - 1) as real), Point(0.0, (image.rows - 1) as real))
  }

  /** The full quad of a released, 0 x 0 `Mat`: (0, 0), (-1, 0), (-1, -1), (0, -1). */
  lemma ReleasedQuad(image: Image)
    requires image.rows == 0 && image.cols == 0
    ensures FullImageQuad(image) == Quad(Point(0.0, 0.0), Point(-1.0, 0.0), Point(-1.0, -1.0), Point(0.0, -1.0))
  {
  }

  /** Every pixel position of the image lies inside the full-image quad, and
      its area is (cols - 1) (rows - 1). */
  lemma FullImageQuadCoversPixels(image: Image, x: int, y: int)
    requires image.rows > 0 && image.cols > 0
    requires 0 <= x < image.cols && 0 <= y < image.rows
    ensures IsInside(FullImageQuad(image), Point(x as real, y as real))
    ensures Area(FullImageQuad(image)) == (image.cols - 1) as real * (image.rows - 1) as real
  {
    var d := Point((image.cols - 1) as real, (image.rows - 1) as real);
    DiagonalRectangleArea(Point(0.0, 0.0), d);
    assert (image.cols - 1) as real * (image.rows - 1) as real >= 0.0;
  }

  /** `findColorChecker(image)`: the projected chart without a margin, or the
      full-image quad when there is no homography. */
  function FindColorChecker(loc: Locator, image: Image): Quad
  {
    GetQuad(loc, GetHomography(loc, image), 0.0).GetOr(FullImageQuad(image))
  }

  /** The one-pass search falls back to the full image exactly when there is
      no homography (in particular for an image under 100 x 50), and
      otherwise projects the reference image's own corners. */
  lemma FindColorCheckerCases(loc: Locator, image: Image)
    ensures GetHomography(loc, image).None? ==> FindColorChecker(loc, image) == FullImageQuad(image)
    ensures image.rows < 100 || image.cols < 50 ==> FindColorChecker(loc, image) == FullImageQuad(image)
    ensures GetHomography(loc, image).Some? ==>
      var h, w, hh := GetHomography(loc, image).value, loc.refCols as real, loc.refRows as real;
      Points(FindColorChecker(loc, image)) ==
        [loc.project(h, Point(0.0, 0.0)), loc.project(h, Point(w, 0.0)), loc.project(h, Point(w, hh)), loc.project(h, Point(0.0, hh))]
  {
    if GetHomography(loc, image).Some? {
      NoMarginProjectsTheFrame(loc, GetHomography(loc, image).value);
    }
  }

  // ----- Crop and shift of the two-pass search -----

  /** `left`, `right`, `top`, `bottom`: the truncated extreme corner coordinates. */
  function Left(q: Quad): int { Trunc(MinX(q)) }
  function Right(q: Quad): int { Trunc(MaxX(q)) }
  function Top(q: Quad): int { Trunc(MinY(q)) }
  function Bottom(q: Quad): int { Trunc(MaxY(q)) }

  /** The truncated extremes are ordered, and each corner lies between the
      untruncated ones. */
  lemma ExtremesOrdered(q: Quad)
    ensures Left(q) <= Right(q) && Top(q) <= Bottom(q)
    ensures forall c :: c in Points(q) ==> MinX(q) <= c.x <= MaxX(q) && MinY(q) <= c.y <= MaxY(q)
  {
    TruncMonotone(MinX(q), MaxX(q));
    TruncMonotone(MinY(q), MaxY(q));
  }

  /** `clipRow` and `clipCol`. */
  function ClipRow(row: int, image: Image): int
    requires image.rows > 0
  {
    Clamp(row, image.rows)
  }

  function ClipCol(col: int, image: Image): int
    requires image.cols > 0
  {
    Clamp(col, image.cols)
  }

  /** Where the crop of `imageSplice` starts: the clipped left column and top row. */
  function CropOrigin(image: Image, q: Quad): Point
    requires image.rows > 0 && image.cols > 0
  {
    Point(ClipCol(Left(q), image) as real, ClipRow(Top(q), image) as real)
  }

  /** `imageSplice`: rows [clipRow(top), clipRow(bottom) + 1) and columns
      [clipCol(left), clipCol(right) + 1) of the image, a view whose pixel
      (y, x) is the image's pixel at the crop origin plus (x, y). The ranges
      are never empty. */
  function ImageSplice(image: Image, q: Quad): (r: Image)
    requires image.Valid() && image.rows > 0 && image.cols > 0
    ensures r.Valid() && r.rows >= 1 && r.cols >= 1
    ensures ClipRow(Top(q), image) + r.rows == ClipRow(Bottom(q), image) + 1
    ensures ClipCol(Left(q), image) + r.cols == ClipCol(Right(q), image) + 1
    ensures forall y, x :: 0 <= y < r.rows && 0 <= x < r.cols ==>
      r.At(y, x) == image.At(y + ClipRow(Top(q), image), x + ClipCol(Left(q), image))
  {
    ExtremesOrdered(q);
    ClampMonotone(Top(q), Bottom(q), image.rows);
    ClampMonotone(Left(q), Right(q), image.cols);
    Submatrix(image, ClipRow(Top(q), image), ClipRow(Bottom(q), image) + 1,
              ClipCol(Left(q), image), ClipCol(Right(q), image) + 1)
  }

  /** `shiftPoint` and `shiftQuad` as written: every corner moves by the
      truncated left and top of the shift quad, which are not clipped. */
  function ShiftPoint(p: Point, shift: Quad): Point
  {
    Point(p.x + Left(shift) as real, p.y + Top(shift) as real)
  }

  function ShiftQuad(quad: Quad, shift: Quad): (r: Quad)
    ensures Points(r) == [ShiftPoint(quad.tl, shift), ShiftPoint(quad.tr, shift),
                          ShiftPoint(quad.br, shift), ShiftPoint(quad.bl, shift)]
  {
    Quad(ShiftPoint(quad.tl, shift), ShiftPoint(quad.tr, shift), ShiftPoint(quad.br, shift), ShiftPoint(quad.bl, shift))
  }

  /** The shift that maps a quad found in the crop back to the image: every
      corner moves by the crop origin. */
  function ShiftQuadToCrop(quad: Quad, image: Image, shift: Quad): Quad
    requires image.rows > 0 && image.cols > 0
  {
    var o := CropOrigin(image, shift);
    Quad(Translate(quad.tl, o.x, o.y), Translate(quad.tr, o.x, o.y), Translate(quad.br, o.x, o.y), Translate(quad.bl, o.x, o.y))
  }

  /** A pixel position of the crop, moved by the crop origin, addresses the
      same pixel in the image. */
  lemma CropShiftAddressesSamePixel(image: Image, shift: Quad, x: int, y: int)
    requires image.Valid() && image.rows > 0 && image.cols > 0
    requires 0 <= y < ImageSplice(image, shift).rows && 0 <= x < ImageSplice(image, shift).cols
    ensures var p := Translate(Point(x as real, y as real), CropOrigin(image, shift).x, CropOrigin(image, shift).y);
      p.x == (x + ClipCol(Left(shift), image)) as real && p.y == (y + ClipRow(Top(shift), image)) as real &&
      ImageSplice(image, shift).At(y, x) == image.At(y + ClipRow(Top(shift), image), x + ClipCol(Left(shift), image))
  {
  }

  /** When the shift quad's left and top fall inside the image, the shift as
      written and the shift by the crop origin agree. */
  lemma ShiftsAgreeInside(quad: Quad, image: Image, shift: Quad)
    requires image.rows > 0 && image.cols > 0
    requires 0 <= Left(shift) < image.cols && 0 <= Top(shift) < image.rows
    ensures ShiftQuad(quad, shift) == ShiftQuadToCrop(quad, image, shift)
  {
  }

  /** A shift quad reaching 10 pixels past the image's top-left corner: the
      crop starts at (0, 0), so the crop's pixel (0, 0) is the image's pixel
      (0, 0), but the shift as written moves a corner found there to
      (-10, -10), outside the image; the shift by the crop origin keeps it at (0, 0). */
  lemma ShiftQuadIgnoresClipping(image: Image)
    requires image.Valid() && image.rows >= 100 && image.cols >= 100
    ensures var shift := Quad(Point(-10.0, -10.0), Point(50.0, -10.0), Point(50.0, 50.0), Point(-10.0, 50.0));
      var found := Quad(Point(0.0, 0.0), Point(10.0, 0.0), Point(10.0, 10.0), Point(0.0, 10.0));
      CropOrigin(image, shift) == Point(0.0, 0.0) &&
      ImageSplice(image, shift).At(0, 0) == image.At(0, 0) &&
      ShiftQuad(found, shift).tl == Point(-10.0, -10.0) &&
      ShiftQuadToCrop(found, image, shift).tl == Point(0.0, 0.0)
  {
    var shift := Quad(Point(-10.0, -10.0), Point(50.0, -10.0), Point(50.0, 50.0), Point(-10.0, 50.0));
    assert MinX(shift) == -10.0 && MinY(shift) == -10.0;
    assert Left(shift) == -10 && Top(shift) == -10;
    assert MaxX(shift) == 50.0 && MaxY(shift) == 50.0;
  }

  /** `findColorChecker(image, scale)` as written: a first pass with the margin;
      without it, the full image. Otherwise a second pass without a margin
      on the crop; with it, the second quad shifted as `shiftQuad` does.
      Without it the source takes `fullImageQuad` of the crop after
      `image.release()`, which leaves the `Mat` 0 x 0 (see `ReleasedQuad`);
      releasing is not modelled, so this branch gives the full quad of the
      crop in the crop's own coordinates instead. */
  function FindWithMarginAsWritten(loc: Locator, image: Image, scale: real): Quad
    requires image.Valid()
  {
    var quad1 := GetQuad(loc, GetHomography(loc, image), scale);
    if quad1.None? then FullImageQuad(image)
    else
      var cropped := ImageSplice(image, quad1.value);
      var quad2 := GetQuad(loc, GetHomography(loc, cropped), 0.0);
      if quad2.None? then FullImageQuad(cropped)
      else ShiftQuad(quad2.value, quad1.value)
  }

  /** The two-pass search with the second quad moved by the crop origin. */
  function FindWithMargin(loc: Locator, image: Image, scale: real): Quad
    requires image.Valid()
  {
    var quad1 := GetQuad(loc, GetHomography(loc, image), scale);
    if quad1.None? then FullImageQuad(image)
    else
      var cropped := ImageSplice(image, quad1.value);
      var quad2 := GetQuad(loc, GetHomography(loc, cropped), 0.0);
      if quad2.None? then FullImageQuad(cropped)
      else ShiftQuadToCrop(quad2.value, image, quad1.value)
  }

  /** The outcomes of the two-pass search: the full image when the first
      pass fails, the crop's full quad (not shifted back) when the second
      fails, and otherwise the second pass's projected frame moved by the
      crop origin, which agrees with the shift as written whenever the first
      quad's left and top lie inside the image. */
  lemma FindWithMarginCases(loc: Locator, image: Image, scale: real)
    requires image.Valid()
    ensures GetHomography(loc, image).None? ==> FindWithMargin(loc, image, scale) == FullImageQuad(image)
    ensures GetHomography(loc, image).Some? ==>
      image.rows >= 100 && image.cols >= 50 &&
      var quad1 := GetQuad(loc, GetHomography(loc, image), scale).value;
      var cropped := ImageSplice(image, quad1);
      (GetHomography(loc, cropped).None? ==> FindWithMargin(loc, image, scale) == FullImageQuad(cropped)) &&
      (GetHomography(loc, cropped).Some? ==>
        FindWithMargin(loc, image, scale) == ShiftQuadToCrop(FindColorChecker(loc, cropped), image, quad1)) &&
      (0 <= Left(quad1) < image.cols && 0 <= Top(quad1) < image.rows ==>
        FindWithMargin(loc, image, scale) == FindWithMarginAsWritten(loc, image, scale))
  {
    if GetHomography(loc, image).Some? {
      var quad1 := GetQuad(loc, GetHomography(loc, image), scale).value;
      var cropped := ImageSplice(image, quad1);
      var quad2 := GetQuad(loc, GetHomography(loc, cropped), 0.0);
      if quad2.Some? && 0 <= Left(quad1) < image.cols && 0 <= Top(quad1) < image.rows {
        ShiftsAgreeInside(quad2.value, image, quad1);
      }
    }
  }

  // ----- Best margin -----

  /** The margins tried after the one-pass search, in order. */
  const Margins: seq<real> := [0.05, 0.1, 0.2]

  /** The quads scored by `findBestFitColorChecker`, in order: the one-pass
      search, then the two-pass search as written with each margin. */
  function Candidates(loc: Locator, image: Image): (cs: seq<Quad>)
    requires image.Valid()
    ensures |cs| == |Margins| + 1 && cs[0] == FindColorChecker(loc, image)
    ensures forall k :: 0 <= k < |Margins| ==> cs[k + 1] == FindWithMarginAsWritten(loc, image, Margins[k])
  {
    [FindColorChecker(loc, image)] + seq(|Margins|, k requires 0 <= k < |Margins| => FindWithMarginAsWritten(loc, image, Margins[k]))
  }

  /** The same candidates with the two-pass search shifted by the crop origin. */
  function CandidatesCorrected(loc: Locator, image: Image): (cs: seq<Quad>)
    requires image.Valid()
    ensures |cs| == |Margins| + 1 && cs[0] == FindColorChecker(loc, image)
    ensures forall k :: 0 <= k < |Margins| ==> cs[k + 1] == FindWithMargin(loc, image, Margins[k])
  {
    [FindColorChecker(loc, image)] + seq(|Margins|, k requires 0 <= k < |Margins| => FindWithMargin(loc, image, Margins[k]))
  }

  /** Whether the first pass with margin `scale` finds a quad whose left and
      top lie inside the image, so that nothing is clipped off the crop origin. */
  predicate FirstQuadUnclipped(loc: Locator, image: Image, scale: real)
    requires image.Valid()
  {
    var quad1 := GetQuad(loc, GetHomography(loc, image), scale);
    quad1.Some? ==> 0 <= Left(quad1.value) < image.cols && 0 <= Top(quad1.value) < image.rows
  }

  /** The two candidate lists agree when no margin's first quad is clipped at
      the top or left, so then both best-fit searches return the same quad. */
  lemma CandidatesAgreeUnclipped(loc: Locator, image: Image)
    requires image.Valid()
    requires forall k :: 0 <= k < |Margins| ==> FirstQuadUnclipped(loc, image, Margins[k])
    ensures Candidates(loc, image) == CandidatesCorrected(loc, image)
  {
    var cs, ds := Candidates(loc, image), CandidatesCorrected(loc, image);
    forall i | 1 <= i < |cs|
      ensures cs[i] == ds[i]
    {
      assert FirstQuadUnclipped(loc, image, Margins[i - 1]);
      FindWithMarginCases(loc, image, Margins[i - 1]);
    }
  }

  /** The position of the first candidate of least score, found the way the
      source scans: a later candidate replaces the best only when it scores
      strictly less. */
  function BestIndex(cands: seq<Quad>, score: Quad -> real): (n: nat)
    requires |cands| > 0
    ensures n < |cands|
  {
    if |cands| == 1 then 0
    else
      var b := BestIndex(cands[..|cands| - 1], score);
      if score(cands[|cands| - 1]) < score(cands[b]) then |cands| - 1 else b
  }

  /** The chosen candidate scores no more than any other and strictly less
      than every earlier one: the earliest candidate wins a tie. */
  lemma {:induction false} BestIndexIsFirstMinimum(cands: seq<Quad>, score: Quad -> real)
    requires |cands| > 0
    ensures var n := BestIndex(cands, score);
      (forall j :: 0 <= j < |cands| ==> score(cands[n]) <= score(cands[j])) &&
      (forall j :: 0 <= j < n ==> score(cands[j]) > score(cands[n]))
  {
    if |cands| > 1 {
      var p := cands[..|cands| - 1];
      BestIndexIsFirstMinimum(p, score);
      assert forall j :: 0 <= j < |p| ==> cands[j] == p[j];
    }
  }

  /** One more candidate replaces the best so far only when it scores strictly less. */
  lemma BestIndexExtend(cands: seq<Quad>, n: nat, score: Quad -> real)
    requires 0 < n < |cands|
    ensures var b := BestIndex(cands[..n], score);
      BestIndex(cands[..n + 1], score) == if score(cands[n]) < score(cands[b]) then n else b
  {
    assert cands[..n + 1][..n] == cands[..n];
  }

  /** `findBestFitColorChecker`: scores the one-pass quad, then each margin's
      quad from the two-pass search as written, keeping a running best that
      changes only on a strictly smaller score. The score is the Lab deviation
      of the chart warped out of the image by the quad; the warp is foreign,
      so it is a parameter. */
  method FindBestFitColorChecker(loc: Locator, image: Image, score: Quad -> real) returns (bestQuad: Quad)
    requires image.Valid()
    ensures bestQuad == Candidates(loc, image)[BestIndex(Candidates(loc, image), score)]
  {
    ghost var cands := Candidates(loc, image);
    bestQuad := FindColorChecker(loc, image);
    var bestMetric := score(bestQuad);
    for k := 0 to |Margins|
      invariant bestQuad == cands[BestIndex(cands[..k + 1], score)] && bestMetric == score(bestQuad)
    {
      var quad := FindWithMarginAsWritten(loc, image, Margins[k]);
      var metric := score(quad);
      BestIndexExtend(cands, k + 1, score);
      if metric < bestMetric {
        bestMetric := metric;
        bestQuad := quad;
      }
    }
    assert cands[..|Margins| + 1] == cands;
  }

  /** The best-fit search over the corrected two-pass search. */
  method FindBestFitCorrected(loc: Locator, image: Image, score: Quad -> real) returns (bestQuad: Quad)
    requires image.Valid()
    ensures bestQuad == CandidatesCorrected(loc, image)[BestIndex(CandidatesCorrected(loc, image), score)]
  {
    ghost var cands := CandidatesCorrected(loc, image);
    bestQuad := FindColorChecker(loc, image);
    var bestMetric := score(bestQuad);
    for k := 0 to |Margins|
      invariant bestQuad == cands[BestIndex(cands[..k + 1], score)] && bestMetric == score(bestQuad)
    {
      var quad := FindWithMargin(loc, image, Margins[k]);
      var metric := score(quad);
      BestIndexExtend(cands, k + 1, score);
      if metric < bestMetric {
        bestMetric := metric;
        bestQuad := quad;
      }
    }
    assert cands[..|Margins| + 1] == cands;
  }
}
