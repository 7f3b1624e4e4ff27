/** The chart quadrilateral: four corners kept in the order they were given
    (top-left, top-right, bottom-right, bottom-left), with its area, a
    bounding-box membership test, side sizes and rescaling between rasters. */
module Geometry {
  import opened Numeric

  datatype Point = Point(x: real, y: real)

  function Translate(p: Point, dx: real, dy: real): Point {
    Point(p.x + dx, p.y + dy)
  }

  datatype Quad = Quad(tl: Point, tr: Point, br: Point, bl: Point)

  /** Two-point constructor: an axis-aligned rectangle from two opposite corners. */
  function FromDiagonal(tl: Point, br: Point): (q: Quad)
    ensures q.tl == tl && q.br == br
    ensures q.tr.x == br.x && q.tr.y == tl.y
    ensures q.bl.x == tl.x && q.bl.y == br.y
  {
    Quad(tl, Point(br.x, tl.y), br, Point(tl.x, br.y))
  }

  /** Array constructor: rows 0..3 are tl, tr, br, bl as (x, y); a shorter array
      makes the source throw, so at least four rows of two are required. */
  function FromRows(points: seq<seq<real>>): (q: Quad)
    requires |points| >= 4 && forall i :: 0 <= i < 4 ==> |points[i]| >= 2
    ensures Points(q) == seq(4, i requires 0 <= i < 4 => Point(points[i][0], points[i][1]))
  {
    Quad(Point(points[0][0], points[0][1]), Point(points[1][0], points[1][1]),
         Point(points[2][0], points[2][1]), Point(points[3][0], points[3][1]))
  }

  /** Eight-coordinate constructor. The parameters are named tl, tr, bl, br,
      and the source stores the "bl" pair into br and the "br" pair into bl. */
  function FromCoordinates(tlx: real, tly: real, trx: real, tryy: real,
                           blx: real, bly: real, brx: real, bry: real): (q: Quad)
    ensures Points(q) == [Point(tlx, tly), Point(trx, tryy), Point(blx, bly), Point(brx, bry)]
  {
    Quad(Point(tlx, tly), Point(trx, tryy), Point(blx, bly), Point(brx, bry))
  }

  /** The corners in tl, tr, br, bl order. */
  function Points(q: Quad): (ps: seq<Point>)
    ensures |ps| == 4
    ensures ps[0] == q.tl && ps[1] == q.tr && ps[2] == q.br && ps[3] == q.bl
  {
    [q.tl, q.tr, q.br, q.bl]
  }

  /** |(tr - tl) x (bl - tl)|: the area of the parallelogram spanned at tl. */
  function Area(q: Quad): real
  {
    Abs(Cross(q.tl, q.tr, q.bl))
  }

  /** (a - o) x (b - o). */
  function Cross(o: Point, a: Point, b: Point): real
  {
    (a.x - o.x) * (b.y - o.y) - (a.y - o.y) * (b.x - o.x)
  }

  lemma AreaNonNegativeAndIgnoresBr(q: Quad, p: Point)
    ensures Area(q) >= 0.0
    ensures Area(q.(br := p)) == Area(q)
  {
    var q2 := q.(br := p);
    assert q2.tl == q.tl && q2.tr == q.tr && q2.bl == q.bl;
  }

  /** For the two-point rectangle the area is |width * height|. */
  lemma DiagonalRectangleArea(tl: Point, br: Point)
    ensures Area(FromDiagonal(tl, br)) == Abs((br.x - tl.x) * (br.y - tl.y))
  {
    var q := FromDiagonal(tl, br);
    assert (q.tr.y - q.tl.y) * (q.bl.x - q.tl.x) == 0.0;
  }

  /** Relabelling the corners in reverse order (tl, bl, br, tr) keeps the area. */
  lemma AreaReverseOrder(q: Quad)
    ensures Area(Quad(q.tl, q.bl, q.br, q.tr)) == Area(q)
  {
    var dx1, dy1 := q.tr.x - q.tl.x, q.tr.y - q.tl.y;
    var dx2, dy2 := q.bl.x - q.tl.x, q.bl.y - q.tl.y;
    assert dx2 * dy1 - dy2 * dx1 == -(dx1 * dy2 - dy1 * dx2);
  }

  function MinX(q: Quad): real { MinR(MinR(q.tl.x, q.tr.x), MinR(q.bl.x, q.br.x)) }
  function MinY(q: Quad): real { MinR(MinR(q.tl.y, q.tr.y), MinR(q.bl.y, q.br.y)) }
  function MaxX(q: Quad): real { MaxR(MaxR(q.tl.x, q.tr.x), MaxR(q.bl.x, q.br.x)) }
  function MaxY(q: Quad): real { MaxR(MaxR(q.tl.y, q.tr.y), MaxR(q.bl.y, q.br.y)) }

  /** Inclusive bounding-box test (the source leaves the exact polygon test as a TODO). */
  function IsInside(q: Quad, p: Point): bool
  {
    p.x >= MinX(q) && p.x <= MaxX(q) && p.y >= MinY(q) && p.y <= MaxY(q)
  }

  lemma CornersAreInside(q: Quad)
    ensures forall c :: c in Points(q) ==> IsInside(q, c)
  {
  }

  /** A point is inside iff it lies between some corner coordinates on each axis. */
  lemma InsideMeansBetweenCorners(q: Quad, p: Point)
    ensures IsInside(q, p) <==>
      (exists a, b :: a in Points(q) && b in Points(q) && a.x <= p.x <= b.x) &&
      (exists a, b :: a in Points(q) && b in Points(q) && a.y <= p.y <= b.y)
  {
    var ps := Points(q);
    if IsInside(q, p) {
      var a :| a in ps && a.x == MinX(q);
      var b :| b in ps && b.x == MaxX(q);
      var c :| c in ps && c.y == MinY(q);
      var d :| d in ps && d.y == MaxY(q);
      assert a.x <= p.x <= b.x && c.y <= p.y <= d.y;
    }
  }

  /** Signed side differences, the larger in absolute value first. */
  function BigSideSize(q: Quad): real
  {
    if Abs(q.tl.x - q.tr.x) > Abs(q.tl.y - q.bl.y) then q.tl.x - q.tr.x else q.tl.y - q.bl.y
  }

  function SmallSideSize(q: Quad): real
  {
    if Abs(q.tl.x - q.tr.x) > Abs(q.tl.y - q.bl.y) then q.tl.y - q.bl.y else q.tl.x - q.tr.x
  }

  lemma SideSizesPartition(q: Quad)
    ensures Abs(BigSideSize(q)) >= Abs(SmallSideSize(q))
    ensures multiset{BigSideSize(q), SmallSideSize(q)} == multiset{q.tl.x - q.tr.x, q.tl.y - q.bl.y}
  {
  }

  /** Rescales every corner from a width x height raster to a newWidth x newHeight one. */
  function RecalculateQuadPoints(q: Quad, width: int, height: int, newWidth: int, newHeight: int): Quad
    requires width > 0 && height > 0
  {
    Quad(Scale(q.tl, width, height, newWidth, newHeight), Scale(q.tr, width, height, newWidth, newHeight),
         Scale(q.br, width, height, newWidth, newHeight), Scale(q.bl, width, height, newWidth, newHeight))
  }

  function Scale(p: Point, width: int, height: int, newWidth: int, newHeight: int): Point
    requires width > 0 && height > 0
  {
    Point(Rescale(p.x, width, newWidth), Rescale(p.y, height, newHeight))
  }

  /** One coordinate: divided by the old size, then multiplied by the new one. */
  function Rescale(a: real, size: int, newSize: int): real
    requires size > 0
  {
    a / size as real * newSize as real
  }

  lemma RescaleIsProduct(a: real, size: int, newSize: int)
    requires size > 0
    ensures Rescale(a, size, newSize) == a * (newSize as real / size as real)
  {
    DivideThenMultiply(a, size as real, newSize as real);
  }

  /** Every corner multiplied by (sx, sy). */
  function ScaleQuad(q: Quad, sx: real, sy: real): Quad
  {
    Quad(Point(q.tl.x * sx, q.tl.y * sy), Point(q.tr.x * sx, q.tr.y * sy),
         Point(q.br.x * sx, q.br.y * sy), Point(q.bl.x * sx, q.bl.y * sy))
  }

  /** Rescaling between rasters is scaling by the two size ratios. */
  lemma RecalculateIsScaling(q: Quad, width: int, height: int, newWidth: int, newHeight: int)
    requires width > 0 && height > 0
    ensures RecalculateQuadPoints(q, width, height, newWidth, newHeight)
         == ScaleQuad(q, newWidth as real / width as real, newHeight as real / height as real)
  {
    ScaleIsProduct(q.tl, width, height, newWidth, newHeight);
    ScaleIsProduct(q.tr, width, height, newWidth, newHeight);
    ScaleIsProduct(q.br, width, height, newWidth, newHeight);
    ScaleIsProduct(q.bl, width, height, newWidth, newHeight);
  }

  lemma ScaleIsProduct(p: Point, width: int, height: int, newWidth: int, newHeight: int)
    requires width > 0 && height > 0
    ensures Scale(p, width, height, newWidth, newHeight)
         == Point(p.x * (newWidth as real / width as real), p.y * (newHeight as real / height as real))
  {
    RescaleIsProduct(p.x, width, newWidth);
    RescaleIsProduct(p.y, height, newHeight);
  }

  /** Scaling by non-negative factors multiplies the area by both. */
  lemma ScaledArea(q: Quad, sx: real, sy: real)
    requires sx >= 0.0 && sy >= 0.0
    ensures Area(ScaleQuad(q, sx, sy)) == Area(q) * sx * sy
  {
    var r := ScaleQuad(q, sx, sy);
    Distribute(q.tr.x, q.tl.x, sx);
    Distribute(q.tr.y, q.tl.y, sy);
    Distribute(q.bl.x, q.tl.x, sx);
    Distribute(q.bl.y, q.tl.y, sy);
    AreaOfScaled(q, r, sx, sy);
  }

  /** Rescaling to a newWidth x newHeight raster multiplies the area by both size ratios. */
  lemma RecalculatedArea(q: Quad, width: int, height: int, newWidth: int, newHeight: int)
    requires width > 0 && height > 0 && newWidth >= 0 && newHeight >= 0
    ensures Area(RecalculateQuadPoints(q, width, height, newWidth, newHeight))
         == Area(q) * (newWidth as real / width as real) * (newHeight as real / height as real)
  {
    RecalculateIsScaling(q, width, height, newWidth, newHeight);
    NonNegativeRatio(newWidth, width);
    NonNegativeRatio(newHeight, height);
    ScaledArea(q, newWidth as real / width as real, newHeight as real / height as real);
  }

  lemma NonNegativeRatio(n: int, d: int)
    requires n >= 0 && d > 0
    ensures n as real / d as real >= 0.0
  {
  }

  /** A quadrilateral whose corner offsets from tl are those of q scaled by
      (sx, sy) has q's area times sx * sy. */
  lemma AreaOfScaled(q: Quad, r: Quad, sx: real, sy: real)
    requires sx >= 0.0 && sy >= 0.0
    requires r.tr.x - r.tl.x == (q.tr.x - q.tl.x) * sx && r.tr.y - r.tl.y == (q.tr.y - q.tl.y) * sy
    requires r.bl.x - r.tl.x == (q.bl.x - q.tl.x) * sx && r.bl.y - r.tl.y == (q.bl.y - q.tl.y) * sy
    ensures Area(r) == Area(q) * sx * sy
  {
    ScaledCross(q.tr.x - q.tl.x, q.tr.y - q.tl.y, q.bl.x - q.tl.x, q.bl.y - q.tl.y, sx, sy);
  }

  lemma Distribute(a: real, b: real, k: real)
    ensures a * k - b * k == (a - b) * k
  {
  }

  /** The cross product of two vectors scaled by (sx, sy) scales by sx * sy. */
  lemma ScaledCross(dx1: real, dy1: real, dx2: real, dy2: real, sx: real, sy: real)
    requires sx >= 0.0 && sy >= 0.0
    ensures Abs((dx1 * sx) * (dy2 * sy) - (dy1 * sy) * (dx2 * sx)) == Abs(dx1 * dy2 - dy1 * dx2) * sx * sy
  {
    var cross := dx1 * dy2 - dy1 * dx2;
    assert (dx1 * sx) * (dy2 * sy) - (dy1 * sy) * (dx2 * sx) == cross * (sx * sy);
    assert sx * sy >= 0.0;
    AbsScale(cross, sx * sy);
  }

  lemma DivideThenMultiply(a: real, w: real, n: real)
    requires w > 0.0
    ensures a / w * n == a * (n / w)
  {
    calc {
      a / w * n;
      (a * (1.0 / w)) * n;
      a * (n * (1.0 / w));
      a * (n / w);
    }
  }

  lemma AbsScale(a: real, k: real)
    requires k >= 0.0
    ensures Abs(a * k) == Abs(a) * k
  {
    if a < 0.0 {
      assert a * k <= 0.0;
    }
  }

  /** Translating all corners by the same offset keeps the area. */
  lemma TranslatedArea(q: Quad, dx: real, dy: real)
    ensures Area(Quad(Translate(q.tl, dx, dy), Translate(q.tr, dx, dy),
                      Translate(q.br, dx, dy), Translate(q.bl, dx, dy))) == Area(q)
  {
  }
}
