/** Seed extraction from a masked image: the morphology kernel rule, the
    centre crop, and per contour the bounding box, the pixels collected
    inside the filled contour, the fill-ratio and whiteness rejections, and
    the numbering of the seeds that survive. Contour finding, contour area,
    contour filling, morphology and the percentile are OpenCV and Commons
    Math calls: their results are inputs. */
module SeedUtils {
  import opened Wrappers
  import opened Numeric
  import opened Pixels

  // ----- Mask -----

  /** Java's `(int)` of +Infinity, what `1.5 / Math.sqrt(0.0)` casts to. */
  const IntMax: int := 2147483647

  /** The morphology kernel size: 10 without a scale, else
      `(int)(1.5 / sqrt(scale))` raised to at least 10. */
  function KernelSize(scale: Option<real>, sqrt: real -> real): (k: int)
    requires scale.Some? ==> sqrt(scale.value) >= 0.0
  {
    var size := match scale
      case None => 10
      case Some(s) => if sqrt(s) == 0.0 then IntMax else Trunc(1.5 / sqrt(s));
    if size < 10 then 10 else size
  }

  /** The kernel is never smaller than 10, is 10 without a scale, and with a
      scale is the truncated quotient whenever that reaches 10. */
  lemma KernelSizeRule(scale: Option<real>, sqrt: real -> real)
    requires scale.Some? ==> sqrt(scale.value) >= 0.0
    ensures KernelSize(scale, sqrt) >= 10
    ensures scale.None? ==> KernelSize(scale, sqrt) == 10
    ensures scale.Some? && sqrt(scale.value) > 0.0 ==>
      KernelSize(scale, sqrt) == if Trunc(1.5 / sqrt(scale.value)) < 10 then 10 else Trunc(1.5 / sqrt(scale.value))
  {
  }

  /** A larger scale (a larger root) never gives a larger kernel. */
  lemma KernelShrinksWithScale(a: real, b: real, sqrt: real -> real)
    requires 0.0 < sqrt(a) <= sqrt(b)
    ensures KernelSize(Some(b), sqrt) <= KernelSize(Some(a), sqrt)
  {
    QuotientAntitone(1.5, sqrt(a), sqrt(b));
    TruncMonotone(1.5 / sqrt(b), 1.5 / sqrt(a));
  }

  lemma QuotientAntitone(n: real, a: real, b: real)
    requires n >= 0.0 && 0.0 < a <= b
    ensures n / b <= n / a
  {
    assert n / b * b == n == n / a * a;
  }

  /** The two morphology steps. */
  datatype MorphOp = Close | Open

  /** `getMask` after the colour and white masks have been combined: a
      closing and then an opening with the same elliptic kernel. */
  function GetMask(mask: Image, scale: Option<real>, sqrt: real -> real,
                   morphology: (Image, MorphOp, int) -> Image): (r: Image)
    requires scale.Some? ==> sqrt(scale.value) >= 0.0
    ensures var k := KernelSize(scale, sqrt);
      r == morphology(morphology(mask, Close, k), Open, k) && k >= 10
  {
    KernelSizeRule(scale, sqrt);
    var k := KernelSize(scale, sqrt);
    morphology(morphology(mask, Close, k), Open, k)
  }

  /** `filterByMask` after the masking: rows [rows/4, 3 rows/4) and columns
      [cols/4, 3 cols/4) of the masked image. */
  function CentreCrop(filtered: Image): (r: Image)
    requires filtered.Valid()
    ensures r.Valid() && r.rows == 3 * filtered.rows / 4 - filtered.rows / 4 && r.cols == 3 * filtered.cols / 4 - filtered.cols / 4
    ensures forall y, x :: 0 <= y < r.rows && 0 <= x < r.cols ==>
      r.At(y, x) == filtered.At(y + filtered.rows / 4, x + filtered.cols / 4)
  {
    Submatrix(filtered, filtered.rows / 4, 3 * filtered.rows / 4, filtered.cols / 4, 3 * filtered.cols / 4)
  }

  /** The crop keeps about the middle half: its length is within one of n/2
      and the margin cut after it is the one before it or one more. */
  lemma CropIsCentred(n: nat)
    ensures n / 2 - 1 <= 3 * n / 4 - n / 4 <= n / 2 + 1
    ensures n / 4 <= n - 3 * n / 4 <= n / 4 + 1
  {
    var q, m := n / 4, n % 4;
    assert n == 4 * q + m;
    assert 3 * n == 4 * (3 * q) + 3 * m;
    assert 3 * n / 4 == 3 * q + 3 * m / 4;
    assert n / 2 == 2 * q + m / 2;
  }

  // ----- Bounding box -----

  /** A contour point (OpenCV contours have integer coordinates). */
  datatype IntPoint = IntPoint(x: int, y: int)

  /** The running minimum of a scan that starts from `init`. */
  function MinFrom(xs: seq<int>, init: int): int
  {
    if |xs| == 0 then init
    else
      var m := MinFrom(xs[..|xs| - 1], init);
      if xs[|xs| - 1] < m then xs[|xs| - 1] else m
  }

  /** The running maximum of a scan that starts from `init`. */
  function MaxFrom(xs: seq<int>, init: int): int
  {
    if |xs| == 0 then init
    else
      var m := MaxFrom(xs[..|xs| - 1], init);
      if xs[|xs| - 1] > m then xs[|xs| - 1] else m
  }

  /** The scan's minimum is below the start and every element, and is the
      start or one of the elements. */
  lemma {:induction false} MinFromIsMinimum(xs: seq<int>, init: int)
    ensures MinFrom(xs, init) <= init && forall i :: 0 <= i < |xs| ==> MinFrom(xs, init) <= xs[i]
    ensures MinFrom(xs, init) == init || exists i :: 0 <= i < |xs| && MinFrom(xs, init) == xs[i]
  {
    if |xs| > 0 {
      var p := xs[..|xs| - 1];
      MinFromIsMinimum(p, init);
      assert forall i :: 0 <= i < |p| ==> xs[i] == p[i];
    }
  }

  /** The scan's maximum is above the start and every element, and is the
      start or one of the elements. */
  lemma {:induction false} MaxFromIsMaximum(xs: seq<int>, init: int)
    ensures MaxFrom(xs, init) >= init && forall i :: 0 <= i < |xs| ==> MaxFrom(xs, init) >= xs[i]
    ensures MaxFrom(xs, init) == init || exists i :: 0 <= i < |xs| && MaxFrom(xs, init) == xs[i]
  {
    if |xs| > 0 {
      var p := xs[..|xs| - 1];
      MaxFromIsMaximum(p, init);
      assert forall i :: 0 <= i < |p| ==> xs[i] == p[i];
    }
  }

  function Xs(contour: seq<IntPoint>): seq<int>
  {
    seq(|contour|, i requires 0 <= i < |contour| => contour[i].x)
  }

  function Ys(contour: seq<IntPoint>): seq<int>
  {
    seq(|contour|, i requires 0 <= i < |contour| => contour[i].y)
  }

  /** An inclusive box of pixel positions. */
  datatype Box = Box(minX: int, maxX: int, minY: int, maxY: int)

  /** The box `getSeedData` scans: min and max over the contour, the minima
      starting from cols - 1 and rows - 1 and the maxima from 0. */
  function BoundingBox(contour: seq<IntPoint>, rows: nat, cols: nat): Box
  {
    Box(MinFrom(Xs(contour), cols - 1), MaxFrom(Xs(contour), 0),
        MinFrom(Ys(contour), rows - 1), MaxFrom(Ys(contour), 0))
  }

  predicate InImage(p: IntPoint, rows: nat, cols: nat)
  {
    0 <= p.x < cols && 0 <= p.y < rows
  }

  /** For a non-empty contour inside the image the box lies in the image,
      holds every contour point, and each of its sides touches a contour point. */
  lemma BoundingBoxIsTight(contour: seq<IntPoint>, rows: nat, cols: nat)
    requires |contour| > 0 && forall i :: 0 <= i < |contour| ==> InImage(contour[i], rows, cols)
    ensures var b := BoundingBox(contour, rows, cols);
      0 <= b.minX <= b.maxX < cols && 0 <= b.minY <= b.maxY < rows &&
      (forall i :: 0 <= i < |contour| ==> b.minX <= contour[i].x <= b.maxX && b.minY <= contour[i].y <= b.maxY) &&
      (exists i :: 0 <= i < |contour| && contour[i].x == b.minX) &&
      (exists i :: 0 <= i < |contour| && contour[i].x == b.maxX) &&
      (exists i :: 0 <= i < |contour| && contour[i].y == b.minY) &&
      (exists i :: 0 <= i < |contour| && contour[i].y == b.maxY)
  {
    var xs, ys := Xs(contour), Ys(contour);
    assert forall i :: 0 <= i < |contour| ==> xs[i] == contour[i].x && ys[i] == contour[i].y;
    MinFromIsMinimum(xs, cols - 1);
    MaxFromIsMaximum(xs, 0);
    MinFromIsMinimum(ys, rows - 1);
    MaxFromIsMaximum(ys, 0);
    assert xs[0] == contour[0].x && ys[0] == contour[0].y;
    assert MinFrom(xs, cols - 1) == cols - 1 ==> xs[0] == cols - 1;
    assert MaxFrom(xs, 0) == 0 ==> xs[0] == 0;
    assert MinFrom(ys, rows - 1) == rows - 1 ==> ys[0] == rows - 1;
    assert MaxFrom(ys, 0) == 0 ==> ys[0] == 0;
  }

  /** The loop over the contour points updating the four extremes. */
  method ComputeBox(contour: seq<IntPoint>, rows: nat, cols: nat) returns (b: Box)
    ensures b == BoundingBox(contour, rows, cols)
  {
    var minX, maxX, minY, maxY := cols - 1, 0, rows - 1, 0;
    ghost var xs, ys := Xs(contour), Ys(contour);
    for i := 0 to |contour|
      invariant minX == MinFrom(xs[..i], cols - 1) && maxX == MaxFrom(xs[..i], 0)
      invariant minY == MinFrom(ys[..i], rows - 1) && maxY == MaxFrom(ys[..i], 0)
    {
      var point := contour[i];
      if point.x < minX { minX := point.x; }
      if point.x > maxX { maxX := point.x; }
      if point.y < minY { minY := point.y; }
      if point.y > maxY { maxY := point.y; }
      assert xs[..i + 1][..i] == xs[..i] && ys[..i + 1][..i] == ys[..i];
    }
    assert xs[..|contour|] == xs && ys[..|contour|] == ys;
    b := Box(minX, maxX, minY, maxY);
  }

  // ----- Pixel collection -----

  /** One collected pixel: its position, its colour and the minimum channel
      of the filter image at the same position. */
  datatype Sample = Sample(x: int, y: int, color: Triple, minChannel: real)

  function MinChannel(t: Triple): real
  {
    MinR(t.c0, MinR(t.c1, t.c2))
  }

  /** The seed buffer as rows of values. */
  predicate SameShape(marks: seq<seq<int>>, image: Image)
  {
    |marks| == image.rows && forall y :: 0 <= y < |marks| ==> |marks[y]| == image.cols
  }

  /** A pixel is collected when the seed buffer is set there and its colour
      channels sum to more than zero. */
  predicate Kept(image: Image, marks: seq<seq<int>>, x: int, y: int)
    requires image.Valid() && SameShape(marks, image) && 0 <= y < image.rows && 0 <= x < image.cols
  {
    marks[y][x] > 0 && image.At(y, x).c0 + image.At(y, x).c1 + image.At(y, x).c2 > 0.0
  }

  ghost predicate Scans(image: Image, filter: Image, marks: seq<seq<int>>)
  {
    image.Valid() && filter.Valid() && filter.rows == image.rows && filter.cols == image.cols && SameShape(marks, image)
  }

  /** The samples of row y, columns x0 .. x1 - 1, left to right. */
  function RowSamples(image: Image, filter: Image, marks: seq<seq<int>>, y: int, x0: int, x1: int): seq<Sample>
    requires Scans(image, filter, marks) && 0 <= y < image.rows && 0 <= x0 <= x1 <= image.cols
    decreases x1 - x0
  {
    if x1 == x0 then []
    else
      var x := x1 - 1;
      RowSamples(image, filter, marks, y, x0, x) +
        (if Kept(image, marks, x, y) then [Sample(x, y, image.At(y, x), MinChannel(filter.At(y, x)))] else [])
  }

  /** The samples of rows y0 .. y1 - 1, top to bottom, each row left to right. */
  function BoxSamples(image: Image, filter: Image, marks: seq<seq<int>>, x0: int, x1: int, y0: int, y1: int): seq<Sample>
    requires Scans(image, filter, marks) && 0 <= y0 <= y1 <= image.rows && 0 <= x0 <= x1 <= image.cols
    decreases y1 - y0
  {
    if y1 == y0 then []
    else BoxSamples(image, filter, marks, x0, x1, y0, y1 - 1) + RowSamples(image, filter, marks, y1 - 1, x0, x1)
  }

  /** A sample is in a row's list exactly when it is a kept pixel of that row
      with its own colour and filter minimum. */
  lemma {:induction false} RowSamplesMembers(image: Image, filter: Image, marks: seq<seq<int>>, y: int, x0: int, x1: int, s: Sample)
    requires Scans(image, filter, marks) && 0 <= y < image.rows && 0 <= x0 <= x1 <= image.cols
    ensures s in RowSamples(image, filter, marks, y, x0, x1) <==>
      s.y == y && x0 <= s.x < x1 && Kept(image, marks, s.x, y) &&
      s.color == image.At(y, s.x) && s.minChannel == MinChannel(filter.At(y, s.x))
    decreases x1 - x0
  {
    if x1 > x0 {
      RowSamplesMembers(image, filter, marks, y, x0, x1 - 1, s);
    }
  }

  /** A sample is in the box's list exactly when it is a kept pixel of the
      box with its own colour and filter minimum. */
  lemma {:induction false} BoxSamplesMembers(image: Image, filter: Image, marks: seq<seq<int>>, x0: int, x1: int, y0: int, y1: int, s: Sample)
    requires Scans(image, filter, marks) && 0 <= y0 <= y1 <= image.rows && 0 <= x0 <= x1 <= image.cols
    ensures s in BoxSamples(image, filter, marks, x0, x1, y0, y1) <==>
      y0 <= s.y < y1 && x0 <= s.x < x1 && Kept(image, marks, s.x, s.y) &&
      s.color == image.At(s.y, s.x) && s.minChannel == MinChannel(filter.At(s.y, s.x))
    decreases y1 - y0
  {
    if y1 > y0 {
      BoxSamplesMembers(image, filter, marks, x0, x1, y0, y1 - 1, s);
      RowSamplesMembers(image, filter, marks, y1 - 1, x0, x1, s);
    }
  }

  /** The seed buffer's values. */
  function Snapshot(buf: array2<int>): (s: seq<seq<int>>)
    reads buf
    ensures |s| == buf.Length0 && forall y :: 0 <= y < |s| ==> |s[y]| == buf.Length1
  {
    seq(buf.Length0, y requires 0 <= y < buf.Length0 reads buf =>
      seq(buf.Length1, x requires 0 <= x < buf.Length1 reads buf => buf[y, x]))
  }

  /** Each value of the snapshot is the buffer's value at the same position. */
  lemma SnapshotAt(buf: array2<int>)
    ensures forall y, x :: 0 <= y < buf.Length0 && 0 <= x < buf.Length1 ==> Snapshot(buf)[y][x] == buf[y, x]
  {
  }

  /** The double loop over the box collecting the kept pixels. */
  method CollectSamples(image: Image, filter: Image, buf: array2<int>, b: Box) returns (samples: seq<Sample>)
    requires Scans(image, filter, Snapshot(buf))
    requires 0 <= b.minX <= b.maxX < image.cols && 0 <= b.minY <= b.maxY < image.rows
    ensures samples == BoxSamples(image, filter, Snapshot(buf), b.minX, b.maxX + 1, b.minY, b.maxY + 1)
  {
    ghost var marks := Snapshot(buf);
    samples := [];
    for y := b.minY to b.maxY + 1
      invariant samples == BoxSamples(image, filter, marks, b.minX, b.maxX + 1, b.minY, y)
    {
      samples := CollectRow(image, filter, buf, marks, y, b.minX, b.maxX + 1, samples);
    }
  }

  /** The inner loop of the collection: row y, columns x0 .. x1 - 1. */
  method CollectRow(image: Image, filter: Image, buf: array2<int>, ghost marks: seq<seq<int>>,
                    y: int, x0: int, x1: int, before: seq<Sample>) returns (samples: seq<Sample>)
    requires marks == Snapshot(buf) && Scans(image, filter, marks)
    requires 0 <= y < image.rows && 0 <= x0 <= x1 <= image.cols
    ensures samples == before + RowSamples(image, filter, marks, y, x0, x1)
  {
    SnapshotAt(buf);
    samples := before;
    for x := x0 to x1
      invariant samples == before + RowSamples(image, filter, marks, y, x0, x)
    {
      if buf[y, x] > 0 {
        var color := image.At(y, x);
        if color.c0 + color.c1 + color.c2 > 0.0 {
          samples := samples + [Sample(x, y, color, MinChannel(filter.At(y, x)))];
        }
      }
    }
  }

  // ----- Filling and erasing the contour -----

  /** The buffer with every pixel inside the contour set to v. */
  function Filled(marks: seq<seq<int>>, interior: (int, int) -> bool, v: int): (r: seq<seq<int>>)
    ensures |r| == |marks| && forall y :: 0 <= y < |r| ==> |r[y]| == |marks[y]|
  {
    seq(|marks|, y requires 0 <= y < |marks| =>
      seq(|marks[y]|, x requires 0 <= x < |marks[y]| => if interior(x, y) then v else marks[y][x]))
  }

  /** Inside the contour the filled buffer holds v; elsewhere it is unchanged. */
  lemma FilledAt(marks: seq<seq<int>>, interior: (int, int) -> bool, v: int)
    ensures forall y, x :: 0 <= y < |marks| && 0 <= x < |marks[y]| ==>
      Filled(marks, interior, v)[y][x] == if interior(x, y) then v else marks[y][x]
  {
  }

  /** Two buffers of the same shape with the same values are equal. */
  lemma SameMarks(a: seq<seq<int>>, b: seq<seq<int>>)
    requires |a| == |b| && forall y :: 0 <= y < |a| ==> |a[y]| == |b[y]|
    requires forall y, x :: 0 <= y < |a| && 0 <= x < |a[y]| ==> a[y][x] == b[y][x]
    ensures a == b
  {
    forall y | 0 <= y < |a|
      ensures a[y] == b[y]
    {
    }
  }

  /** `drawContours(..., FILLED)`: every pixel inside the contour set to v.
      Which pixels are inside is OpenCV's polygon fill, a parameter here. */
  method Fill(buf: array2<int>, interior: (int, int) -> bool, v: int)
    modifies buf
    ensures Snapshot(buf) == Filled(old(Snapshot(buf)), interior, v)
  {
    ghost var before := Snapshot(buf);
    SnapshotAt(buf);
    for y := 0 to buf.Length0
      invariant forall r, x :: 0 <= r < buf.Length0 && 0 <= x < buf.Length1 ==>
        buf[r, x] == if r < y && interior(x, r) then v else old(buf[r, x])
    {
      for x := 0 to buf.Length1
        invariant forall r, c :: 0 <= r < buf.Length0 && 0 <= c < buf.Length1 ==>
          buf[r, c] == if (r < y || (r == y && c < x)) && interior(c, r) then v else old(buf[r, c])
      {
        if interior(x, y) {
          buf[y, x] := v;
        }
      }
    }
    SnapshotAt(buf);
    FilledAt(before, interior, v);
    SameMarks(Snapshot(buf), Filled(before, interior, v));
  }

  /** Filling the same contour twice leaves only the second value. */
  lemma FilledTwice(marks: seq<seq<int>>, interior: (int, int) -> bool, v: int, w: int)
    ensures Filled(Filled(marks, interior, v), interior, w) == Filled(marks, interior, w)
  {
    FilledAt(marks, interior, v);
    FilledAt(Filled(marks, interior, v), interior, w);
    FilledAt(marks, interior, w);
    SameMarks(Filled(Filled(marks, interior, v), interior, w), Filled(marks, interior, w));
  }

  /** Erasing a contour from a zero buffer leaves it zero, so each contour
      is examined against a clear buffer. */
  lemma EraseKeepsZero(rows: nat, cols: nat, interior: (int, int) -> bool)
    ensures Filled(Zeros(rows, cols), interior, 0) == Zeros(rows, cols)
  {
    ZerosAt(rows, cols);
    FilledAt(Zeros(rows, cols), interior, 0);
    SameMarks(Filled(Zeros(rows, cols), interior, 0), Zeros(rows, cols));
  }

  // ----- One contour -----

  /** The fill-ratio and whiteness rejections of `getSeedData`. */
  function Verdict(samples: seq<Sample>, b: Box, threshold: real, whiteThreshold: real,
                   percentile10: seq<real> -> real): (r: seq<Sample>)
    requires b.minX <= b.maxX && b.minY <= b.maxY
  {
    if |samples| as real / (b.maxX - b.minX + 1) as real / (b.maxY - b.minY + 1) as real < threshold then []
    else if percentile10(Mins(samples)) > whiteThreshold then []
    else samples
  }

  /** The list of minimum channels collected beside the pixels. */
  function Mins(samples: seq<Sample>): (mins: seq<real>)
    ensures |mins| == |samples| && forall k :: 0 <= k < |samples| ==> mins[k] == samples[k].minChannel
  {
    seq(|samples|, k requires 0 <= k < |samples| => samples[k].minChannel)
  }

  /** A seed survives exactly when it covers at least `threshold` of its box
      and the 10th percentile of its minimum channels is not above
      `whiteThreshold`; a survivor keeps every collected pixel. */
  lemma VerdictMeaning(samples: seq<Sample>, b: Box, threshold: real, whiteThreshold: real,
                       percentile10: seq<real> -> real)
    requires b.minX <= b.maxX && b.minY <= b.maxY
    ensures var r := Verdict(samples, b, threshold, whiteThreshold, percentile10);
      var area := ((b.maxX - b.minX + 1) * (b.maxY - b.minY + 1)) as real;
      (r == [] || r == samples) &&
      (|samples| > 0 ==> (r == samples <==> |samples| as real >= threshold * area && percentile10(Mins(samples)) <= whiteThreshold))
  {
    var w, h := (b.maxX - b.minX + 1) as real, (b.maxY - b.minY + 1) as real;
    var n := |samples| as real;
    assert n / w / h == n / (w * h);
    assert (n / (w * h) < threshold) <==> (n < threshold * (w * h));
  }

  /** A verdict either drops the seed or keeps every collected pixel. */
  lemma VerdictAllOrNothing(samples: seq<Sample>, b: Box, threshold: real, whiteThreshold: real,
                            percentile10: seq<real> -> real)
    requires b.minX <= b.maxX && b.minY <= b.maxY
    ensures var r := Verdict(samples, b, threshold, whiteThreshold, percentile10); r == [] || r == samples
  {
  }

  /** What `getSeedData` returns for a contour, given the buffer as it is
      once the contour has been filled with 255. */
  function SeedData(contour: seq<IntPoint>, image: Image, filter: Image, marks: seq<seq<int>>,
                    threshold: real, whiteThreshold: real, percentile10: seq<real> -> real): seq<Sample>
    requires Scans(image, filter, marks) && |contour| > 0
    requires forall i :: 0 <= i < |contour| ==> InImage(contour[i], image.rows, image.cols)
  {
    var b := BoundingBox(contour, image.rows, image.cols);
    BoundingBoxIsTight(contour, image.rows, image.cols);
    Verdict(BoxSamples(image, filter, marks, b.minX, b.maxX + 1, b.minY, b.maxY + 1), b, threshold, whiteThreshold, percentile10)
  }

  /** `getSeedData` returns either nothing or every kept pixel of the
      contour's bounding box, which lies inside the image. */
  lemma SeedDataAllOrNothing(contour: seq<IntPoint>, image: Image, filter: Image, marks: seq<seq<int>>,
                             threshold: real, whiteThreshold: real, percentile10: seq<real> -> real)
    requires Scans(image, filter, marks) && |contour| > 0
    requires forall i :: 0 <= i < |contour| ==> InImage(contour[i], image.rows, image.cols)
    ensures var b := BoundingBox(contour, image.rows, image.cols);
      0 <= b.minX <= b.maxX < image.cols && 0 <= b.minY <= b.maxY < image.rows &&
      var r := SeedData(contour, image, filter, marks, threshold, whiteThreshold, percentile10);
      r == [] || r == BoxSamples(image, filter, marks, b.minX, b.maxX + 1, b.minY, b.maxY + 1)
  {
    var b := BoundingBox(contour, image.rows, image.cols);
    BoundingBoxIsTight(contour, image.rows, image.cols);
    var samples := BoxSamples(image, filter, marks, b.minX, b.maxX + 1, b.minY, b.maxY + 1);
    VerdictAllOrNothing(samples, b, threshold, whiteThreshold, percentile10);
  }

  /** On a zero buffer, the pixels `getSeedData` keeps are exactly the
      pixels of the contour's box inside the contour whose colour sums to
      more than zero. */
  lemma SeedDataOnClearBuffer(contour: seq<IntPoint>, image: Image, filter: Image, interior: (int, int) -> bool,
                              marks: seq<seq<int>>, threshold: real, whiteThreshold: real,
                              percentile10: seq<real> -> real, s: Sample)
    requires Scans(image, filter, marks) && |contour| > 0
    requires forall i :: 0 <= i < |contour| ==> InImage(contour[i], image.rows, image.cols)
    requires forall y, x :: 0 <= y < |marks| && 0 <= x < |marks[y]| ==> marks[y][x] == 0
    ensures var filled := Filled(marks, interior, 255);
      var b := BoundingBox(contour, image.rows, image.cols);
      var r := SeedData(contour, image, filter, filled, threshold, whiteThreshold, percentile10);
      r != [] ==> (s in r <==>
        b.minX <= s.x <= b.maxX && b.minY <= s.y <= b.maxY && 0 <= s.x < image.cols && 0 <= s.y < image.rows &&
        interior(s.x, s.y) && s.color == image.At(s.y, s.x) && s.color.c0 + s.color.c1 + s.color.c2 > 0.0 &&
        s.minChannel == MinChannel(filter.At(s.y, s.x)))
  {
    var filled := Filled(marks, interior, 255);
    FilledAt(marks, interior, 255);
    SeedDataAllOrNothing(contour, image, filter, filled, threshold, whiteThreshold, percentile10);
    var b := BoundingBox(contour, image.rows, image.cols);
    BoxSamplesMembers(image, filter, filled, b.minX, b.maxX + 1, b.minY, b.maxY + 1, s);
  }

  /** The verdict on the scan of the contour's bounding box is `getSeedData`'s result. */
  lemma SeedDataFromScan(contour: seq<IntPoint>, image: Image, filter: Image, marks: seq<seq<int>>,
                         threshold: real, whiteThreshold: real, percentile10: seq<real> -> real,
                         b: Box, samples: seq<Sample>)
    requires Scans(image, filter, marks) && |contour| > 0
    requires forall i :: 0 <= i < |contour| ==> InImage(contour[i], image.rows, image.cols)
    requires b == BoundingBox(contour, image.rows, image.cols)
    requires 0 <= b.minX <= b.maxX < image.cols && 0 <= b.minY <= b.maxY < image.rows
    requires samples == BoxSamples(image, filter, marks, b.minX, b.maxX + 1, b.minY, b.maxY + 1)
    ensures SeedData(contour, image, filter, marks, threshold, whiteThreshold, percentile10) ==
      Verdict(samples, b, threshold, whiteThreshold, percentile10)
  {
  }

  /** `getSeedData`: fill the contour into the seed buffer, scan its box,
      erase the contour again and apply the two rejections. The buffer ends
      zero inside the contour and unchanged outside it. */
  method GetSeedData(contour: seq<IntPoint>, interior: (int, int) -> bool, image: Image, filter: Image,
                     seedBuffer: array2<int>, threshold: real, whiteThreshold: real,
                     percentile10: seq<real> -> real) returns (result: seq<Sample>)
    requires Scans(image, filter, Snapshot(seedBuffer)) && |contour| > 0
    requires forall i :: 0 <= i < |contour| ==> InImage(contour[i], image.rows, image.cols)
    modifies seedBuffer
    ensures result == SeedData(contour, image, filter, Filled(old(Snapshot(seedBuffer)), interior, 255),
                               threshold, whiteThreshold, percentile10)
    ensures Snapshot(seedBuffer) == Filled(old(Snapshot(seedBuffer)), interior, 0)
  {
    ghost var before := Snapshot(seedBuffer);
    Fill(seedBuffer, interior, 255);
    ghost var filled := Filled(before, interior, 255);
    var b := ComputeBox(contour, image.rows, image.cols);
    BoundingBoxIsTight(contour, image.rows, image.cols);
    var samples := CollectSamples(image, filter, seedBuffer, b);
    result := Verdict(samples, b, threshold, whiteThreshold, percentile10);
    SeedDataFromScan(contour, image, filter, filled, threshold, whiteThreshold, percentile10, b, samples);
    Fill(seedBuffer, interior, 0);
    FilledTwice(before, interior, 255, 0);
  }

  // ----- All contours -----

  /** The defaults of the short `getSeedData`. */
  const DefaultThreshold: real := 0.5
  const DefaultWhiteThreshold: real := 150.0

  /** A contour found in the filter image: its points, its area as OpenCV
      measures it, and which pixels its filled polygon covers. */
  datatype Contour = Contour(points: seq<IntPoint>, area: real, interior: (int, int) -> bool)

  /** A contour's area in the units of the scale. */
  function ScaledArea(scale: real, c: Contour): real
  {
    scale * c.area
  }

  /** Only seeds whose scaled area lies strictly between 5 and 30 are examined. */
  predicate InAreaWindow(scale: real, c: Contour)
  {
    ScaledArea(scale, c) < 30.0 && ScaledArea(scale, c) > 5.0
  }

  predicate ContourInImage(c: Contour, rows: nat, cols: nat)
  {
    |c.points| > 0 && forall i :: 0 <= i < |c.points| ==> InImage(c.points[i], rows, cols)
  }

  /** A seed as `printSeeds` writes it: its number, its scaled area and its pixels. */
  datatype Seed = Seed(number: int, area: real, pixels: seq<Sample>)

  /** A buffer holding only zeros reads as the rows of zeros. */
  lemma ClearSnapshot(buf: array2<int>)
    requires forall y, x :: 0 <= y < buf.Length0 && 0 <= x < buf.Length1 ==> buf[y, x] == 0
    ensures Snapshot(buf) == Zeros(buf.Length0, buf.Length1)
  {
    SnapshotAt(buf);
    ZerosAt(buf.Length0, buf.Length1);
    SameMarks(Snapshot(buf), Zeros(buf.Length0, buf.Length1));
  }

  /** The rows of zeros `printSeeds` starts its seed buffer with. */
  function Zeros(rows: nat, cols: nat): (z: seq<seq<int>>)
    ensures |z| == rows && forall y :: 0 <= y < rows ==> |z[y]| == cols
  {
    seq(rows, y => seq(cols, x => 0))
  }

  lemma ZerosAt(rows: nat, cols: nat)
    ensures forall y, x :: 0 <= y < rows && 0 <= x < cols ==> Zeros(rows, cols)[y][x] == 0
  {
  }

  /** What `getSeedData` with its defaults returns for a contour examined
      against a zero seed buffer. */
  function ContourData(c: Contour, image: Image, filter: Image, percentile10: seq<real> -> real): seq<Sample>
    requires Scans(image, filter, Zeros(image.rows, image.cols)) && ContourInImage(c, image.rows, image.cols)
  {
    SeedData(c.points, image, filter, Filled(Zeros(image.rows, image.cols), c.interior, 255),
             DefaultThreshold, DefaultWhiteThreshold, percentile10)
  }

  /** What one iteration of `printSeeds` gets for a contour: its seed data
      when the contour is in the area window, nothing otherwise. */
  function Examination(c: Contour, image: Image, filter: Image, scale: real, percentile10: seq<real> -> real): seq<Sample>
    requires Scans(image, filter, Zeros(image.rows, image.cols)) && ContourInImage(c, image.rows, image.cols)
  {
    if InAreaWindow(scale, c) then ContourData(c, image, filter, percentile10) else []
  }

  /** The examinations of the first n contours, in order. */
  function Examined(contours: seq<Contour>, n: nat, image: Image, filter: Image, scale: real,
                    percentile10: seq<real> -> real): (datas: seq<seq<Sample>>)
    requires n <= |contours| && Scans(image, filter, Zeros(image.rows, image.cols))
    requires forall k :: 0 <= k < |contours| ==> ContourInImage(contours[k], image.rows, image.cols)
    ensures |datas| == n
  {
    if n == 0 then []
    else Examined(contours, n - 1, image, filter, scale, percentile10) + [Examination(contours[n - 1], image, filter, scale, percentile10)]
  }

  /** The seeds `printSeeds` writes, numbered from `start`, given the
      examinations of the first |datas| contours. */
  function Printed(contours: seq<Contour>, datas: seq<seq<Sample>>, scale: real, start: int): seq<Seed>
    requires |datas| <= |contours|
  {
    if |datas| == 0 then []
    else
      var n := |datas| - 1;
      var prev := Printed(contours, datas[..n], scale, start);
      if datas[n] == [] then prev
      else prev + [Seed(start + |prev|, ScaledArea(scale, contours[n]), datas[n])]
  }

  /** One more examination: a non-empty one is appended under the next number. */
  lemma PrintedStep(contours: seq<Contour>, datas: seq<seq<Sample>>, d: seq<Sample>, scale: real, start: int)
    requires |datas| < |contours|
    ensures var prev := Printed(contours, datas, scale, start);
      Printed(contours, datas + [d], scale, start) ==
        if d == [] then prev else prev + [Seed(start + |prev|, ScaledArea(scale, contours[|datas|]), d)]
  {
    assert (datas + [d])[..|datas|] == datas;
  }

  /** The written seeds are numbered consecutively from `start`, and each
      carries the non-empty examination of one contour, in contour order. */
  lemma {:induction false} PrintedNumbering(contours: seq<Contour>, datas: seq<seq<Sample>>, scale: real, start: int)
    requires |datas| <= |contours|
    ensures var p := Printed(contours, datas, scale, start);
      |p| <= |datas| &&
      forall i :: 0 <= i < |p| ==>
        p[i].number == start + i && p[i].pixels != [] &&
        exists k :: 0 <= k < |datas| && p[i].pixels == datas[k] && p[i].area == ScaledArea(scale, contours[k])
  {
    if |datas| > 0 {
      var n := |datas| - 1;
      PrintedNumbering(contours, datas[..n], scale, start);
      var prev := Printed(contours, datas[..n], scale, start);
      forall i | 0 <= i < |prev|
        ensures exists k :: 0 <= k < |datas| && prev[i].pixels == datas[k] && prev[i].area == ScaledArea(scale, contours[k])
      {
        var k :| 0 <= k < n && prev[i].pixels == datas[..n][k] && prev[i].area == ScaledArea(scale, contours[k]);
        assert datas[..n][k] == datas[k];
      }
    }
  }

  /** Every examined contour that yields seed data lies in the area window,
      so every written seed's area is strictly between 5 and 30. */
  lemma ExaminationInWindow(c: Contour, image: Image, filter: Image, scale: real, percentile10: seq<real> -> real)
    requires Scans(image, filter, Zeros(image.rows, image.cols)) && ContourInImage(c, image.rows, image.cols)
    ensures Examination(c, image, filter, scale, percentile10) != [] ==> 5.0 < ScaledArea(scale, c) < 30.0
  {
  }

  /** Entry j of the examinations is the examination of contour j. */
  lemma {:induction false} ExaminedAt(contours: seq<Contour>, n: nat, image: Image, filter: Image, scale: real,
                                      percentile10: seq<real> -> real, j: nat)
    requires j < n <= |contours| && Scans(image, filter, Zeros(image.rows, image.cols))
    requires forall k :: 0 <= k < |contours| ==> ContourInImage(contours[k], image.rows, image.cols)
    ensures Examined(contours, n, image, filter, scale, percentile10)[j] ==
      Examination(contours[j], image, filter, scale, percentile10)
  {
    if j < n - 1 {
      ExaminedAt(contours, n - 1, image, filter, scale, percentile10, j);
    }
  }

  /** What `printSeeds` writes: seeds numbered consecutively from `start`,
      each holding the non-empty seed data of one contour whose scaled area,
      which the seed carries, lies strictly between 5 and 30. */
  lemma SeedsWritten(contours: seq<Contour>, image: Image, filter: Image, scale: real,
                     percentile10: seq<real> -> real, start: int, i: nat)
    requires Scans(image, filter, Zeros(image.rows, image.cols))
    requires forall k :: 0 <= k < |contours| ==> ContourInImage(contours[k], image.rows, image.cols)
    requires i < |Printed(contours, Examined(contours, |contours|, image, filter, scale, percentile10), scale, start)|
    ensures var p := Printed(contours, Examined(contours, |contours|, image, filter, scale, percentile10), scale, start);
      p[i].number == start + i && p[i].pixels != [] && 5.0 < p[i].area < 30.0 &&
      exists k :: 0 <= k < |contours| && p[i].pixels == Examination(contours[k], image, filter, scale, percentile10) &&
        p[i].area == ScaledArea(scale, contours[k])
  {
    var datas := Examined(contours, |contours|, image, filter, scale, percentile10);
    PrintedNumbering(contours, datas, scale, start);
    var p := Printed(contours, datas, scale, start);
    var k :| 0 <= k < |datas| && p[i].pixels == datas[k] && p[i].area == ScaledArea(scale, contours[k]);
    ExaminedAt(contours, |contours|, image, filter, scale, percentile10, k);
    ExaminationInWindow(contours[k], image, filter, scale, percentile10);
  }

  /** One iteration's examination: a contour in the area window is run
      through `getSeedData` against the clear seed buffer, which is clear
      again afterwards; a contour outside the window is not examined. */
  method ExamineContour(image: Image, filter: Image, c: Contour, scale: real, percentile10: seq<real> -> real,
                        seedBuffer: array2<int>) returns (seedData: seq<Sample>)
    requires Scans(image, filter, Zeros(image.rows, image.cols)) && ContourInImage(c, image.rows, image.cols)
    requires Snapshot(seedBuffer) == Zeros(image.rows, image.cols)
    modifies seedBuffer
    ensures Snapshot(seedBuffer) == Zeros(image.rows, image.cols)
    ensures seedData == Examination(c, image, filter, scale, percentile10)
  {
    seedData := [];
    var area := ScaledArea(scale, c);
    if area < 30.0 && area > 5.0 {
      seedData := GetSeedData(c.points, c.interior, image, filter, seedBuffer,
                              DefaultThreshold, DefaultWhiteThreshold, percentile10);
      EraseKeepsZero(image.rows, image.cols, c.interior);
    }
  }

  /** Examining one more contour appends its examination. */
  lemma ExaminedStep(contours: seq<Contour>, k: nat, image: Image, filter: Image, scale: real,
                     percentile10: seq<real> -> real)
    requires k < |contours| && Scans(image, filter, Zeros(image.rows, image.cols))
    requires forall j :: 0 <= j < |contours| ==> ContourInImage(contours[j], image.rows, image.cols)
    ensures Examined(contours, k + 1, image, filter, scale, percentile10) ==
      Examined(contours, k, image, filter, scale, percentile10) + [Examination(contours[k], image, filter, scale, percentile10)]
  {
  }

  /** One iteration of `printSeeds`: contour k is examined and, when it
      yields seed data, written under the next number. */
  method PrintNext(image: Image, filter: Image, contours: seq<Contour>, k: nat, scale: real,
                   percentile10: seq<real> -> real, start: int, seedBuffer: array2<int>,
                   seedNumber: int, written: seq<Seed>, ghost datas: seq<seq<Sample>>)
    returns (seedNumber': int, written': seq<Seed>, ghost datas': seq<seq<Sample>>)
    requires k < |contours| && Scans(image, filter, Zeros(image.rows, image.cols))
    requires forall j :: 0 <= j < |contours| ==> ContourInImage(contours[j], image.rows, image.cols)
    requires Snapshot(seedBuffer) == Zeros(image.rows, image.cols)
    requires |datas| == k
    requires written == Printed(contours, datas, scale, start) && seedNumber == start + |written|
    modifies seedBuffer
    ensures Snapshot(seedBuffer) == Zeros(image.rows, image.cols)
    ensures datas' == datas + [Examination(contours[k], image, filter, scale, percentile10)]
    ensures written' == Printed(contours, datas', scale, start) && seedNumber' == start + |written'|
  {
    var c := contours[k];
    var seedData := ExamineContour(image, filter, c, scale, percentile10, seedBuffer);
    PrintedStep(contours, datas, seedData, scale, start);
    seedNumber', written' := seedNumber, written;
    if seedData != [] {
      written' := written + [Seed(seedNumber, ScaledArea(scale, c), seedData)];
      seedNumber' := seedNumber + 1;
    }
    datas' := datas + [seedData];
  }

  /** `printSeeds`: every contour in the area window is examined against one
      seed buffer that starts zero; each seed with data gets the next number.
      Returns the number after the last one given, and the seeds written. */
  method PrintSeeds(image: Image, filter: Image, contours: seq<Contour>, scale: real,
                    percentile10: seq<real> -> real, start: int) returns (seedNumber: int, written: seq<Seed>)
    requires image.Valid() && filter.Valid() && filter.rows == image.rows && filter.cols == image.cols
    requires forall k :: 0 <= k < |contours| ==> ContourInImage(contours[k], image.rows, image.cols)
    ensures written == Printed(contours, Examined(contours, |contours|, image, filter, scale, percentile10), scale, start)
    ensures seedNumber == start + |written|
  {
    var seedBuffer := new int[image.rows, image.cols]((y, x) => 0);
    ClearSnapshot(seedBuffer);
    ghost var datas: seq<seq<Sample>> := [];
    seedNumber, written := start, [];
    for k := 0 to |contours|
      invariant Snapshot(seedBuffer) == Zeros(image.rows, image.cols)
      invariant datas == Examined(contours, k, image, filter, scale, percentile10)
      invariant written == Printed(contours, datas, scale, start)
      invariant seedNumber == start + |written|
    {
      ExaminedStep(contours, k, image, filter, scale, percentile10);
      seedNumber, written, datas := PrintNext(image, filter, contours, k, scale, percentile10, start,
                                              seedBuffer, seedNumber, written, datas);
    }
  }
}
