/** The sampling grid of `getSamplePoints` with all points: every tenth
    pixel of every tenth row over a rectangle, row by row. */
module SampleGrid {
  import opened Pixels

  /** How many samples the source's loop `for (v = lo; v <= hi; v += 10)`
      takes: lo, lo + 10, ... while not past hi. */
  function GridSize(lo: int, hi: int): (n: nat)
    requires lo <= hi
    ensures n >= 1 && lo + 10 * (n - 1) <= hi < lo + 10 * n
    decreases hi - lo
  {
    if hi - lo < 10 then 1 else GridSize(lo + 10, hi) + 1
  }

  /** The count is the source's `(max - min) / STEP + 1` with STEP = 10, the
      size of the buffer it allocates for the samples. */
  lemma {:induction false} GridSizeQuotient(lo: int, hi: int)
    requires lo <= hi
    ensures GridSize(lo, hi) == (hi - lo) / 10 + 1
    decreases hi - lo
  {
    if hi - lo >= 10 {
      GridSizeQuotient(lo + 10, hi);
      assert (hi - lo) / 10 == (hi - (lo + 10)) / 10 + 1;
    }
  }

  /** n samples lo, lo + 10, ... all lie in 0 .. size - 1. */
  predicate Fits(lo: int, n: nat, size: nat)
  {
    0 <= lo < size && lo + 10 * n <= size + 9
  }

  /** The first k samples of row y: columns minX, minX + 10, ... */
  function GridRow(img: Image, minX: int, y: int, k: nat): (cs: seq<Triple>)
    requires img.Valid() && 0 <= y < img.rows && Fits(minX, k, img.cols)
    ensures |cs| == k
  {
    if k == 0 then [] else GridRow(img, minX, y, k - 1) + [img.At(y, minX + 10 * (k - 1))]
  }

  /** The first k rows of the grid, xSize samples each: rows minY, minY + 10, ... */
  function Grid(img: Image, minX: int, xSize: nat, minY: int, k: nat): seq<Triple>
    requires img.Valid()
    requires Fits(minX, xSize, img.cols) && Fits(minY, k, img.rows)
  {
    if k == 0 then [] else Grid(img, minX, xSize, minY, k - 1) + GridRow(img, minX, minY + 10 * (k - 1), xSize)
  }

  /** The grid holds exactly xSize * ySize samples: the buffer the source
      allocates for them is filled exactly. */
  lemma {:induction false} GridLength(img: Image, minX: int, xSize: nat, minY: int, k: nat)
    requires img.Valid()
    requires Fits(minX, xSize, img.cols) && Fits(minY, k, img.rows)
    ensures |Grid(img, minX, xSize, minY, k)| == k * xSize
  {
    if k > 0 {
      GridLength(img, minX, xSize, minY, k - 1);
      assert (k - 1) * xSize + xSize == k * xSize;
    }
  }

  /** Sample i of row j of the grid, which follows the j full rows before it
      (j * xSize samples, by GridLength), is the pixel at column minX + 10 i of
      row minY + 10 j. */
  lemma GridAt(img: Image, minX: int, xSize: nat, minY: int, k: nat, j: nat, i: nat)
    requires img.Valid()
    requires Fits(minX, xSize, img.cols) && Fits(minY, k, img.rows)
    requires j < k && i < xSize
    ensures |Grid(img, minX, xSize, minY, j)| + i < |Grid(img, minX, xSize, minY, k)|
    ensures Grid(img, minX, xSize, minY, k)[|Grid(img, minX, xSize, minY, j)| + i] == img.At(minY + 10 * j, minX + 10 * i)
  {
    GridIsPrefix(img, minX, xSize, minY, j + 1, k);
    GridRowStart(img, minX, xSize, minY, j, i);
  }

  /** The grid of k rows extends the grid of its first m rows. */
  lemma {:induction false} GridIsPrefix(img: Image, minX: int, xSize: nat, minY: int, m: nat, k: nat)
    requires img.Valid()
    requires Fits(minX, xSize, img.cols) && Fits(minY, k, img.rows)
    requires m <= k
    ensures |Grid(img, minX, xSize, minY, m)| <= |Grid(img, minX, xSize, minY, k)|
    ensures Grid(img, minX, xSize, minY, k)[..|Grid(img, minX, xSize, minY, m)|] == Grid(img, minX, xSize, minY, m)
  {
    if m < k {
      GridIsPrefix(img, minX, xSize, minY, m, k - 1);
      var prev := Grid(img, minX, xSize, minY, k - 1);
      var row := GridRow(img, minX, minY + 10 * (k - 1), xSize);
      var n := |Grid(img, minX, xSize, minY, m)|;
      assert (prev + row)[..n] == prev[..n];
    }
  }

  /** Row j starts right after the first j rows. */
  lemma GridRowStart(img: Image, minX: int, xSize: nat, minY: int, j: nat, i: nat)
    requires img.Valid()
    requires Fits(minX, xSize, img.cols) && Fits(minY, j + 1, img.rows)
    requires i < xSize
    ensures |Grid(img, minX, xSize, minY, j)| + i < |Grid(img, minX, xSize, minY, j + 1)|
    ensures Grid(img, minX, xSize, minY, j + 1)[|Grid(img, minX, xSize, minY, j)| + i] == img.At(minY + 10 * j, minX + 10 * i)
  {
    GridRowAt(img, minX, minY + 10 * j, xSize, i);
    AppendIndex(Grid(img, minX, xSize, minY, j), GridRow(img, minX, minY + 10 * j, xSize), i);
  }

  lemma AppendIndex<T>(a: seq<T>, b: seq<T>, i: nat)
    requires i < |b|
    ensures |a| + i < |a + b| && (a + b)[|a| + i] == b[i]
  {
  }

  lemma {:induction false} GridRowAt(img: Image, minX: int, y: int, k: nat, i: nat)
    requires img.Valid() && 0 <= y < img.rows && Fits(minX, k, img.cols)
    requires i < k
    ensures GridRow(img, minX, y, k)[i] == img.At(y, minX + 10 * i)
  {
    if i < k - 1 {
      GridRowAt(img, minX, y, k - 1, i);
    }
  }

  /** The grid branch of `getSamplePoints`: rows minY, minY + 10, ... up to
      maxY, each row built by the inner loop. */
  method GridSamples(img: Image, minX: int, maxX: int, minY: int, maxY: int) returns (points: seq<Triple>)
    requires img.Valid() && 0 <= minX <= maxX < img.cols && 0 <= minY <= maxY < img.rows
    ensures points == Grid(img, minX, GridSize(minX, maxX), minY, GridSize(minY, maxY))
  {
    var xSize := GridSize(minX, maxX);
    points := [];
    ghost var k := 0;
    var y := minY;
    while y <= maxY
      invariant y == minY + 10 * k && y <= maxY + 10
      invariant points == Grid(img, minX, xSize, minY, k)
      decreases maxY - y
    {
      var row := GridRowSamples(img, minX, maxX, y);
      points := points + row;
      y, k := y + 10, k + 1;
    }
  }

  /** The inner loop of the grid branch: columns minX, minX + 10, ... up to maxX of row y. */
  method GridRowSamples(img: Image, minX: int, maxX: int, y: int) returns (row: seq<Triple>)
    requires img.Valid() && 0 <= minX <= maxX < img.cols && 0 <= y < img.rows
    ensures row == GridRow(img, minX, y, GridSize(minX, maxX))
  {
    row := [];
    ghost var k := 0;
    var x := minX;
    while x <= maxX
      invariant x == minX + 10 * k && x <= maxX + 10
      invariant row == GridRow(img, minX, y, k)
      decreases maxX - x
    {
      row := row + [img.At(y, x)];
      x, k := x + 10, k + 1;
    }
  }
}
