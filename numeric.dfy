/** Small shared vocabulary: failure-carrying results, Java's numeric casts,
    colour triples, rasters and sums over sequences of reals. */
module Wrappers {

  datatype Option<+T> = None | Some(value: T) {
    function GetOr(default: T): T {
      match this
      case Some(v) => v
      case None => default
    }
  }

  datatype Result<+T, +E> = Ok(value: T) | Err(error: E)
}

module Numeric {

  /** Java's `(int)` cast of a double: truncation toward zero
      (the saturation at the 32-bit range and NaN are not modelled). */
  function Trunc(r: real): (n: int)
    ensures 0.0 <= r ==> 0 <= n && n as real <= r < n as real + 1.0
    ensures r < 0.0 ==> n <= 0 && n as real - 1.0 < r <= n as real
  {
    if r >= 0.0 then r.Floor else -((-r).Floor)
  }

  lemma TruncMonotone(a: real, b: real)
    requires a <= b
    ensures Trunc(a) <= Trunc(b)
  {
  }

  /** Java's `%` on int: the remainder takes the sign of the dividend. */
  function JavaRem(a: int, b: int): (r: int)
    requires b > 0
    ensures a >= 0 ==> 0 <= r < b
    ensures a < 0 ==> -b < r <= 0
  {
    if a >= 0 then a % b else -((-a) % b)
  }

  /** Clamps an index into [0, n): `Math.max(0, Math.min(n - 1, v))`. */
  function Clamp(v: int, n: nat): (r: int)
    requires n > 0
    ensures 0 <= r < n
    ensures 0 <= v < n ==> r == v
    ensures v < 0 ==> r == 0
    ensures v >= n ==> r == n - 1
  {
    if v < 0 then 0 else if v >= n then n - 1 else v
  }

  /** Clamping keeps the order of its arguments. */
  lemma ClampMonotone(a: int, b: int, n: nat)
    requires n > 0 && a <= b
    ensures Clamp(a, n) <= Clamp(b, n)
  {
  }

  function MinR(a: real, b: real): real { if a <= b then a else b }
  function MaxR(a: real, b: real): real { if a >= b then a else b }
  function Abs(a: real): real { if a < 0.0 then -a else a }

  /** Sum of a sequence, accumulated left to right as the source's loops do. */
  function Sum(s: seq<real>): real
  {
    if |s| == 0 then 0.0 else Sum(s[..|s| - 1]) + s[|s| - 1]
  }

  function SumSq(s: seq<real>): real
  {
    if |s| == 0 then 0.0 else SumSq(s[..|s| - 1]) + s[|s| - 1] * s[|s| - 1]
  }

  lemma SquareNonNegative(d: real)
    ensures d * d >= 0.0
  {
    if d < 0.0 {
      assert d * d == (-d) * (-d);
    }
  }

  /** Sum of squared deviations of the elements from `v`. */
  function SumSqDev(s: seq<real>, v: real): real
  {
    if |s| == 0 then 0.0 else SumSqDev(s[..|s| - 1], v) + (s[|s| - 1] - v) * (s[|s| - 1] - v)
  }

  lemma {:induction false} SumSqDevNonNegative(s: seq<real>, v: real)
    ensures SumSqDev(s, v) >= 0.0
  {
    if |s| > 0 {
      SumSqDevNonNegative(s[..|s| - 1], v);
      SquareNonNegative(s[|s| - 1] - v);
    }
  }

  lemma Regroup(q: real, t: real, n: real, x: real, v: real)
    ensures q - 2.0 * v * t + n * v * v + (x - v) * (x - v)
         == (q + x * x) - 2.0 * v * (t + x) + (n + 1.0) * v * v
  {
  }

  lemma {:induction false} SumSqDevExpanded(s: seq<real>, v: real)
    ensures SumSqDev(s, v) == SumSq(s) - 2.0 * v * Sum(s) + |s| as real * v * v
  {
    if |s| > 0 {
      var p, x := s[..|s| - 1], s[|s| - 1];
      SumSqDevExpanded(p, v);
      Regroup(SumSq(p), Sum(p), |p| as real, x, v);
    }
  }

  /** The squared deviations from x, expanded, add up to a non-negative number. */
  lemma ExpandedDeviationNonNegative(p: seq<real>, x: real)
    ensures SumSq(p) - 2.0 * x * Sum(p) + |p| as real * x * x >= 0.0
  {
    SumSqDevExpanded(p, x);
    SumSqDevNonNegative(p, x);
  }

  lemma VarianceAlgebra(n: real, q: real, t: real, m: real)
    requires n > 0.0 && m == t / n
    requires q - 2.0 * m * t + n * m * m >= 0.0
    ensures q / n - m * m >= 0.0
  {
    assert t == n * m;
    assert q - n * m * m >= 0.0;
    assert q / n - m * m == (q - n * m * m) / n;
  }

  /** The population variance of n > 0 values, the mean of the squares minus
      the squared mean, is never negative. */
  lemma VarianceNonNegative(s: seq<real>, n: real)
    requires |s| as real == n && n > 0.0
    ensures SumSq(s) / n - (Sum(s) / n) * (Sum(s) / n) >= 0.0
  {
    ExpandedDeviationNonNegative(s, Sum(s) / n);
    VarianceAlgebra(n, SumSq(s), Sum(s), Sum(s) / n);
  }

  /** One more element of a prefix: what a left-to-right accumulation adds. */
  lemma SumPrefixStep(s: seq<real>, k: nat)
    requires k < |s|
    ensures Sum(s[..k + 1]) == Sum(s[..k]) + s[k]
    ensures SumSq(s[..k + 1]) == SumSq(s[..k]) + s[k] * s[k]
  {
    assert s[..k + 1][..k] == s[..k];
  }

  /** Element k, known to be e, extends the prefix sums by e and e * e. */
  lemma MomentStep(s: seq<real>, k: nat, e: real)
    requires k < |s| && s[k] == e
    ensures Sum(s[..k + 1]) == Sum(s[..k]) + e && SumSq(s[..k + 1]) == SumSq(s[..k]) + e * e
  {
    SumPrefixStep(s, k);
  }

  /** Sums are additive over concatenation. */
  lemma {:induction false} SumAppend(a: seq<real>, b: seq<real>)
    ensures Sum(a + b) == Sum(a) + Sum(b)
  {
    if |b| > 0 {
      assert (a + b)[..|a + b| - 1] == a + b[..|b| - 1];
      SumAppend(a, b[..|b| - 1]);
    } else {
      assert a + b == a;
    }
  }

  /** Bounds on every element bound the sum. */
  lemma {:induction false} SumBounds(s: seq<real>, lo: real, hi: real)
    requires forall i :: 0 <= i < |s| ==> lo <= s[i] <= hi
    ensures |s| as real * lo <= Sum(s) <= |s| as real * hi
  {
    if |s| > 0 {
      SumBounds(s[..|s| - 1], lo, hi);
    }
  }
}

/** Colour triples, rasters and flat channel buffers. */
module Pixels {

  /** Three channels in buffer order (B, G, R for a BGR pixel). */
  datatype Triple = Triple(c0: real, c1: real, c2: real)

  /** A raster of `rows` x `cols` pixels, indexed [row][col]. */
  datatype Image = Image(rows: nat, cols: nat, px: seq<seq<Triple>>) {
    ghost predicate Valid() {
      |px| == rows && forall r :: 0 <= r < rows ==> |px[r]| == cols
    }

    function At(y: int, x: int): Triple
      requires Valid() && 0 <= y < rows && 0 <= x < cols
    {
      px[y][x]
    }
  }

  /** Rows [r0, r1) and columns [c0, c1) of an image: the view an OpenCV
      `new Mat(image, rows, cols)` makes. */
  function Submatrix(image: Image, r0: nat, r1: nat, c0: nat, c1: nat): (r: Image)
    requires image.Valid() && r0 <= r1 <= image.rows && c0 <= c1 <= image.cols
    ensures r.Valid() && r.rows == r1 - r0 && r.cols == c1 - c0
    ensures forall y, x :: 0 <= y < r.rows && 0 <= x < r.cols ==> r.At(y, x) == image.At(y + r0, x + c0)
  {
    Image(r1 - r0, c1 - c0, seq(r1 - r0, i requires 0 <= i < r1 - r0 => image.px[r0 + i][c0..c1]))
  }

  /** `Color.channel(buffer, k)`: the value at the buffer's position plus k. */
  function Channel(buf: array<real>, pos: nat, k: nat): real
    reads buf
    requires pos + k < buf.Length
  {
    buf[pos + k]
  }

  /** The three channels starting at the buffer's position. */
  function TripleAt(buf: array<real>, pos: nat): (t: Triple)
    reads buf
    requires pos + 3 <= buf.Length
    ensures t.c0 == buf[pos] && t.c1 == buf[pos + 1] && t.c2 == buf[pos + 2]
  {
    Triple(Channel(buf, pos, 0), Channel(buf, pos, 1), Channel(buf, pos, 2))
  }

  /** The buffer contents after three `put`s of `t` at pos, pos + 1 and pos + 2. */
  function WithTriple(s: seq<real>, pos: nat, t: Triple): (r: seq<real>)
    requires pos + 3 <= |s|
    ensures |r| == |s|
    ensures r[pos] == t.c0 && r[pos + 1] == t.c1 && r[pos + 2] == t.c2
    ensures forall i :: 0 <= i < |s| && (i < pos || pos + 3 <= i) ==> r[i] == s[i]
  {
    s[pos := t.c0][pos + 1 := t.c1][pos + 2 := t.c2]
  }
}
