/** A colour viewed through a BGR buffer with a lazily computed Lab triple,
    and the paired actual/reference colour lists of a chart whose distance is
    averaged by a colour metric. */
module ColorMetric {
  import opened Wrappers
  import opened Numeric
  import opened Pixels

  /** OpenCV's BGR -> Lab conversion of one colour (8-bit Lab scale), left abstract. */
  type LabConversion = Triple -> Triple

  /** The human-friendly Lab reading of an 8-bit Lab triple: L rescaled to
      0..100, a and b centred on zero. */
  function LabOffsets(raw: Triple): (h: Triple)
    ensures raw == RawLab(h)
  {
    Triple(raw.c0 / 2.55, raw.c1 - 128.0, raw.c2 - 128.0)
  }

  /** The 8-bit Lab triple a human-friendly reading came from. */
  function RawLab(h: Triple): (raw: Triple)
  {
    Triple(h.c0 * 2.55, h.c1 + 128.0, h.c2 + 128.0)
  }

  lemma OffsetsRoundTrip(h: Triple)
    ensures LabOffsets(RawLab(h)) == h
  {
  }

  class Color {
    /** The wrapped buffer, shared with the caller, and its position. */
    const bgr: array<real>
    const pos: nat
    /** The Lab triple, filled on first use. */
    var lab: Option<Triple>

    ghost predicate Valid()
      reads this
    {
      pos + 3 <= bgr.Length
    }

    constructor (bgr: array<real>, pos: nat)
      requires pos + 3 <= bgr.Length
      ensures this.bgr == bgr && this.pos == pos && lab == None && Valid()
    {
      this.bgr := bgr;
      this.pos := pos;
      lab := None;
    }

    /** The current blue, green and red values in the wrapped buffer. */
    function Bgr(): (t: Triple)
      reads this, bgr
      requires Valid()
      ensures t == Triple(bgr[pos], bgr[pos + 1], bgr[pos + 2])
    {
      TripleAt(bgr, pos)
    }

    function Blue(): (v: real)
      reads this, bgr
      requires Valid()
      ensures v == Bgr().c0
    {
      Channel(bgr, pos, 0)
    }

    function Green(): (v: real)
      reads this, bgr
      requires Valid()
      ensures v == Bgr().c1
    {
      Channel(bgr, pos, 1)
    }

    function Red(): (v: real)
      reads this, bgr
      requires Valid()
      ensures v == Bgr().c2
    {
      Channel(bgr, pos, 2)
    }

    /** Fills the cache from the buffer's current colour, only while it is empty:
        once filled, later changes to the shared buffer are not seen. */
    method CalculateLab(toLab: LabConversion)
      requires Valid()
      modifies this`lab
      ensures lab == if old(lab).None? then Some(toLab(Bgr())) else old(lab)
    {
      if lab.None? {
        lab := Some(toLab(TripleAt(bgr, pos)));
      }
    }

    method Lightness(toLab: LabConversion) returns (v: real)
      requires Valid()
      modifies this`lab
      ensures lab == if old(lab).None? then Some(toLab(Bgr())) else old(lab)
      ensures lab.Some? && v == LabOffsets(lab.value).c0
    {
      CalculateLab(toLab);
      v := lab.value.c0 / 2.55;
    }

    method A(toLab: LabConversion) returns (v: real)
      requires Valid()
      modifies this`lab
      ensures lab == if old(lab).None? then Some(toLab(Bgr())) else old(lab)
      ensures lab.Some? && v == LabOffsets(lab.value).c1
    {
      CalculateLab(toLab);
      v := lab.value.c1 - 128.0;
    }

    method B(toLab: LabConversion) returns (v: real)
      requires Valid()
      modifies this`lab
      ensures lab == if old(lab).None? then Some(toLab(Bgr())) else old(lab)
      ensures lab.Some? && v == LabOffsets(lab.value).c2
    {
      CalculateLab(toLab);
      v := lab.value.c2 - 128.0;
    }
  }

  /** A colour metric over two BGR colours (Euclidean in RGB or in Lab). */
  type Metric = (Triple, Triple) -> real

  /** The metric of each (actual, reference) pair. */
  function PairMetrics(actual: seq<Triple>, reference: seq<Triple>, metric: Metric): (d: seq<real>)
    requires |actual| == |reference|
    ensures |d| == |actual| && forall i :: 0 <= i < |d| ==> d[i] == metric(actual[i], reference[i])
  {
    seq(|actual|, i requires 0 <= i < |actual| => metric(actual[i], reference[i]))
  }

  function Mean(s: seq<real>): real
    requires |s| > 0
  {
    Sum(s) / |s| as real
  }

  /** The mean lies between the smallest and the largest possible element. */
  lemma MeanBounds(s: seq<real>, lo: real, hi: real)
    requires |s| > 0
    requires forall i :: 0 <= i < |s| ==> lo <= s[i] <= hi
    ensures lo <= Mean(s) <= hi
  {
    SumBounds(s, lo, hi);
    var n := |s| as real;
    assert Sum(s) / n >= lo by { assert Sum(s) >= n * lo; }
    assert Sum(s) / n <= hi by { assert Sum(s) <= n * hi; }
  }

  /** Appending one pair moves the mean by the weighted new value. */
  lemma MeanAppend(s: seq<real>, x: real)
    requires |s| > 0
    ensures Mean(s + [x]) * (|s| + 1) as real == Mean(s) * |s| as real + x
  {
    assert (s + [x])[..|s|] == s;
  }

  /** The two colour lists of one chart, paired by index. */
  class CellColors {
    var actual: seq<Triple>
    var reference: seq<Triple>

    ghost predicate Valid()
      reads this
    {
      |actual| == |reference|
    }

    constructor ()
      ensures actual == [] && reference == [] && Valid()
    {
      actual := [];
      reference := [];
    }

    method AddColor(actualColor: Triple, referenceColor: Triple)
      requires Valid()
      modifies this
      ensures Valid()
      ensures actual == old(actual) + [actualColor] && reference == old(reference) + [referenceColor]
    {
      actual := actual + [actualColor];
      reference := reference + [referenceColor];
    }

    /** The mean distance over all pairs; with no pairs the source divides 0.0 by 0. */
    method CalculateMetric(metric: Metric) returns (m: real)
      requires Valid() && |reference| > 0
      ensures m == Mean(PairMetrics(actual, reference, metric))
    {
      var sum := 0.0;
      var i := 0;
      ghost var d := PairMetrics(actual, reference, metric);
      while i < |reference|
        invariant 0 <= i <= |reference|
        invariant sum == Sum(d[..i])
      {
        assert d[..i + 1][..i] == d[..i];
        sum := sum + metric(actual[i], reference[i]);
        i := i + 1;
      }
      assert d[..i] == d;
      m := sum / |reference| as real;
    }
  }
}
