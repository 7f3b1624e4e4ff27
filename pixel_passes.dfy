/** A flat BGR buffer of whole pixels and the per-pixel passes run over it:
    which pixels a pass reaches, and what several passes do together. */
module PixelPasses {
  import opened Pixels

  /** Pixel p of a flat buffer: slots 3p, 3p + 1 and 3p + 2. */
  function PixelAt(s: seq<real>, p: nat): Triple
    requires 3 * p + 3 <= |s|
  {
    Triple(s[3 * p], s[3 * p + 1], s[3 * p + 2])
  }

  function Slot(t: Triple, k: nat): real
    requires k < 3
  {
    if k == 0 then t.c0 else if k == 1 then t.c1 else t.c2
  }

  /** The buffer after `f` has been applied in place to pixels 0 .. n - 1, in order. */
  function MapPixels(s: seq<real>, n: nat, f: Triple -> Triple): (r: seq<real>)
    requires 3 * n <= |s|
    ensures |r| == |s|
  {
    if n == 0 then s else WithTriple(MapPixels(s, n - 1, f), 3 * (n - 1), f(PixelAt(s, n - 1)))
  }

  /** A pass over n pixels maps each of them through f and keeps every later slot. */
  lemma {:induction false} MapPixelsSpec(s: seq<real>, n: nat, f: Triple -> Triple)
    requires 3 * n <= |s|
    ensures forall p :: 0 <= p < n ==> PixelAt(MapPixels(s, n, f), p) == f(PixelAt(s, p))
    ensures forall i :: 3 * n <= i < |s| ==> MapPixels(s, n, f)[i] == s[i]
  {
    if n > 0 {
      MapPixelsSpec(s, n - 1, f);
      var prev := MapPixels(s, n - 1, f);
      assert forall p :: 0 <= p < n - 1 ==> PixelAt(MapPixels(s, n, f), p) == PixelAt(prev, p);
    }
  }

  /** One more pixel: what a pass's loop body does to the buffer built so far. */
  lemma MapPixelsStep(s: seq<real>, n: nat, f: Triple -> Triple)
    requires 3 * n + 3 <= |s|
    ensures PixelAt(MapPixels(s, n, f), n) == PixelAt(s, n)
    ensures MapPixels(s, n + 1, f) == WithTriple(MapPixels(s, n, f), 3 * n, f(PixelAt(MapPixels(s, n, f), n)))
  {
    MapPixelsSpec(s, n, f);
  }

  /** A pass's loop body as a whole: writing f of pixel n over pixel n of the
      buffer built so far gives the buffer with one more pixel mapped. */
  lemma PassStep(s: seq<real>, n: nat, f: Triple -> Triple, cur: seq<real>, t: Triple, next: seq<real>)
    requires 3 * n + 3 <= |s| && cur == MapPixels(s, n, f)
    requires t == PixelAt(cur, n) && next == WithTriple(cur, 3 * n, f(t))
    ensures next == MapPixels(s, n + 1, f)
  {
    MapPixelsStep(s, n, f);
  }

  /** Two buffers that agree on pixels 0 .. n - 1 and on every slot after them are equal. */
  lemma SameBuffers(a: seq<real>, b: seq<real>, n: nat)
    requires |a| == |b| && 3 * n <= |a|
    requires forall p :: 0 <= p < n ==> PixelAt(a, p) == PixelAt(b, p)
    requires forall i :: 3 * n <= i < |a| ==> a[i] == b[i]
    ensures a == b
  {
    forall i | 0 <= i < |a|
      ensures a[i] == b[i]
    {
      if i < 3 * n {
        var p := i / 3;
        assert PixelAt(a, p) == PixelAt(b, p);
        assert i == 3 * p || i == 3 * p + 1 || i == 3 * p + 2;
      }
    }
  }

  /** Running pass f and then pass g over the same pixels is one pass of g after f. */
  lemma MapPixelsCompose(s: seq<real>, n: nat, f: Triple -> Triple, g: Triple -> Triple)
    requires 3 * n <= |s|
    ensures MapPixels(MapPixels(s, n, f), n, g) == MapPixels(s, n, t => g(f(t)))
  {
    var a, b := MapPixels(MapPixels(s, n, f), n, g), MapPixels(s, n, t => g(f(t)));
    MapPixelsSpec(s, n, f);
    MapPixelsSpec(MapPixels(s, n, f), n, g);
    MapPixelsSpec(s, n, t => g(f(t)));
    SameBuffers(a, b, n);
  }

  /** How many pixels a pass `for (i = 0; i + 3 < size; i += 3)` reaches. */
  function AsWrittenPixelCount(size: nat): (n: nat)
    ensures 3 * n <= size
    ensures forall p: nat :: p < n <==> 3 * p + 3 < size
  {
    if size == 0 then 0 else (size - 1) / 3
  }

  /** How many pixels a pass `for (i = 0; i + 3 <= size; i += 3)` reaches. */
  function PixelCount(size: nat): (n: nat)
    ensures 3 * n <= size
    ensures forall p: nat :: p < n <==> 3 * p + 3 <= size
  {
    size / 3
  }

  /** The as-written loop bound never reaches the last pixel of a buffer of
      whole pixels: that pixel keeps its input value whatever the pass does. */
  lemma LastPixelSkipped(s: seq<real>, f: Triple -> Triple)
    requires |s| % 3 == 0 && |s| >= 3
    ensures AsWrittenPixelCount(|s|) == |s| / 3 - 1
    ensures PixelAt(MapPixels(s, AsWrittenPixelCount(|s|), f), |s| / 3 - 1) == PixelAt(s, |s| / 3 - 1)
  {
    var n := AsWrittenPixelCount(|s|);
    MapPixelsSpec(s, n, f);
    assert !(n < n);
    assert 3 * (|s| / 3 - 1) + 3 == |s|;
  }

  /** With the bound `i + 3 <= size`, a pass over a buffer of whole pixels
      maps every pixel, the last one included. */
  lemma AllPixelsMapped(s: seq<real>, f: Triple -> Triple)
    requires |s| % 3 == 0
    ensures PixelCount(|s|) == |s| / 3
    ensures forall p :: 0 <= p < |s| / 3 ==> PixelAt(MapPixels(s, PixelCount(|s|), f), p) == f(PixelAt(s, p))
  {
    MapPixelsSpec(s, PixelCount(|s|), f);
  }

  /** A one-pixel image whose calibration should change it comes back unchanged. */
  lemma SinglePixelUnconverted()
    ensures var s, f := [10.0, 20.0, 30.0], (t: Triple) => Triple(0.0, 0.0, 0.0);
      MapPixels(s, AsWrittenPixelCount(|s|), f) == s &&
      MapPixels(s, PixelCount(|s|), f) == [0.0, 0.0, 0.0]
  {
    var s, f := [10.0, 20.0, 30.0], (t: Triple) => Triple(0.0, 0.0, 0.0);
    assert AsWrittenPixelCount(3) == 0;
    assert PixelCount(3) == 1;
    var r := MapPixels(s, 1, f);
    assert PixelAt(r, 0) == Triple(0.0, 0.0, 0.0);
  }
}
