/** Seed segmentation by colour: a pixel of the HSV image is foreground
    (255) when it lies strictly inside the box around some target colour,
    and background (0) otherwise. The BGR to HSV conversion is OpenCV's, so
    the binarization takes the converted image. */
module HsvBinarization {
  import opened Numeric
  import opened Pixels

  /** One (target, range) pair: the box |v_c - target_c| < range_c on every channel. */
  datatype TargetRange = TargetRange(target: Triple, range: Triple)

  /** The strict box test of one pair. */
  predicate Hits(v: Triple, tr: TargetRange)
  {
    Abs(v.c0 - tr.target.c0) < tr.range.c0 &&
    Abs(v.c1 - tr.target.c1) < tr.range.c1 &&
    Abs(v.c2 - tr.target.c2) < tr.range.c2
  }

  /** The `hitting` flag after the pairs have been tried in order: once set,
      a later pair that misses does not clear it. */
  function Hitting(v: Triple, pairs: seq<TargetRange>): bool
  {
    if |pairs| == 0 then false
    else Hitting(v, pairs[..|pairs| - 1]) || Hits(v, pairs[|pairs| - 1])
  }

  /** The flag is set exactly when some pair's box holds the pixel. */
  lemma {:induction false} HittingIffSomeHit(v: Triple, pairs: seq<TargetRange>)
    ensures Hitting(v, pairs) <==> exists k :: 0 <= k < |pairs| && Hits(v, pairs[k])
  {
    if |pairs| > 0 {
      var p := pairs[..|pairs| - 1];
      HittingIffSomeHit(v, p);
      if Hitting(v, p) {
        var k :| 0 <= k < |p| && Hits(v, p[k]);
        assert pairs[k] == p[k];
      }
      if exists k :: 0 <= k < |pairs| && Hits(v, pairs[k]) {
        var k :| 0 <= k < |pairs| && Hits(v, pairs[k]);
        if k < |p| {
          assert p[k] == pairs[k];
        }
      }
    }
  }

  /** The value written to the mask for one pixel. */
  function MaskValue(v: Triple, pairs: seq<TargetRange>): int
  {
    if Hitting(v, pairs) then 255 else 0
  }

  /** A pixel is 255 exactly when some pair's box holds it, 0 exactly when
      none does; with no pairs every pixel is 0. */
  lemma MaskValueMeaning(v: Triple, pairs: seq<TargetRange>)
    ensures MaskValue(v, pairs) == 255 <==> exists k :: 0 <= k < |pairs| && Hits(v, pairs[k])
    ensures MaskValue(v, pairs) == 0 <==> forall k :: 0 <= k < |pairs| ==> !Hits(v, pairs[k])
    ensures |pairs| == 0 ==> MaskValue(v, pairs) == 0
  {
    HittingIffSomeHit(v, pairs);
  }

  /** Adding a pair anywhere in the list never turns a foreground pixel into background. */
  lemma AddingPairKeepsForeground(v: Triple, pairs: seq<TargetRange>, extra: TargetRange, at: nat)
    requires at <= |pairs| && MaskValue(v, pairs) == 255
    ensures MaskValue(v, pairs[..at] + [extra] + pairs[at..]) == 255
  {
    var more := pairs[..at] + [extra] + pairs[at..];
    MaskValueMeaning(v, pairs);
    var k :| 0 <= k < |pairs| && Hits(v, pairs[k]);
    if k < at {
      assert more[k] == pairs[k];
      MaskValueMeaning(v, more);
    } else {
      assert more[k + 1] == pairs[k];
      MaskValueMeaning(v, more);
    }
  }

  /** The test is strict: a pixel exactly on a box's edge in some channel is
      not foreground for that pair alone. */
  lemma EdgeIsBackground(v: Triple, tr: TargetRange)
    requires Abs(v.c0 - tr.target.c0) == tr.range.c0 || Abs(v.c1 - tr.target.c1) == tr.range.c1 ||
             Abs(v.c2 - tr.target.c2) == tr.range.c2
    ensures MaskValue(v, [tr]) == 0
  {
    MaskValueMeaning(v, [tr]);
  }

  /** The inner loop over the pairs for one pixel. */
  method PixelHit(v: Triple, pairs: seq<TargetRange>) returns (hitting: bool)
    ensures hitting == Hitting(v, pairs)
  {
    hitting := false;
    for k := 0 to |pairs|
      invariant hitting == Hitting(v, pairs[..k])
    {
      var tr := pairs[k];
      if Abs(v.c0 - tr.target.c0) < tr.range.c0 && Abs(v.c1 - tr.target.c1) < tr.range.c1 &&
         Abs(v.c2 - tr.target.c2) < tr.range.c2 {
        hitting := true;
      }
      assert pairs[..k + 1][..k] == pairs[..k];
    }
    assert pairs[..|pairs|] == pairs;
  }

  /** `apply`: a fresh one-channel mask of the image's size, pixel (i, j) set
      to 255 or 0 by the box test of the HSV pixel (i, j). */
  method Apply(hsv: Image, pairs: seq<TargetRange>) returns (output: array2<int>)
    requires hsv.Valid()
    ensures fresh(output) && output.Length0 == hsv.rows && output.Length1 == hsv.cols
    ensures forall i, j :: 0 <= i < hsv.rows && 0 <= j < hsv.cols ==> output[i, j] == MaskValue(hsv.At(i, j), pairs)
  {
    output := new int[hsv.rows, hsv.cols];
    for i := 0 to hsv.rows
      invariant forall y, x :: 0 <= y < i && 0 <= x < hsv.cols ==> output[y, x] == MaskValue(hsv.At(y, x), pairs)
    {
      MaskRow(output, hsv, pairs, i);
    }
  }

  /** One row of `apply`: every pixel of row i written, the other rows kept. */
  method MaskRow(output: array2<int>, hsv: Image, pairs: seq<TargetRange>, i: nat)
    requires hsv.Valid() && i < hsv.rows && output.Length0 == hsv.rows && output.Length1 == hsv.cols
    modifies output
    ensures forall y, x :: 0 <= y < hsv.rows && 0 <= x < hsv.cols ==>
      output[y, x] == if y == i then MaskValue(hsv.At(y, x), pairs) else old(output[y, x])
  {
    for j := 0 to hsv.cols
      invariant forall y, x :: 0 <= y < hsv.rows && 0 <= x < hsv.cols ==>
        output[y, x] == if y == i && x < j then MaskValue(hsv.At(y, x), pairs) else old(output[y, x])
    {
      var hitting := PixelHit(hsv.At(i, j), pairs);
      if hitting {
        output[i, j] := 255;
      } else {
        output[i, j] := 0;
      }
    }
  }
}
