/** Polynomial feature expansions of a colour triple used by the first-,
    second- and third-order least-squares models, with an independent
    reference definition: all monomials of each degree, written as
    non-decreasing channel-index sequences in lexicographic order. */
module Features {
  import opened Pixels

  /** Channel k (0, 1 or 2) of a triple. */
  function Ch(c: Triple, k: nat): real
    requires k < 3
  {
    if k == 0 then c.c0 else if k == 1 then c.c1 else c.c2
  }

  /** SimpleOLS: the three channels. */
  function SimpleFeatures(c: Triple): (f: seq<real>)
    ensures |f| == 3
    ensures forall k :: 0 <= k < 3 ==> f[k] == Ch(c, k)
  {
    [c.c0, c.c1, c.c2]
  }

  /** SecondOrderOLS: the channels, then every product of two channels. */
  function SecondOrderFeatures(c: Triple): (f: seq<real>)
    ensures |f| == 9
  {
    [c.c0, c.c1, c.c2,
     c.c0 * c.c0, c.c0 * c.c1, c.c0 * c.c2,
     c.c1 * c.c1, c.c1 * c.c2, c.c2 * c.c2]
  }

  /** ThirdOrderOLS: the second-order features, then every product of three channels. */
  function ThirdOrderFeatures(c: Triple): (f: seq<real>)
    ensures |f| == 19
  {
    [c.c0, c.c1, c.c2,
     c.c0 * c.c0, c.c0 * c.c1, c.c0 * c.c2,
     c.c1 * c.c1, c.c1 * c.c2, c.c2 * c.c2,
     c.c0 * c.c0 * c.c0, c.c0 * c.c0 * c.c1,
     c.c0 * c.c0 * c.c2, c.c0 * c.c1 * c.c1,
     c.c0 * c.c1 * c.c2, c.c0 * c.c2 * c.c2,
     c.c1 * c.c1 * c.c1, c.c1 * c.c1 * c.c2,
     c.c1 * c.c2 * c.c2, c.c2 * c.c2 * c.c2]
  }

  /** Each expansion starts with the whole expansion of the degree below. */
  lemma FeaturePrefixes(c: Triple)
    ensures SecondOrderFeatures(c)[..3] == SimpleFeatures(c)
    ensures ThirdOrderFeatures(c)[..9] == SecondOrderFeatures(c)
  {
    var f2, f3 := SecondOrderFeatures(c), ThirdOrderFeatures(c);
    assert forall k :: 0 <= k < 3 ==> f2[k] == SimpleFeatures(c)[k];
    assert forall k :: 0 <= k < 9 ==> f3[k] == f2[k];
  }

  /** Length of the expansion of each degree. */
  function FeatureCount(degree: nat): nat
  {
    if degree == 1 then 3 else if degree == 2 then 9 else 19
  }

  /** The expansion of a polynomial model of degree 1, 2 or 3. */
  function FeaturesOf(degree: nat, c: Triple): (f: seq<real>)
    requires 1 <= degree <= 3
    ensures |f| == FeatureCount(degree)
  {
    if degree == 1 then SimpleFeatures(c)
    else if degree == 2 then SecondOrderFeatures(c)
    else ThirdOrderFeatures(c)
  }

  /** getFeatures on a buffer: reads the three channels at the buffer's position. */
  function FeaturesAt(degree: nat, buf: array<real>, pos: nat): (f: seq<real>)
    reads buf
    requires 1 <= degree <= 3 && pos + 3 <= buf.Length
    ensures f == FeaturesOf(degree, Triple(buf[pos], buf[pos + 1], buf[pos + 2]))
  {
    FeaturesOf(degree, TripleAt(buf, pos))
  }

  // ----- Reference definition -----

  /** [i] prefixed to every sequence of s. */
  function Prepend(i: nat, s: seq<seq<nat>>): (r: seq<seq<nat>>)
    ensures |r| == |s| && forall k :: 0 <= k < |s| ==> r[k] == [i] + s[k]
  {
    seq(|s|, k requires 0 <= k < |s| => [i] + s[k])
  }

  /** All non-decreasing sequences of d channel indices drawn from lo..2, in
      lexicographic order. */
  function Combos(d: nat, lo: nat): seq<seq<nat>>
    decreases d, 3 - lo
  {
    if d == 0 then [[]]
    else if lo >= 3 then []
    else Prepend(lo, Combos(d - 1, lo)) + Combos(d, lo + 1)
  }

  /** The product of the channels named by an index sequence. */
  function Monomial(c: Triple, m: seq<nat>): real
  {
    if |m| == 0 then 1.0
    else if |m| == 1 then ChannelOrZero(c, m[0])
    else Monomial(c, m[..|m| - 1]) * ChannelOrZero(c, m[|m| - 1])
  }

  function ChannelOrZero(c: Triple, k: nat): real
  {
    if k < 3 then Ch(c, k) else 0.0
  }

  function Monomials(c: Triple, ms: seq<seq<nat>>): (r: seq<real>)
    ensures |r| == |ms| && forall k :: 0 <= k < |ms| ==> r[k] == Monomial(c, ms[k])
  {
    seq(|ms|, k requires 0 <= k < |ms| => Monomial(c, ms[k]))
  }

  /** Every monomial of degree 1, then 2, ..., up to the given degree. */
  function PolynomialFeatures(degree: nat, c: Triple): seq<real>
  {
    if degree == 0 then [] else PolynomialFeatures(degree - 1, c) + Monomials(c, Combos(degree, 0))
  }

  predicate NonDecreasing(m: seq<nat>)
  {
    forall i, j :: 0 <= i < j < |m| ==> m[i] <= m[j]
  }

  /** m names d channels, each at least lo, in non-decreasing order. */
  predicate IndexSeq(m: seq<nat>, d: nat, lo: nat)
  {
    |m| == d && NonDecreasing(m) && forall i :: 0 <= i < |m| ==> lo <= m[i] < 3
  }

  /** Strict lexicographic order on index sequences. */
  predicate LexLess(a: seq<nat>, b: seq<nat>)
  {
    exists k :: 0 <= k < |a| && k < |b| && a[..k] == b[..k] && a[k] < b[k]
  }

  predicate LexSorted(s: seq<seq<nat>>)
  {
    forall i, j :: 0 <= i < j < |s| ==> LexLess(s[i], s[j])
  }

  lemma PrependIs(i: nat, s: seq<seq<nat>>, t: seq<seq<nat>>)
    requires |s| == |t| && forall k :: 0 <= k < |s| ==> t[k] == [i] + s[k]
    ensures Prepend(i, s) == t
  {
  }

  lemma CombosOfDegreeOne()
    ensures Combos(1, 2) == [[2]] && Combos(1, 1) == [[1], [2]]
    ensures Combos(1, 0) == [[0], [1], [2]]
  {
    var e: seq<nat> := [];
    assert Combos(0, 0) == Combos(0, 1) == Combos(0, 2) == [e];
    assert Combos(1, 3) == [];
    PrependIs(2, [e], [[2]]);
    PrependIs(1, [e], [[1]]);
    PrependIs(0, [e], [[0]]);
  }

  lemma CombosOfDegreeTwo()
    ensures Combos(2, 2) == [[2, 2]] && Combos(2, 1) == [[1, 1], [1, 2], [2, 2]]
    ensures Combos(2, 0) == [[0, 0], [0, 1], [0, 2], [1, 1], [1, 2], [2, 2]]
  {
    CombosOfDegreeOne();
    assert Combos(2, 3) == [];
    PrependIs(2, [[2]], [[2, 2]]);
    PrependIs(1, [[1], [2]], [[1, 1], [1, 2]]);
    PrependIs(0, [[0], [1], [2]], [[0, 0], [0, 1], [0, 2]]);
  }

  lemma CombosOfDegreeThreeFromOne()
    ensures Combos(3, 1) == [[1, 1, 1], [1, 1, 2], [1, 2, 2], [2, 2, 2]]
  {
    CombosOfDegreeTwo();
    assert Combos(3, 3) == [];
    PrependIs(2, [[2, 2]], [[2, 2, 2]]);
    assert Combos(3, 2) == [[2, 2, 2]];
    PrependIs(1, [[1, 1], [1, 2], [2, 2]], [[1, 1, 1], [1, 1, 2], [1, 2, 2]]);
  }

  lemma CombosOfDegreeThree()
    ensures Combos(3, 0) == [[0, 0, 0], [0, 0, 1], [0, 0, 2], [0, 1, 1], [0, 1, 2],
                             [0, 2, 2], [1, 1, 1], [1, 1, 2], [1, 2, 2], [2, 2, 2]]
  {
    CombosOfDegreeTwo();
    CombosOfDegreeThreeFromOne();
    PrependIs(0, [[0, 0], [0, 1], [0, 2], [1, 1], [1, 2], [2, 2]],
                 [[0, 0, 0], [0, 0, 1], [0, 0, 2], [0, 1, 1], [0, 1, 2], [0, 2, 2]]);
  }

  /** The ten degree-3 combinations in two halves of five. */
  lemma CombosOfDegreeThreeHalves()
    ensures Combos(3, 0) == [[0, 0, 0], [0, 0, 1], [0, 0, 2], [0, 1, 1], [0, 1, 2]] +
                            [[0, 2, 2], [1, 1, 1], [1, 1, 2], [1, 2, 2], [2, 2, 2]]
  {
    CombosOfDegreeThree();
  }

  lemma MonomialOfOne(c: Triple, a: nat)
    requires a < 3
    ensures Monomial(c, [a]) == Ch(c, a)
  {
  }

  lemma MonomialOfTwo(c: Triple, a: nat, b: nat)
    requires a < 3 && b < 3
    ensures Monomial(c, [a, b]) == Ch(c, a) * Ch(c, b)
  {
    assert [a, b][..1] == [a];
  }

  lemma MonomialOfThree(c: Triple, a: nat, b: nat, d: nat)
    requires a < 3 && b < 3 && d < 3
    ensures Monomial(c, [a, b, d]) == Ch(c, a) * Ch(c, b) * Ch(c, d)
  {
    assert [a, b, d][..2] == [a, b];
    MonomialOfTwo(c, a, b);
  }

  lemma MonomialsAre(c: Triple, ms: seq<seq<nat>>, t: seq<real>)
    requires |ms| == |t| && forall k :: 0 <= k < |ms| ==> Monomial(c, ms[k]) == t[k]
    ensures Monomials(c, ms) == t
  {
  }

  lemma DegreeOneMonomials(c: Triple)
    ensures Monomials(c, Combos(1, 0)) == SimpleFeatures(c)
  {
    CombosOfDegreeOne();
    MonomialOfOne(c, 0); MonomialOfOne(c, 1); MonomialOfOne(c, 2);
    MonomialsAre(c, [[0], [1], [2]], SimpleFeatures(c));
  }

  lemma DegreeTwoMonomials(c: Triple)
    ensures Monomials(c, Combos(2, 0)) == SecondOrderFeatures(c)[3..]
  {
    CombosOfDegreeTwo();
    QuadraticMonomials(c, [[0, 0], [0, 1], [0, 2], [1, 1], [1, 2], [2, 2]]);
  }

  lemma QuadraticMonomials(c: Triple, ms: seq<seq<nat>>)
    requires ms == [[0, 0], [0, 1], [0, 2], [1, 1], [1, 2], [2, 2]]
    ensures Monomials(c, ms) == SecondOrderFeatures(c)[3..]
  {
    var t := SecondOrderFeatures(c)[3..];
    MonomialOfTwo(c, 0, 0); assert Monomial(c, ms[0]) == t[0];
    MonomialOfTwo(c, 0, 1); assert Monomial(c, ms[1]) == t[1];
    MonomialOfTwo(c, 0, 2); assert Monomial(c, ms[2]) == t[2];
    MonomialOfTwo(c, 1, 1); assert Monomial(c, ms[3]) == t[3];
    MonomialOfTwo(c, 1, 2); assert Monomial(c, ms[4]) == t[4];
    MonomialOfTwo(c, 2, 2); assert Monomial(c, ms[5]) == t[5];
    MonomialsAre(c, ms, t);
  }

  lemma MonomialsAppend(c: Triple, a: seq<seq<nat>>, b: seq<seq<nat>>)
    ensures Monomials(c, a + b) == Monomials(c, a) + Monomials(c, b)
  {
  }

  lemma DegreeThreeMonomials(c: Triple)
    ensures Monomials(c, Combos(3, 0)) == ThirdOrderFeatures(c)[9..]
  {
    CombosOfDegreeThreeHalves();
    var a, b := [[0, 0, 0], [0, 0, 1], [0, 0, 2], [0, 1, 1], [0, 1, 2]],
                [[0, 2, 2], [1, 1, 1], [1, 1, 2], [1, 2, 2], [2, 2, 2]];
    MonomialsAppend(c, a, b);
    CubicMonomialsFirst(c, a);
    CubicMonomialsSecond(c, b);
    SliceSplit(ThirdOrderFeatures(c), 9, 14);
  }

  lemma SliceSplit<T>(t: seq<T>, i: nat, j: nat)
    requires i <= j <= |t|
    ensures t[i..] == t[i..j] + t[j..]
  {
  }

  /** A degree-3 monomial, with its three channels named by the caller. */
  lemma CubicEntry(c: Triple, a: nat, b: nat, d: nat, x: real, y: real, z: real)
    requires a < 3 && b < 3 && d < 3
    requires x == Ch(c, a) && y == Ch(c, b) && z == Ch(c, d)
    ensures Monomial(c, [a, b, d]) == x * y * z
  {
    MonomialOfThree(c, a, b, d);
  }

  lemma CubicMonomialsFirst(c: Triple, ms: seq<seq<nat>>)
    requires ms == [[0, 0, 0], [0, 0, 1], [0, 0, 2], [0, 1, 1], [0, 1, 2]]
    ensures Monomials(c, ms) == ThirdOrderFeatures(c)[9..14]
  {
    var t := ThirdOrderFeatures(c)[9..14];
    CubicEntry(c, 0, 0, 0, c.c0, c.c0, c.c0);
    CubicEntry(c, 0, 0, 1, c.c0, c.c0, c.c1);
    CubicEntry(c, 0, 0, 2, c.c0, c.c0, c.c2);
    CubicEntry(c, 0, 1, 1, c.c0, c.c1, c.c1);
    CubicEntry(c, 0, 1, 2, c.c0, c.c1, c.c2);
    MonomialsAre(c, ms, t);
  }

  lemma CubicMonomialsSecond(c: Triple, ms: seq<seq<nat>>)
    requires ms == [[0, 2, 2], [1, 1, 1], [1, 1, 2], [1, 2, 2], [2, 2, 2]]
    ensures Monomials(c, ms) == ThirdOrderFeatures(c)[14..]
  {
    var t := ThirdOrderFeatures(c)[14..];
    CubicEntry(c, 0, 2, 2, c.c0, c.c2, c.c2);
    CubicEntry(c, 1, 1, 1, c.c1, c.c1, c.c1);
    CubicEntry(c, 1, 1, 2, c.c1, c.c1, c.c2);
    CubicEntry(c, 1, 2, 2, c.c1, c.c2, c.c2);
    CubicEntry(c, 2, 2, 2, c.c2, c.c2, c.c2);
    MonomialsAre(c, ms, t);
  }

  /** Each hand-written expansion lists exactly the monomials of degree 1, 2,
      3 in the reference order. */
  lemma FeaturesAreMonomials(c: Triple)
    ensures SimpleFeatures(c) == PolynomialFeatures(1, c)
    ensures SecondOrderFeatures(c) == PolynomialFeatures(2, c)
    ensures ThirdOrderFeatures(c) == PolynomialFeatures(3, c)
  {
    DegreeOneMonomials(c);
    DegreeTwoMonomials(c);
    DegreeThreeMonomials(c);
    FeaturePrefixes(c);
    var f2, f3 := SecondOrderFeatures(c), ThirdOrderFeatures(c);
    assert PolynomialFeatures(1, c) == [] + SimpleFeatures(c);
    assert f2 == f2[..3] + f2[3..];
    assert f3 == f3[..9] + f3[9..];
  }

  lemma PrependWellFormed(lo: nat, tail: seq<seq<nat>>, d: nat)
    requires d > 0 && lo < 3
    requires forall k :: 0 <= k < |tail| ==> IndexSeq(tail[k], d - 1, lo)
    ensures forall k :: 0 <= k < |tail| ==> IndexSeq(Prepend(lo, tail)[k], d, lo)
  {
    forall k | 0 <= k < |tail|
      ensures IndexSeq(Prepend(lo, tail)[k], d, lo)
    {
      var m := Prepend(lo, tail)[k];
      assert m == [lo] + tail[k];
      assert forall i :: 1 <= i < |m| ==> m[i] == tail[k][i - 1];
    }
  }

  /** Every entry of Combos(d, lo) names d channels from lo..2 in non-decreasing order. */
  lemma {:induction false} CombosWellFormed(d: nat, lo: nat)
    ensures forall k :: 0 <= k < |Combos(d, lo)| ==> IndexSeq(Combos(d, lo)[k], d, lo)
    decreases d, 3 - lo
  {
    if d > 0 && lo < 3 {
      var tail, rest := Combos(d - 1, lo), Combos(d, lo + 1);
      CombosWellFormed(d - 1, lo);
      CombosWellFormed(d, lo + 1);
      PrependWellFormed(lo, tail, d);
      var all := Prepend(lo, tail) + rest;
      assert Combos(d, lo) == all;
      forall k | 0 <= k < |all|
        ensures IndexSeq(all[k], d, lo)
      {
        if k >= |tail| {
          assert all[k] == rest[k - |tail|];
          assert IndexSeq(rest[k - |tail|], d, lo + 1);
        }
      }
    }
  }

  lemma TailIsIndexSeq(m: seq<nat>, d: nat, lo: nat)
    requires d > 0 && IndexSeq(m, d, lo) && m[0] == lo
    ensures IndexSeq(m[1..], d - 1, lo) && m == [lo] + m[1..]
  {
  }

  lemma RaiseLowerBound(m: seq<nat>, d: nat, lo: nat)
    requires d > 0 && IndexSeq(m, d, lo) && m[0] != lo
    ensures IndexSeq(m, d, lo + 1)
  {
    forall i | 0 <= i < |m|
      ensures lo + 1 <= m[i]
    {
      assert m[0] <= m[i];
    }
  }

  lemma InPrepend(lo: nat, tail: seq<seq<nat>>, x: seq<nat>)
    requires x in tail
    ensures [lo] + x in Prepend(lo, tail)
  {
    var k :| 0 <= k < |tail| && tail[k] == x;
    assert Prepend(lo, tail)[k] == [lo] + x;
  }

  /** Every non-decreasing sequence of d indices from lo..2 is among Combos(d, lo). */
  lemma {:induction false} CombosComplete(d: nat, lo: nat, m: seq<nat>)
    requires IndexSeq(m, d, lo)
    ensures m in Combos(d, lo)
    decreases d, 3 - lo
  {
    if d == 0 {
      assert m == [];
    } else {
      assert lo <= m[0] < 3;
      if m[0] == lo {
        TailIsIndexSeq(m, d, lo);
        CombosComplete(d - 1, lo, m[1..]);
        InPrepend(lo, Combos(d - 1, lo), m[1..]);
      } else {
        RaiseLowerBound(m, d, lo);
        CombosComplete(d, lo + 1, m);
      }
    }
  }

  lemma PrependSorted(lo: nat, tail: seq<seq<nat>>)
    requires LexSorted(tail)
    ensures LexSorted(Prepend(lo, tail))
  {
    var pre := Prepend(lo, tail);
    forall i, j | 0 <= i < j < |pre|
      ensures LexLess(pre[i], pre[j])
    {
      var k :| 0 <= k < |tail[i]| && k < |tail[j]| && tail[i][..k] == tail[j][..k] && tail[i][k] < tail[j][k];
      assert pre[i][..k + 1] == [lo] + tail[i][..k];
      assert pre[j][..k + 1] == [lo] + tail[j][..k];
      assert pre[i][k + 1] == tail[i][k] && pre[j][k + 1] == tail[j][k];
    }
  }

  lemma ConcatSorted(a: seq<seq<nat>>, b: seq<seq<nat>>)
    requires LexSorted(a) && LexSorted(b)
    requires forall i, j :: 0 <= i < |a| && 0 <= j < |b| ==> LexLess(a[i], b[j])
    ensures LexSorted(a + b)
  {
    var all := a + b;
    forall i, j | 0 <= i < j < |all|
      ensures LexLess(all[i], all[j])
    {
      if j < |a| {
        assert all[i] == a[i] && all[j] == a[j];
      } else if i < |a| {
        assert all[i] == a[i] && all[j] == b[j - |a|];
      } else {
        assert all[i] == b[i - |a|] && all[j] == b[j - |a|];
      }
    }
  }

  /** Combos(d, lo) is strictly increasing in lexicographic order, so no
      monomial is listed twice. */
  lemma {:induction false} CombosSorted(d: nat, lo: nat)
    ensures LexSorted(Combos(d, lo))
    decreases d, 3 - lo
  {
    if d > 0 && lo < 3 {
      var tail, rest := Combos(d - 1, lo), Combos(d, lo + 1);
      var pre := Prepend(lo, tail);
      CombosSorted(d - 1, lo);
      CombosSorted(d, lo + 1);
      CombosWellFormed(d, lo + 1);
      PrependSorted(lo, tail);
      forall i, j | 0 <= i < |pre| && 0 <= j < |rest|
        ensures LexLess(pre[i], rest[j])
      {
        assert IndexSeq(rest[j], d, lo + 1);
        assert pre[i][0] == lo && rest[j][0] >= lo + 1;
        assert pre[i][..0] == rest[j][..0];
      }
      ConcatSorted(pre, rest);
    }
  }

  /** Lexicographically ordered sequences are distinct. */
  lemma SortedDistinct(s: seq<seq<nat>>)
    requires LexSorted(s)
    ensures forall i, j :: 0 <= i < j < |s| ==> s[i] != s[j]
  {
  }
}
