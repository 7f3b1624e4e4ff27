/** The colour-correction models: an identity baseline and least-squares
    polynomial models of order 1, 2 and 3, each fitting the three output
    channels independently on the same feature rows. The least-squares solver
    and the LU determinant are parameters. */
module Regression {
  import opened Wrappers
  import opened Numeric
  import opened Pixels
  import opened Features
  import ColorMetric

  /** `RegressionFactory.Order`, in declaration order. */
  datatype Order = Identity | First | Second | Third

  function OrderIndex(o: Order): (i: nat)
    ensures i < 4
  {
    match o
    case Identity => 0
    case First => 1
    case Second => 2
    case Third => 3
  }

  lemma OrderValues(o: Order)
    ensures o == [Identity, First, Second, Third][OrderIndex(o)]
  {
  }

  function Degree(o: Order): (d: nat)
    requires o != Identity
    ensures 1 <= d <= 3 && d == OrderIndex(o)
  {
    match o
    case First => 1
    case Second => 2
    case Third => 3
  }

  /** Number of features of an order: 3, 9 or 19. */
  function OrderFeatureCount(o: Order): (n: nat)
    requires o != Identity
    ensures n == FeatureCount(Degree(o))
    ensures n == (if o == First then 3 else if o == Second then 9 else 19)
  {
    FeatureCount(Degree(o))
  }

  /** The simple class name of the model `RegressionFactory.createModel`
      instantiates for a non-identity order. */
  function ClassName(o: Order): (s: string)
    requires o != Identity
    ensures |s| >= 9 && s[|s| - 3..] == "OLS"
  {
    match o
    case First => "SimpleOLS"
    case Second => "SecondOrderOLS"
    case Third => "ThirdOrderOLS"
  }

  /** What `getName` appends for an intercept model. */
  function InterceptSuffix(intercept: bool): string
  {
    if intercept then "Intercept" else ""
  }

  /** Different (order, intercept) pairs get different names: the six names
      have six different lengths. */
  lemma NamesDistinct(o1: Order, i1: bool, o2: Order, i2: bool)
    requires o1 != Identity && o2 != Identity
    ensures ClassName(o1) + InterceptSuffix(i1) == ClassName(o2) + InterceptSuffix(i2) <==> o1 == o2 && i1 == i2
  {
    var n1, n2 := ClassName(o1) + InterceptSuffix(i1), ClassName(o2) + InterceptSuffix(i2);
    assert |n1| == |ClassName(o1)| + 9 * Offset(i1);
    assert |n2| == |ClassName(o2)| + 9 * Offset(i2);
  }

  function Offset(intercept: bool): nat
  {
    if intercept then 1 else 0
  }

  /** OLSMultipleLinearRegression: from the design rows, the answers and
      whether an intercept is fitted (the negation of `setNoIntercept`), the
      coefficients, or None when the design matrix is singular. */
  type Fit = (seq<seq<real>>, seq<real>, bool) -> Option<seq<real>>

  /** The LU determinant of a square matrix. */
  type Determinant = seq<seq<real>> -> real

  datatype Failure = SingularMatrix | DimensionMismatch

  /** Feature rows of the first n samples. */
  function Design(degree: nat, samples: seq<Triple>, n: nat): (rows: seq<seq<real>>)
    requires 1 <= degree <= 3 && n <= |samples|
    ensures |rows| == n && forall i :: 0 <= i < n ==> rows[i] == FeaturesOf(degree, samples[i])
  {
    seq(n, i requires 0 <= i < n => FeaturesOf(degree, samples[i]))
  }

  /** Channel k of every colour. */
  function Column(colors: seq<Triple>, k: nat): (col: seq<real>)
    requires k < 3
    ensures |col| == |colors| && forall i :: 0 <= i < |colors| ==> col[i] == Ch(colors[i], k)
  {
    seq(|colors|, i requires 0 <= i < |colors| => Ch(colors[i], k))
  }

  /** Sum of f[i] * b[i], accumulated left to right. */
  function Dot(f: seq<real>, b: seq<real>): real
    requires |f| == |b|
  {
    if |f| == 0 then 0.0 else Dot(f[..|f| - 1], b[..|b| - 1]) + f[|f| - 1] * b[|b| - 1]
  }

  /** The fitted polynomial at the features: the intercept coefficient (when
      fitted) plus the dot product of the features with the other coefficients. */
  function Estimate(f: seq<real>, beta: seq<real>, intercept: bool): real
    requires |beta| == |f| + Offset(intercept)
  {
    (if intercept then beta[0] else 0.0) + Dot(f, beta[Offset(intercept)..])
  }

  lemma {:induction false} DotPrepend(x: real, f: seq<real>, y: real, b: seq<real>)
    requires |f| == |b|
    ensures Dot([x] + f, [y] + b) == x * y + Dot(f, b)
  {
    if |f| > 0 {
      var n := |f|;
      assert ([x] + f)[..n] == [x] + f[..n - 1];
      assert ([y] + b)[..n] == [y] + b[..n - 1];
      DotPrepend(x, f[..n - 1], y, b[..n - 1]);
    } else {
      assert Dot([x], [y]) == Dot([], []) + x * y;
    }
  }

  /** Fitting an intercept is the same as fitting without one on features
      prefixed with a constant 1. */
  lemma InterceptIsConstantFeature(f: seq<real>, beta: seq<real>)
    requires |beta| == |f| + 1
    ensures Estimate(f, beta, true) == Estimate([1.0] + f, beta, false)
  {
    DotPrepend(1.0, f, beta[0], beta[1..]);
    assert [beta[0]] + beta[1..] == beta;
  }

  /** The estimate is linear in the coefficients. */
  lemma {:induction false} DotLinear(f: seq<real>, b1: seq<real>, b2: seq<real>, b: seq<real>)
    requires |f| == |b1| == |b2| == |b|
    requires forall i :: 0 <= i < |b| ==> b[i] == b1[i] + b2[i]
    ensures Dot(f, b) == Dot(f, b1) + Dot(f, b2)
  {
    if |f| > 0 {
      var n := |f| - 1;
      DotLinear(f[..n], b1[..n], b2[..n], b[..n]);
    }
  }

  /** The fit of output channel k: the features of the first |answers| training
      colours against channel k of the answers. */
  function ChannelFit(degree: nat, intercept: bool, train: seq<Triple>, answers: seq<Triple>,
                      k: nat, fit: Fit): Option<seq<real>>
    requires 1 <= degree <= 3 && |answers| <= |train| && k < 3
  {
    fit(Design(degree, train, |answers|), Column(answers, k), intercept)
  }

  /** Each channel's fit depends only on that channel of the answers. */
  lemma ChannelIndependence(degree: nat, intercept: bool, train: seq<Triple>,
                            a: seq<Triple>, b: seq<Triple>, k: nat, fit: Fit)
    requires 1 <= degree <= 3 && |a| == |b| <= |train| && k < 3
    requires forall i :: 0 <= i < |a| ==> Ch(a[i], k) == Ch(b[i], k)
    ensures ChannelFit(degree, intercept, train, a, k, fit) == ChannelFit(degree, intercept, train, b, k, fit)
  {
    assert Column(a, k) == Column(b, k);
  }

  lemma FeatureColumnStep(degree: nat, target: seq<Triple>, j: nat, k: nat)
    requires 1 <= degree <= 3 && k < FeatureCount(degree) && j < |target|
    ensures FeatureColumn(degree, target[..j + 1], k) == FeatureColumn(degree, target[..j], k) + [FeaturesOf(degree, target[j])[k]]
  {
    var a, b := FeatureColumn(degree, target[..j + 1], k), FeatureColumn(degree, target[..j], k);
    assert forall i :: 0 <= i < j ==> a[i] == b[i];
  }

  /** The row [1, 0, ..., 0] of length dim. */
  function UnitRow(dim: nat): (r: seq<real>)
    requires dim > 0
    ensures |r| == dim && r[0] == 1.0 && forall j :: 1 <= j < dim ==> r[j] == 0.0
  {
    seq(dim, j => if j == 0 then 1.0 else 0.0)
  }

  /** Feature k of every target colour. */
  function FeatureColumn(degree: nat, target: seq<Triple>, k: nat): (col: seq<real>)
    requires 1 <= degree <= 3 && k < FeatureCount(degree)
    ensures |col| == |target|
    ensures forall i :: 0 <= i < |target| ==> col[i] == FeaturesOf(degree, target[i])[k]
  {
    seq(|target|, i requires 0 <= i < |target| => FeaturesOf(degree, target[i])[k])
  }

  /** Coefficients of the right width for the features of the order. */
  predicate Fits(order: Order, intercept: bool, beta: Option<seq<real>>)
    requires order != Identity
  {
    beta.Some? && |beta.value| == OrderFeatureCount(order) + Offset(intercept)
  }

  /** A model of this order with these coefficients can calibrate: the
      identity model always, the others once all three channels are trained. */
  predicate Ready(order: Order, intercept: bool, b1: Option<seq<real>>, b2: Option<seq<real>>, b3: Option<seq<real>>)
  {
    order != Identity ==> Fits(order, intercept, b1) && Fits(order, intercept, b2) && Fits(order, intercept, b3)
  }

  /** The calibrated colour: each channel's fitted polynomial at the colour's
      features, or the colour itself for the identity model. */
  function CalibrateColor(order: Order, intercept: bool, b1: Option<seq<real>>, b2: Option<seq<real>>,
                          b3: Option<seq<real>>, c: Triple): (r: Triple)
    requires Ready(order, intercept, b1, b2, b3)
    ensures order == Identity ==> r == c
  {
    if order == Identity then c
    else
      var f := FeaturesOf(Degree(order), c);
      Triple(Estimate(f, b1.value, intercept), Estimate(f, b2.value, intercept), Estimate(f, b3.value, intercept))
  }

  /** The solver returns one coefficient per design column, plus one for the
      intercept when it is fitted. */
  ghost predicate SizedFit(fit: Fit)
  {
    forall rows: seq<seq<real>>, answers: seq<real>, intercept: bool ::
      |rows| > 0 && fit(rows, answers, intercept).Some? ==>
        |fit(rows, answers, intercept).value| == |rows[0]| + Offset(intercept)
  }

  /** With such a solver, a channel fit on at least one sample that succeeds
      has the width the order's estimate needs. */
  lemma ChannelFitSized(order: Order, intercept: bool, train: seq<Triple>, answers: seq<Triple>, k: nat, fit: Fit)
    requires order != Identity && 0 < |answers| <= |train| && k < 3 && SizedFit(fit)
    requires ChannelFit(Degree(order), intercept, train, answers, k, fit).Some?
    ensures Fits(order, intercept, ChannelFit(Degree(order), intercept, train, answers, k, fit))
  {
    var rows := Design(Degree(order), train, |answers|);
    assert |rows[0]| == OrderFeatureCount(order);
  }

  /** `train` succeeds: always for the identity model, otherwise exactly when
      the solver fits all three channels. */
  predicate Trainable(order: Order, intercept: bool, train: seq<Triple>, answers: seq<Triple>, fit: Fit)
    requires order != Identity ==> |answers| <= |train|
  {
    order == Identity || forall k :: 0 <= k < 3 ==> ChannelFit(Degree(order), intercept, train, answers, k, fit).Some?
  }

  /** The coefficients `train` leaves behind: the channels are fitted in turn
      and the first singular fit stops it, so that channel and the later ones
      keep their old coefficients. The identity model keeps everything. */
  function TrainedBetas(order: Order, intercept: bool, train: seq<Triple>, answers: seq<Triple>, fit: Fit,
                        b1: Option<seq<real>>, b2: Option<seq<real>>, b3: Option<seq<real>>)
    : (Option<seq<real>>, Option<seq<real>>, Option<seq<real>>)
    requires order != Identity ==> |answers| <= |train|
  {
    if order == Identity then (b1, b2, b3)
    else
      var d := Degree(order);
      var r1, r2, r3 := ChannelFit(d, intercept, train, answers, 0, fit),
                        ChannelFit(d, intercept, train, answers, 1, fit),
                        ChannelFit(d, intercept, train, answers, 2, fit);
      (if r1.Some? then r1 else b1,
       if r1.Some? && r2.Some? then r2 else b2,
       if r1.Some? && r2.Some? && r3.Some? then r3 else b3)
  }

  /** A training run that succeeds on at least one sample leaves a model that
      can calibrate, whatever it held before. */
  lemma TrainingReady(order: Order, intercept: bool, train: seq<Triple>, answers: seq<Triple>, fit: Fit,
                      b1: Option<seq<real>>, b2: Option<seq<real>>, b3: Option<seq<real>>)
    requires 0 < |answers| <= |train| && SizedFit(fit) && Trainable(order, intercept, train, answers, fit)
    ensures var t := TrainedBetas(order, intercept, train, answers, fit, b1, b2, b3);
      Ready(order, intercept, t.0, t.1, t.2)
  {
    if order != Identity {
      ChannelFitSized(order, intercept, train, answers, 0, fit);
      ChannelFitSized(order, intercept, train, answers, 1, fit);
      ChannelFitSized(order, intercept, train, answers, 2, fit);
    }
  }

  /** What calibration does to one colour, as a value: the model's estimate
      once it can calibrate, the colour itself before. */
  function Calibration(order: Order, intercept: bool, b1: Option<seq<real>>, b2: Option<seq<real>>,
                       b3: Option<seq<real>>): (f: Triple -> Triple)
    ensures forall c :: Ready(order, intercept, b1, b2, b3) ==> f(c) == CalibrateColor(order, intercept, b1, b2, b3, c)
  {
    c => if Ready(order, intercept, b1, b2, b3) then CalibrateColor(order, intercept, b1, b2, b3, c) else c
  }

  class RegressionModel {
    const order: Order
    const intercept: bool
    var beta1: Option<seq<real>>
    var beta2: Option<seq<real>>
    var beta3: Option<seq<real>>

    /** `RegressionFactory.createModel`: the identity model ignores the
        intercept flag; every other order gets it unchanged. */
    constructor (order: Order, intercept: bool)
      ensures this.order == order
      ensures this.intercept == (order != Identity && intercept)
      ensures beta1 == None && beta2 == None && beta3 == None
    {
      this.order := order;
      this.intercept := order != Identity && intercept;
      beta1, beta2, beta3 := None, None, None;
    }

    /** All three channels have been trained. */
    predicate Trained()
      reads this
    {
      Ready(order, intercept, beta1, beta2, beta3)
    }

    /** What calibration turns a colour into. */
    function Apply(c: Triple): (r: Triple)
      reads this
      requires Trained()
      ensures order == Identity ==> r == c
    {
      CalibrateColor(order, intercept, beta1, beta2, beta3, c)
    }

    /** `getName`: the class name, with "Intercept" appended for an intercept model. */
    function Name(): (s: string)
      requires order != Identity
      ensures s == ClassName(order) + InterceptSuffix(intercept)
      ensures |s| >= 9 && (s[|s| - 9..] == "Intercept" <==> intercept)
    {
      var s := ClassName(order) + InterceptSuffix(intercept);
      assert !intercept ==> s[|s| - 1] == 'S' != "Intercept"[8];
      s
    }

    /** `getEstimate`, accumulating left to right. */
    method GetEstimate(features: seq<real>, beta: seq<real>) returns (answer: real)
      requires |beta| == |features| + Offset(intercept)
      ensures answer == Estimate(features, beta, intercept)
    {
      var off := Offset(intercept);
      answer := if intercept then beta[0] else 0.0;
      var i := 0;
      while i < |features|
        invariant 0 <= i <= |features|
        invariant answer == (if intercept then beta[0] else 0.0) + Dot(features[..i], beta[off..][..i])
      {
        assert features[..i + 1][..i] == features[..i];
        assert beta[off..][..i + 1][..i] == beta[off..][..i];
        answer := answer + features[i] * beta[i + off];
        i := i + 1;
      }
      assert features[..i] == features && beta[off..][..i] == beta[off..];
    }

    /** `trainChannel`: builds the design rows from the first |answers| training
        colours and hands them to the solver. */
    method TrainChannel(train: seq<Triple>, answers: seq<real>, fit: Fit) returns (beta: Option<seq<real>>)
      requires order != Identity && |answers| <= |train|
      ensures beta == fit(Design(Degree(order), train, |answers|), answers, intercept)
    {
      var rows: seq<seq<real>> := [];
      var i := 0;
      while i < |answers|
        invariant 0 <= i <= |answers| && |rows| == i
        invariant forall j :: 0 <= j < i ==> rows[j] == FeaturesOf(Degree(order), train[j])
      {
        rows := rows + [FeaturesOf(Degree(order), train[i])];
        i := i + 1;
      }
      assert rows == Design(Degree(order), train, |answers|);
      // The solver is told `setNoIntercept(!intercept)`.
      beta := fit(rows, answers, intercept);
    }

    /** Splits the answers into their three channels. */
    static method SplitAnswers(answers: seq<Triple>) returns (a1: seq<real>, a2: seq<real>, a3: seq<real>)
      ensures a1 == Column(answers, 0) && a2 == Column(answers, 1) && a3 == Column(answers, 2)
    {
      a1, a2, a3 := [], [], [];
      var i := 0;
      while i < |answers|
        invariant 0 <= i <= |answers| && |a1| == |a2| == |a3| == i
        invariant forall j :: 0 <= j < i ==> a1[j] == answers[j].c0 && a2[j] == answers[j].c1 && a3[j] == answers[j].c2
      {
        a1, a2, a3 := a1 + [answers[i].c0], a2 + [answers[i].c1], a3 + [answers[i].c2];
        i := i + 1;
      }
    }

    /** `train`: fits the three channels in turn. A singular fit aborts the
        remaining channels, leaving their old coefficients. The identity model
        ignores its data. */
    method Train(train: seq<Triple>, answers: seq<Triple>, fit: Fit) returns (ok: bool)
      requires order != Identity ==> |answers| <= |train|
      modifies this
      ensures ok == Trainable(order, intercept, train, answers, fit)
      ensures (beta1, beta2, beta3) == TrainedBetas(order, intercept, train, answers, fit, old(beta1), old(beta2), old(beta3))
    {
      if order == Identity {
        return true;
      }
      var a1, a2, a3 := SplitAnswers(answers);
      var r := TrainChannel(train, a1, fit);
      assert r == ChannelFit(Degree(order), intercept, train, answers, 0, fit);
      if r.None? { return false; }
      beta1 := r;
      r := TrainChannel(train, a2, fit);
      assert r == ChannelFit(Degree(order), intercept, train, answers, 1, fit);
      if r.None? { return false; }
      beta2 := r;
      r := TrainChannel(train, a3, fit);
      assert r == ChannelFit(Degree(order), intercept, train, answers, 2, fit);
      if r.None? { return false; }
      beta3 := r;
      ok := true;
    }

    /** `calibrate(DoubleBuffer)`: overwrites exactly the three slots at the
        position with the three channel estimates, all taken from the features
        read before the first write. The identity model leaves the buffer alone. */
    method Calibrate(buf: array<real>, pos: nat)
      requires pos + 3 <= buf.Length && Trained()
      modifies buf
      ensures order == Identity ==> buf[..] == old(buf[..])
      ensures buf[..] == WithTriple(old(buf[..]), pos, Apply(old(TripleAt(buf, pos))))
    {
      if order == Identity {
        assert buf[..] == WithTriple(buf[..], pos, TripleAt(buf, pos));
        return;
      }
      var features := FeaturesAt(Degree(order), buf, pos);
      var e1 := GetEstimate(features, beta1.value);
      var e2 := GetEstimate(features, beta2.value);
      var e3 := GetEstimate(features, beta3.value);
      buf[pos], buf[pos + 1], buf[pos + 2] := e1, e2, e3;
    }

    function DevianceRow(source: seq<Triple>, target: seq<Triple>, fit: Fit, k: nat): Option<seq<real>>
      requires order != Identity && |target| <= |source| && k < OrderFeatureCount(order)
    {
      fit(Design(Degree(order), source, |target|), FeatureColumn(Degree(order), target, k), intercept)
    }

    /** The fit of target feature k succeeded with one coefficient per matrix column. */
    predicate DevianceRowOk(source: seq<Triple>, target: seq<Triple>, fit: Fit, k: nat)
      requires order != Identity && |target| <= |source| && k < OrderFeatureCount(order)
    {
      var r := DevianceRow(source, target, fit, k);
      r.Some? && |r.value| == OrderFeatureCount(order) + Offset(intercept)
    }

    predicate AllDevianceRowsOk(source: seq<Triple>, target: seq<Triple>, fit: Fit)
      requires order != Identity && |target| <= |source|
    {
      forall k :: 0 <= k < OrderFeatureCount(order) ==> DevianceRowOk(source, target, fit, k)
    }

    /** The matrix of `getTransformationDeviance`, once every fit has succeeded
        with the right width: row 0 is [1, 0, ..., 0] when an intercept is
        fitted, and row k + offset holds the fit of target feature k. */
    function DevianceMatrix(source: seq<Triple>, target: seq<Triple>, fit: Fit): (m: seq<seq<real>>)
      requires order != Identity && |target| <= |source|
      requires AllDevianceRowsOk(source, target, fit)
      ensures var dim := OrderFeatureCount(order) + Offset(intercept);
        |m| == dim && (forall r :: 0 <= r < dim ==> |m[r]| == dim) &&
        (intercept ==> m[0] == UnitRow(dim)) &&
        forall k :: 0 <= k < OrderFeatureCount(order) ==>
          DevianceRowOk(source, target, fit, k) && m[k + Offset(intercept)] == DevianceRow(source, target, fit, k).value
    {
      var dim := OrderFeatureCount(order) + Offset(intercept);
      var m := seq(dim, r requires 0 <= r < dim =>
        if intercept && r == 0 then UnitRow(dim)
        else
          var k := r - Offset(intercept);
          assert DevianceRowOk(source, target, fit, k);
          DevianceRow(source, target, fit, k).value);
      assert forall r :: 0 <= r < dim ==> |m[r]| == dim by {
        forall r | 0 <= r < dim
          ensures |m[r]| == dim
        {
          if !(intercept && r == 0) {
            assert DevianceRowOk(source, target, fit, r - Offset(intercept));
          }
        }
      }
      m
    }

    /** `getTransformationDeviance`: regresses every feature of the target
        colours on the source colours, stacks the fits (under a unit row when an
        intercept is fitted) and returns 1 - det. A singular fit, or a fit whose
        width does not match the matrix, is an error. */
    method TransformationDeviance(source: seq<Triple>, target: seq<Triple>, fit: Fit, det: Determinant)
      returns (r: Result<real, Failure>)
      requires order != Identity && 0 < |target| <= |source|
      ensures r.Ok? <==> AllDevianceRowsOk(source, target, fit)
      ensures r.Ok? ==> r.value == 1.0 - det(DevianceMatrix(source, target, fit))
    {
      var d := Degree(order);
      var n := |FeaturesOf(d, target[0])|;
      var columns := FeatureColumns(d, target);
      var dim := n + Offset(intercept);
      var m: seq<seq<real>> := seq(dim, _ => seq(dim, _ => 0.0));
      if intercept {
        m := m[0 := UnitRow(dim)];
      }
      var index := 0;
      while index < n
        invariant 0 <= index <= n && |m| == dim
        invariant intercept ==> m[0] == UnitRow(dim)
        invariant forall k :: 0 <= k < index ==>
          DevianceRowOk(source, target, fit, k) && m[k + Offset(intercept)] == DevianceRow(source, target, fit, k).value
      {
        var beta := TrainChannel(source, columns[index], fit);
        assert beta == DevianceRow(source, target, fit, index);
        if beta.None? {
          assert !DevianceRowOk(source, target, fit, index);
          return Err(SingularMatrix);
        }
        if |beta.value| != dim {
          assert !DevianceRowOk(source, target, fit, index);
          return Err(DimensionMismatch);
        }
        m := m[index + Offset(intercept) := beta.value];
        index := index + 1;
      }
      DevianceMatrixFromRows(source, target, fit, m);
      r := Ok(1.0 - det(m));
    }

    /** A matrix with the unit row first (with an intercept) and the fit of
        every target feature in the following rows is the deviance matrix. */
    lemma DevianceMatrixFromRows(source: seq<Triple>, target: seq<Triple>, fit: Fit, m: seq<seq<real>>)
      requires order != Identity && |target| <= |source|
      requires |m| == OrderFeatureCount(order) + Offset(intercept)
      requires intercept ==> m[0] == UnitRow(|m|)
      requires forall k :: 0 <= k < OrderFeatureCount(order) ==>
        DevianceRowOk(source, target, fit, k) && m[k + Offset(intercept)] == DevianceRow(source, target, fit, k).value
      ensures AllDevianceRowsOk(source, target, fit) && m == DevianceMatrix(source, target, fit)
    {
      var d := DevianceMatrix(source, target, fit);
      forall r | 0 <= r < |m|
        ensures m[r] == d[r]
      {
        if !(intercept && r == 0) {
          var k := r - Offset(intercept);
          assert m[k + Offset(intercept)] == d[k + Offset(intercept)];
        }
      }
    }

    /** Builds the per-feature answer lists, one target colour at a time. */
    static method FeatureColumns(degree: nat, target: seq<Triple>) returns (columns: seq<seq<real>>)
      requires 1 <= degree <= 3 && |target| > 0
      ensures |columns| == FeatureCount(degree)
      ensures forall k :: 0 <= k < |columns| ==> columns[k] == FeatureColumn(degree, target, k)
    {
      var n := FeatureCount(degree);
      columns := seq(n, _ => []);
      var j := 0;
      while j < |target|
        invariant 0 <= j <= |target| && |columns| == n
        invariant forall k :: 0 <= k < n ==> columns[k] == FeatureColumn(degree, target[..j], k)
      {
        var features := FeaturesOf(degree, target[j]);
        var i := 0;
        while i < n
          invariant 0 <= i <= n && |columns| == n
          invariant forall k :: 0 <= k < i ==> columns[k] == FeatureColumn(degree, target[..j + 1], k)
          invariant forall k :: i <= k < n ==> columns[k] == FeatureColumn(degree, target[..j], k)
        {
          FeatureColumnStep(degree, target, j, i);
          columns := columns[i := columns[i] + [features[i]]];
          i := i + 1;
        }
        j := j + 1;
      }
      assert target[..j] == target;
    }
  }

  /** IdentityModel's `calibrate(Color)`: a new colour over the same buffer
      carrying the same Lab values. */
  method IdentityCalibrateColor(c: ColorMetric.Color) returns (r: ColorMetric.Color)
    requires c.Valid()
    ensures fresh(r) && r.Valid() && r.bgr == c.bgr && r.pos == c.pos && r.lab == c.lab
  {
    r := new ColorMetric.Color(c.bgr, c.pos);
    r.lab := c.lab;
  }
}
