/** Least squares fitting of complexity curves (src/complexity.cc) over exact reals. log2 and
    the square root are parameters; of the root only monotonicity is used. */
module LeastSquares {
  import opened Arithmetic
  import opened Options

  datatype BigO = ONone | O1 | ON | ONSquared | ONCubed | OLogN | ONLogN | OAuto | OLambda

  // A double that came out of a division: x / 0 is positive infinity for x > 0, and 0 / 0 is
  // not a number.
  datatype Double = Finite(value: real) | Infinite | NaN

  datatype LeastSq = LeastSq(coef: Double, rms: Double, complexity: BigO)

  type Curve = int -> real

  // The mathematics library.
  datatype Lib = Lib(log2: int -> real, sqrt: real -> real)

  ghost predicate IsRoot(sqrt: real -> real) {
    && sqrt(0.0) == 0.0 && (forall x :: 0.0 <= x ==> 0.0 <= sqrt(x))
    && forall x, y :: 0.0 <= x < y ==> sqrt(x) < sqrt(y)
  }

  function Divide(a: real, b: real): Double
    requires b == 0.0 ==> a >= 0.0
  {
    if b != 0.0 then Finite(a / b) else if a > 0.0 then Infinite else NaN
  }

  // The `<` of doubles.
  predicate Less(a: Double, b: Double) {
    a.Finite? && (b.Infinite? || (b.Finite? && a.value < b.value))
  }

  function FittingCurve(lib: Lib, complexity: BigO): Curve {
    match complexity
    case ON => (n: int) => n as real
    case ONSquared => (n: int) => n as real * n as real
    case ONCubed => (n: int) => n as real * n as real * n as real
    case OLogN => lib.log2
    case ONLogN => (n: int) => n as real * lib.log2(n)
    case _ => (n: int) => 1.0
  }

  // ----- Sums over the measurements

  function Total(f: nat -> real, k: nat): real {
    if k == 0 then 0.0 else Total(f, k - 1) + f(k - 1)
  }

  // The squared residual of one measurement.
  function Residual(t: real, c: real, gn: real): (r: real)
    ensures r >= 0.0
  {
    Square(t - c * gn)
  }

  function GG(g: Curve, n: seq<int>): nat -> real {
    (i: nat) => if i < |n| then Square(g(n[i])) else 0.0
  }

  function TG(g: Curve, n: seq<int>, t: seq<real>): nat -> real {
    (i: nat) => if i < |n| && i < |t| then Product(t[i], g(n[i])) else 0.0
  }

  function Times(t: seq<real>): nat -> real {
    (i: nat) => if i < |t| then t[i] else 0.0
  }

  // The squared residuals of the fit c * g.
  function Residuals(g: Curve, n: seq<int>, t: seq<real>, c: real): nat -> real {
    (i: nat) => if i < |n| && i < |t| then Residual(t[i], c, g(n[i])) else 0.0
  }

  function Error(g: Curve, n: seq<int>, t: seq<real>, c: real): (r: real)
    requires |n| == |t|
    ensures r >= 0.0
  {
    ResidualsNonNegative(g, n, t, c);
    TotalNonNegative(Residuals(g, n, t, c), |n|);
    Total(Residuals(g, n, t, c), |n|)
  }

  lemma ResidualsNonNegative(g: Curve, n: seq<int>, t: seq<real>, c: real)
    ensures forall i: nat :: Residuals(g, n, t, c)(i) >= 0.0
  {
    forall i: nat ensures Residuals(g, n, t, c)(i) >= 0.0 {
      if i < |n| && i < |t| {
        assert Residuals(g, n, t, c)(i) == Residual(t[i], c, g(n[i]));
      }
    }
  }

  lemma {:induction false} TotalNonNegative(f: nat -> real, k: nat)
    requires forall i: nat :: i < k ==> f(i) >= 0.0
    ensures Total(f, k) >= 0.0
    ensures Total(f, k) == 0.0 <==> forall i: nat :: i < k ==> f(i) == 0.0
  {
    if k > 0 {
      TotalNonNegative(f, k - 1);
    }
  }

  lemma {:induction false} TotalPointwise(f: nat -> real, h: nat -> real, k: nat)
    requires forall i: nat :: i < k ==> f(i) == h(i)
    ensures Total(f, k) == Total(h, k)
  {
    if k > 0 {
      TotalPointwise(f, h, k - 1);
    }
  }

  lemma {:induction false} TotalLinear(f: nat -> real, h: nat -> real, p: nat -> real, q: nat -> real, a: real, b: real, k: nat)
    requires forall i: nat :: i < k ==> f(i) == h(i) + Combined(a, p(i), b, q(i))
    ensures Total(f, k) == Total(h, k) + Combined(a, Total(p, k), b, Total(q, k))
  {
    if k > 0 {
      TotalLinear(f, h, p, q, a, b, k - 1);
      Distribute(a, Total(p, k - 1), p(k - 1), b, Total(q, k - 1), q(k - 1));
    }
  }

  function Combined(a: real, x: real, b: real, y: real): real {
    a * x + b * y
  }

  lemma Distribute(a: real, x: real, x': real, b: real, y: real, y': real)
    ensures Combined(a, x + x', b, y + y') == Combined(a, x, b, y) + Combined(a, x', b, y')
  {
  }

  // ----- The coefficient is the minimiser

  // Moving the coefficient from c to d changes the error by a quadratic in d - c.
  lemma ErrorMoved(g: Curve, n: seq<int>, t: seq<real>, c: real, d: real)
    requires |n| == |t|
    ensures Error(g, n, t, d) == Error(g, n, t, c)
      + Combined(-2.0 * (d - c), Total(TG(g, n, t), |n|), d * d - c * c, Total(GG(g, n), |n|))
  {
    var a, b := -2.0 * (d - c), d * d - c * c;
    forall i: nat | i < |n|
      ensures Residuals(g, n, t, d)(i) == Residuals(g, n, t, c)(i) + Combined(a, TG(g, n, t)(i), b, GG(g, n)(i))
    {
      ResidualMovedAt(g, n, t, c, d, i);
    }
    TotalLinear(Residuals(g, n, t, d), Residuals(g, n, t, c), TG(g, n, t), GG(g, n), a, b, |n|);
  }

  lemma ResidualMovedAt(g: Curve, n: seq<int>, t: seq<real>, c: real, d: real, i: nat)
    requires i < |n| == |t|
    ensures Residuals(g, n, t, d)(i) == Residuals(g, n, t, c)(i)
      + Combined(-2.0 * (d - c), TG(g, n, t)(i), d * d - c * c, GG(g, n)(i))
  {
    OneResidual(t[i], g(n[i]), c, d);
  }

  lemma OneResidual(t: real, g: real, c: real, d: real)
    ensures Residual(t, d, g) == Residual(t, c, g) + Combined(-2.0 * (d - c), Product(t, g), d * d - c * c, Square(g))
  {
    SquareOfResidual(t, g, c);
    SquareOfResidual(t, g, d);
    assert (d * d - c * c) * Square(g) == (d * d) * Square(g) - (c * c) * Square(g);
  }

  lemma SquareOfResidual(t: real, g: real, c: real)
    ensures Square(t - c * g) == t * t - 2.0 * c * (t * g) + (c * c) * Square(g)
  {
    assert Square(t - c * g) == t * t - 2.0 * (t * (c * g)) + (c * g) * (c * g);
  }

  lemma MovedFromOptimum(tg: real, c: real, d: real, gg: real)
    requires tg == c * gg
    ensures Combined(-2.0 * (d - c), tg, d * d - c * c, gg) == Square(d - c) * gg
  {
    assert -2.0 * (d - c) * (c * gg) == (-2.0 * (d - c) * c) * gg;
    assert Square(d - c) == -2.0 * (d - c) * c + (d * d - c * c);
  }

  lemma AllZero(g: Curve, n: seq<int>, t: seq<real>)
    requires |n| == |t|
    ensures Total(GG(g, n), |n|) == 0.0 <==> AllZeros(g, n)
    ensures Total(GG(g, n), |n|) == 0.0 ==> Total(TG(g, n, t), |n|) == 0.0
  {
    TotalNonNegative(GG(g, n), |n|);
    if AllZeros(g, n) {
      TotalNonNegative(TG(g, n, t), |n|);
    } else {
      var i :| 0 <= i < |n| && g(n[i]) != 0.0;
      SquareIsZero(g(n[i]));
      assert GG(g, n)(i) != 0.0;
    }
  }

  predicate AllZeros(g: Curve, n: seq<int>) {
    forall i :: 0 <= i < |n| ==> g(n[i]) == 0.0
  }

  // Among all real coefficients, the quotient of the sums has the least sum of squared
  // residuals, and is the only one that has.
  lemma CoefficientIsOptimal(g: Curve, n: seq<int>, t: seq<real>, c: real)
    requires |n| == |t| && Total(GG(g, n), |n|) != 0.0
    ensures var best := Total(TG(g, n, t), |n|) / Total(GG(g, n), |n|);
      Error(g, n, t, best) <= Error(g, n, t, c) && (Error(g, n, t, best) == Error(g, n, t, c) ==> c == best)
  {
    var gg := Total(GG(g, n), |n|);
    var best := Total(TG(g, n, t), |n|) / gg;
    ErrorMoved(g, n, t, best, c);
    MovedFromOptimum(Total(TG(g, n, t), |n|), best, c, gg);
    TotalNonNegative(GG(g, n), |n|);
    if c != best {
      SquareIsZero(c - best);
      ProductPositive(Square(c - best), gg);
    }
  }

  // ----- Relative errors

  // The sum of the squares of the residuals relative to the times.
  function RelativeError(g: Curve, n: seq<int>, t: seq<real>, c: real): real
    requires |n| == |t| && forall i :: 0 <= i < |t| ==> t[i] > 0.0
  {
    Total(RelativeResiduals(g, n, t, c), |n|)
  }

  function RelativeResiduals(g: Curve, n: seq<int>, t: seq<real>, c: real): nat -> real {
    (i: nat) => if i < |n| && i < |t| && t[i] > 0.0 then RelativeResidual(t[i], c, g(n[i])) else 0.0
  }

  function RelativeResidual(t: real, c: real, gn: real): (r: real)
    requires t > 0.0
    ensures r >= 0.0
  {
    Square((t - c * gn) / t)
  }

  // Relative errors are plain ones after every measurement has been divided by its time.
  function Scaled(g: Curve, n: seq<int>, t: seq<real>): Curve {
    (i: int) => if 0 <= i < |n| && i < |t| && t[i] > 0.0 then g(n[i]) / t[i] else 0.0
  }

  function Places(k: nat): (s: seq<int>)
    ensures |s| == k && forall i :: 0 <= i < k ==> s[i] == i
  {
    seq(k, i => i)
  }

  function Ones(k: nat): (s: seq<real>)
    ensures |s| == k && forall i :: 0 <= i < k ==> s[i] == 1.0
  {
    seq(k, i => 1.0)
  }

  lemma RelativeIsScaled(g: Curve, n: seq<int>, t: seq<real>, c: real)
    requires |n| == |t| && forall i :: 0 <= i < |t| ==> t[i] > 0.0
    ensures RelativeError(g, n, t, c) == Error(Scaled(g, n, t), Places(|n|), Ones(|n|), c)
  {
    var h, places, ones := Scaled(g, n, t), Places(|n|), Ones(|n|);
    forall i: nat | i < |n| ensures RelativeResiduals(g, n, t, c)(i) == Residuals(h, places, ones, c)(i) {
      assert h(places[i]) == g(n[i]) / t[i];
      ScaledResidual(t[i], c, g(n[i]));
    }
    TotalPointwise(RelativeResiduals(g, n, t, c), Residuals(h, places, ones, c), |n|);
  }

  lemma ScaledResidual(t: real, c: real, gn: real)
    requires t > 0.0
    ensures RelativeResidual(t, c, gn) == Residual(1.0, c, gn / t)
  {
    var q := gn / t;
    assert q * t == gn;
    assert (1.0 - c * q) * t == t - c * gn;
    QuotientIs(t - c * gn, t, 1.0 - c * q);
  }

  lemma QuotientIs(x: real, t: real, q: real)
    requires t > 0.0 && q * t == x
    ensures x / t == q
  {
    var p := x / t;
    assert (p - q) * t == 0.0;
  }

  ghost predicate MinimisesRelativeError(g: Curve, n: seq<int>, t: seq<real>, c: real)
    requires |n| == |t| && forall i :: 0 <= i < |t| ==> t[i] > 0.0
  {
    forall d :: RelativeError(g, n, t, c) <= RelativeError(g, n, t, d)
  }

  // The coefficient that the comment on MinimalLeastSq describes is another quotient of sums;
  // the one returned minimises the relative error exactly when the two quotients agree.
  lemma WhenRelativeErrorIsLeast(g: Curve, n: seq<int>, t: seq<real>)
    requires |n| == |t| && (forall i :: 0 <= i < |t| ==> t[i] > 0.0) && !AllZeros(g, n)
    ensures var h, places, ones := Scaled(g, n, t), Places(|n|), Ones(|n|);
      && Total(GG(g, n), |n|) != 0.0 && Total(GG(h, places), |n|) != 0.0
      && (MinimisesRelativeError(g, n, t, Total(TG(g, n, t), |n|) / Total(GG(g, n), |n|)) <==>
           Total(TG(g, n, t), |n|) / Total(GG(g, n), |n|) == Total(TG(h, places, ones), |n|) / Total(GG(h, places), |n|))
  {
    var h, places, ones := Scaled(g, n, t), Places(|n|), Ones(|n|);
    AllZero(g, n, t);
    ScaledNotZero(g, n, t);
    AllZero(h, places, ones);
    var c := Total(TG(g, n, t), |n|) / Total(GG(g, n), |n|);
    var best := Total(TG(h, places, ones), |n|) / Total(GG(h, places), |n|);
    RelativeIsScaled(g, n, t, c);
    RelativeIsScaled(g, n, t, best);
    CoefficientIsOptimal(h, places, ones, c);
    forall d ensures RelativeError(g, n, t, best) <= RelativeError(g, n, t, d) {
      RelativeIsScaled(g, n, t, d);
      CoefficientIsOptimal(h, places, ones, d);
    }
  }

  lemma ScaledNotZero(g: Curve, n: seq<int>, t: seq<real>)
    requires |n| == |t| && (forall i :: 0 <= i < |t| ==> t[i] > 0.0) && !AllZeros(g, n)
    ensures !AllZeros(Scaled(g, n, t), Places(|n|))
  {
    var i :| 0 <= i < |n| && g(n[i]) != 0.0;
    var q := g(n[i]) / t[i];
    assert q * t[i] == g(n[i]);
    assert Scaled(g, n, t)(Places(|n|)[i]) == q;
  }

  // It does when the times are all the same.
  lemma EqualTimesMinimiseBoth(g: Curve, n: seq<int>, t: seq<real>, time: real, c: real)
    requires |n| == |t| && time > 0.0 && forall i :: 0 <= i < |t| ==> t[i] == time
    requires forall d :: Error(g, n, t, c) <= Error(g, n, t, d)
    ensures MinimisesRelativeError(g, n, t, c)
  {
    SquareIsZero(time);
    forall d ensures RelativeError(g, n, t, c) <= RelativeError(g, n, t, d) {
      ErrorScales(g, n, t, time, c);
      ErrorScales(g, n, t, time, d);
      ProductsInOrder(Square(time), RelativeError(g, n, t, c), RelativeError(g, n, t, d));
    }
  }

  lemma ProductsInOrder(d: real, x: real, y: real)
    requires d > 0.0 && Product(d, x) <= Product(d, y)
    ensures x <= y
  {
    assert d * (x - y) == d * x - d * y;
    if x > y {
      ProductPositive(d, x - y);
    }
  }

  lemma ErrorScales(g: Curve, n: seq<int>, t: seq<real>, time: real, c: real)
    requires |n| == |t| && time > 0.0 && forall i :: 0 <= i < |t| ==> t[i] == time
    ensures Error(g, n, t, c) == Product(Square(time), RelativeError(g, n, t, c))
  {
    forall i: nat | i < |n|
      ensures Residuals(g, n, t, c)(i) == Product(Square(time), RelativeResiduals(g, n, t, c)(i))
    {
      ResidualScalesAt(g, n, t, c, i);
    }
    TotalScales(Residuals(g, n, t, c), Square(time), RelativeResiduals(g, n, t, c), |n|);
  }

  lemma ResidualScalesAt(g: Curve, n: seq<int>, t: seq<real>, c: real, i: nat)
    requires i < |n| == |t| && t[i] > 0.0
    ensures Residuals(g, n, t, c)(i) == Product(Square(t[i]), RelativeResiduals(g, n, t, c)(i))
  {
    ResidualScales(t[i], c, g(n[i]));
  }

  lemma ResidualScales(t: real, c: real, gn: real)
    requires t > 0.0
    ensures Residual(t, c, gn) == Product(Square(t), RelativeResidual(t, c, gn))
  {
    var q := (t - c * gn) / t;
    assert t - c * gn == q * t;
    assert (q * t) * (q * t) == (t * t) * (q * q);
  }

  lemma {:induction false} TotalScales(f: nat -> real, a: real, p: nat -> real, k: nat)
    requires forall i: nat :: i < k ==> f(i) == Product(a, p(i))
    ensures Total(f, k) == Product(a, Total(p, k))
  {
    if k > 0 {
      TotalScales(f, a, p, k - 1);
      DistributeOne(a, Total(p, k - 1), p(k - 1));
    }
  }

  lemma DistributeOne(a: real, x: real, y: real)
    ensures Product(a, x + y) == Product(a, x) + Product(a, y)
  {
  }

  // And when the curve fits exactly.
  lemma ExactFitMinimisesBoth(g: Curve, n: seq<int>, t: seq<real>, c: real)
    requires |n| == |t| && (forall i :: 0 <= i < |t| ==> t[i] > 0.0) && Error(g, n, t, c) == 0.0
    ensures MinimisesRelativeError(g, n, t, c)
  {
    ResidualsNonNegative(g, n, t, c);
    TotalNonNegative(Residuals(g, n, t, c), |n|);
    forall i: nat | i < |n| ensures RelativeResiduals(g, n, t, c)(i) == 0.0 {
      assert Residuals(g, n, t, c)(i) == 0.0;
      assert Residual(t[i], c, g(n[i])) == 0.0;
      SquareIsZero(t[i] - c * g(n[i]));
    }
    TotalNonNegative(RelativeResiduals(g, n, t, c), |n|);
    forall d ensures RelativeError(g, n, t, d) >= 0.0 {
      RelativeIsScaled(g, n, t, d);
    }
  }

  // Not in general: for the linear curve, sizes 1 and 2 and times 1 and 4, the coefficient is
  // 9/5, and 6/5 has a smaller relative error.
  lemma RelativeErrorNotLeast()
    ensures var g, n, t := (x: int) => x as real, [1, 2], [1.0, 4.0];
      && Total(TG(g, n, t), 2) / Total(GG(g, n), 2) == 1.8
      && RelativeError(g, n, t, 1.2) < RelativeError(g, n, t, 1.8)
  {
    var g, n, t := (x: int) => x as real, [1, 2], [1.0, 4.0];
    TwoTerms(TG(g, n, t));
    TwoTerms(GG(g, n));
    TwoTerms(RelativeResiduals(g, n, t, 1.2));
    TwoTerms(RelativeResiduals(g, n, t, 1.8));
    assert g(1) == 1.0 && g(2) == 2.0;
  }

  lemma TwoTerms(f: nat -> real)
    ensures Total(f, 2) == f(0) + f(1)
  {
    assert Total(f, 1) == f(0);
  }

  // ----- MinimalLeastSq for one curve

  // What the fit of one curve is: the coefficient, and the root mean square of its residuals
  // relative to the mean time.
  ghost predicate IsFit(lib: Lib, g: Curve, n: seq<int>, t: seq<real>, fit: LeastSq)
    requires |n| == |t| >= 1 && IsRoot(lib.sqrt)
  {
    if AllZeros(g, n) then
      fit.coef == NaN && fit.rms == NaN
    else
      && fit.coef.Finite?
      && (forall c :: Error(g, n, t, fit.coef.value) <= Error(g, n, t, c))
      && (forall c :: Error(g, n, t, c) == Error(g, n, t, fit.coef.value) ==> c == fit.coef.value)
      && fit.rms == Rms(lib, n, t, Error(g, n, t, fit.coef.value))
  }

  function Rms(lib: Lib, n: seq<int>, t: seq<real>, error: real): Double
    requires |n| == |t| >= 1 && error >= 0.0 && lib.sqrt(error / |n| as real) >= 0.0
  {
    Divide(lib.sqrt(error / |n| as real), Total(Times(t), |t|) / |n| as real)
  }

  lemma OptimalAmongAll(g: Curve, n: seq<int>, t: seq<real>)
    requires |n| == |t| && Total(GG(g, n), |n|) != 0.0
    ensures var best := Total(TG(g, n, t), |n|) / Total(GG(g, n), |n|);
      && (forall c :: Error(g, n, t, best) <= Error(g, n, t, c))
      && (forall c :: Error(g, n, t, c) == Error(g, n, t, best) ==> c == best)
  {
    forall c {
      CoefficientIsOptimal(g, n, t, c);
    }
  }

  lemma RootIsDefined(lib: Lib, error: real, n: nat)
    requires IsRoot(lib.sqrt) && error >= 0.0 && n >= 1
    ensures 0.0 <= lib.sqrt(error / n as real)
  {
    QuotientsCompare(error, 0.0, n as real);
  }

  method MinimalLeastSq(lib: Lib, n: seq<int>, t: seq<real>, g: Curve) returns (fit: LeastSq)
    requires |n| == |t| >= 1 && IsRoot(lib.sqrt)
    ensures IsFit(lib, g, n, t, fit) && fit.complexity == OLambda
  {
    var sigmaGG, sigmaT, sigmaTG := 0.0, 0.0, 0.0;
    var i := 0;
    while i < |n|
      invariant 0 <= i <= |n|
      invariant sigmaGG == Total(GG(g, n), i) && sigmaT == Total(Times(t), i) && sigmaTG == Total(TG(g, n, t), i)
    {
      var gn := g(n[i]);
      sigmaGG, sigmaT, sigmaTG := sigmaGG + Square(gn), sigmaT + t[i], sigmaTG + Product(t[i], gn);
      i := i + 1;
    }
    AllZero(g, n, t);
    var coef := Divide(sigmaTG, sigmaGG);
    if coef.NaN? {
      return LeastSq(NaN, NaN, OLambda);
    }
    var error := 0.0;
    i := 0;
    while i < |n|
      invariant 0 <= i <= |n| && error == Total(Residuals(g, n, t, coef.value), i)
    {
      error := error + Residual(t[i], coef.value, g(n[i]));
      i := i + 1;
    }
    OptimalAmongAll(g, n, t);
    assert error == Error(g, n, t, coef.value);
    RootIsDefined(lib, error, |n|);
    var mean := sigmaT / |n| as real;
    fit := LeastSq(coef, Divide(lib.sqrt(error / |n| as real), mean), OLambda);
  }

  // ----- The best of several curves

  const FIT_CURVES := [OLogN, ON, ONLogN, ONSquared, ONCubed]

  // The constant curve first, then the others in the order in which they are tried.
  const CANDIDATES := [O1] + FIT_CURVES

  ghost predicate AreFits(lib: Lib, n: seq<int>, t: seq<real>, fits: seq<LeastSq>)
    requires |n| == |t| >= 1 && IsRoot(lib.sqrt) && |fits| <= |CANDIDATES|
  {
    forall j :: 0 <= j < |fits| ==>
      IsFit(lib, FittingCurve(lib, CANDIDATES[j]), n, t, fits[j]) && fits[j].complexity == CANDIDATES[j]
  }

  // No error is less than that of fit k, and of those before it none that is a number is as small.
  predicate IsEarliestLeast(fits: seq<LeastSq>, k: nat) {
    && k < |fits|
    && (forall j :: 0 <= j < |fits| ==> !Less(fits[j].rms, fits[k].rms))
    && (forall j :: 0 <= j < k ==> Less(fits[k].rms, fits[j].rms) || fits[j].rms.NaN?)
    && (fits[0].rms.NaN? ==> k == 0)
  }

  lemma OneMoreFit(fits: seq<LeastSq>, k: nat, next: LeastSq)
    requires IsEarliestLeast(fits, k)
    ensures IsEarliestLeast(fits + [next], if Less(next.rms, fits[k].rms) then |fits| else k)
  {
  }

  // What the loop has found once it has tried these fits.
  ghost predicate Considered(lib: Lib, n: seq<int>, t: seq<real>, fits: seq<LeastSq>, k: nat, fit: LeastSq)
    requires |n| == |t| >= 1 && IsRoot(lib.sqrt)
  {
    |fits| <= |CANDIDATES| && AreFits(lib, n, t, fits) && IsEarliestLeast(fits, k) && fit == fits[k]
  }

  lemma OneMoreCurve(lib: Lib, n: seq<int>, t: seq<real>, fits: seq<LeastSq>, k: nat, fit: LeastSq, next: LeastSq)
    requires |n| == |t| >= 1 && IsRoot(lib.sqrt) && 1 <= |fits| < |CANDIDATES| && Considered(lib, n, t, fits, k, fit)
    requires next.complexity == FIT_CURVES[|fits| - 1] && IsFit(lib, FittingCurve(lib, next.complexity), n, t, next)
    ensures if Less(next.rms, fit.rms) then Considered(lib, n, t, fits + [next], |fits|, next)
            else Considered(lib, n, t, fits + [next], k, fit)
  {
    NextCurve(lib, n, t, fits, next);
    OneMoreFit(fits, k, next);
  }

  lemma NextCurve(lib: Lib, n: seq<int>, t: seq<real>, fits: seq<LeastSq>, next: LeastSq)
    requires |n| == |t| >= 1 && IsRoot(lib.sqrt) && 1 <= |fits| < |CANDIDATES| && AreFits(lib, n, t, fits)
    requires next.complexity == FIT_CURVES[|fits| - 1] && IsFit(lib, FittingCurve(lib, next.complexity), n, t, next)
    ensures AreFits(lib, n, t, fits + [next])
  {
    assert CANDIDATES[|fits|] == FIT_CURVES[|fits| - 1];
  }

  lemma BestOfAll(lib: Lib, n: seq<int>, t: seq<real>, fits: seq<LeastSq>, k: nat, fit: LeastSq)
    requires |n| == |t| >= 1 && IsRoot(lib.sqrt) && |fits| == |CANDIDATES| && Considered(lib, n, t, fits, k, fit)
    ensures IsBestFit(lib, n, t, fit) && IsFit(lib, FittingCurve(lib, fit.complexity), n, t, fit)
    ensures fit.complexity in CANDIDATES
  {
  }

  // The earliest of the six fits with the least error.
  ghost predicate IsBestFit(lib: Lib, n: seq<int>, t: seq<real>, fit: LeastSq)
    requires |n| == |t| >= 1 && IsRoot(lib.sqrt)
  {
    exists fits: seq<LeastSq>, k: nat ::
      |fits| == |CANDIDATES| && AreFits(lib, n, t, fits) && IsEarliestLeast(fits, k) && fit == fits[k]
  }

  // The loop over the curves.
  method BestFit(lib: Lib, n: seq<int>, t: seq<real>) returns (fit: LeastSq)
    requires |n| == |t| >= 2 && IsRoot(lib.sqrt)
    ensures IsBestFit(lib, n, t, fit) && IsFit(lib, FittingCurve(lib, fit.complexity), n, t, fit)
    ensures fit.complexity in CANDIDATES
  {
    fit := MinimalLeastSq(lib, n, t, FittingCurve(lib, O1));
    fit := fit.(complexity := O1);
    ghost var fits, k: nat := [fit], 0;
    assert CANDIDATES[0] == O1;
    var i := 0;
    while i < |FIT_CURVES|
      invariant 0 <= i <= |FIT_CURVES| && |fits| == i + 1
      invariant Considered(lib, n, t, fits, k, fit)
    {
      var current := MinimalLeastSq(lib, n, t, FittingCurve(lib, FIT_CURVES[i]));
      current := current.(complexity := FIT_CURVES[i]);
      OneMoreCurve(lib, n, t, fits, k, fit, current);
      if Less(current.rms, fit.rms) {
        fit, k := current, |fits|;
      }
      fits := fits + [current];
      i := i + 1;
    }
    BestOfAll(lib, n, t, fits, k, fit);
  }

  method MinimalLeastSqAmong(lib: Lib, n: seq<int>, t: seq<real>, complexity: BigO)
    returns (fit: LeastSq)
    requires |n| == |t| >= 2 && IsRoot(lib.sqrt) && complexity != ONone
    ensures complexity.OAuto? ==> IsBestFit(lib, n, t, fit)
    ensures fit.complexity != OAuto && fit.complexity != ONone && (complexity != OLambda ==> fit.complexity != OLambda)
    ensures !complexity.OAuto? ==> fit.complexity == complexity
    ensures IsFit(lib, FittingCurve(lib, fit.complexity), n, t, fit)
    ensures forall a :: ExactData(lib, complexity, n, t, a) && Telling(lib, complexity, n) ==> Recovered(t, a, fit)
  {
    if complexity == OAuto {
      fit := BestFit(lib, n, t);
    } else {
      fit := MinimalLeastSq(lib, n, t, FittingCurve(lib, complexity));
      fit := fit.(complexity := complexity);
      ExactDataIsRecovered(lib, n, t, complexity, fit);
    }
  }

  // With a positive mean time, comparing the relative errors is comparing the sums of squared
  // residuals, whatever the root is.
  lemma LessErrorLessRms(lib: Lib, n: seq<int>, t: seq<real>, a: real, b: real)
    requires |n| == |t| >= 1 && IsRoot(lib.sqrt) && Total(Times(t), |t|) > 0.0 && a >= 0.0 && b >= 0.0
    ensures Less(Rms(lib, n, t, a), Rms(lib, n, t, b)) <==> a < b
  {
    var m := Total(Times(t), |t|) / |n| as real;
    QuotientGrows(0.0, Total(Times(t), |t|), |n| as real);
    QuotientsCompare(a, b, |n| as real);
    var x, y := lib.sqrt(a / |n| as real), lib.sqrt(b / |n| as real);
    QuotientsCompare(x, y, m);
  }

  lemma QuotientGrows(a: real, b: real, d: real)
    requires d > 0.0 && a < b
    ensures a / d < b / d
  {
    assert b / d - a / d == (b - a) / d;
  }

  lemma QuotientsCompare(a: real, b: real, d: real)
    requires d > 0.0
    ensures a / d < b / d <==> a < b
    ensures a >= 0.0 ==> a / d >= 0.0
    ensures b >= 0.0 ==> b / d >= 0.0
  {
    if a < b {
      QuotientGrows(a, b, d);
    } else if b < a {
      QuotientGrows(b, a, d);
    }
    if a > 0.0 {
      QuotientGrows(0.0, a, d);
    }
    if b > 0.0 {
      QuotientGrows(0.0, b, d);
    }
  }

  lemma ZeroResidual(t: real, c: real, x: real)
    ensures Residual(t, c, 0.0) == Residual(t, 0.0, x)
  {
  }

  // A curve that is zero everywhere leaves what the constant curve leaves with coefficient 0.
  lemma ZeroCurve(g: Curve, one: Curve, n: seq<int>, t: seq<real>, c: real)
    requires |n| == |t| && AllZeros(g, n)
    ensures Error(g, n, t, c) == Error(one, n, t, 0.0)
  {
    forall i: nat | i < |n| ensures Residuals(g, n, t, c)(i) == Residuals(one, n, t, 0.0)(i) {
      ZeroResidual(t[i], c, one(n[i]));
    }
    TotalPointwise(Residuals(g, n, t, c), Residuals(one, n, t, 0.0), |n|);
  }

  lemma MeanOf(n: seq<int>, t: seq<real>)
    requires |n| == |t| >= 1 && Total(Times(t), |t|) > 0.0
    ensures Total(Times(t), |t|) / |n| as real > 0.0
  {
    QuotientGrows(0.0, Total(Times(t), |t|), |n| as real);
  }

  // Of two fits of curves that are not zero everywhere, the one with no greater relative error
  // leaves no more than any multiple of the other curve.
  lemma CloserFit(lib: Lib, n: seq<int>, t: seq<real>, f: Curve, fit: LeastSq, g: Curve, other: LeastSq, c: real)
    requires |n| == |t| >= 1 && IsRoot(lib.sqrt) && Total(Times(t), |t|) > 0.0 && !AllZeros(f, n) && !AllZeros(g, n)
    requires IsFit(lib, f, n, t, fit) && IsFit(lib, g, n, t, other) && !Less(other.rms, fit.rms)
    ensures Error(f, n, t, fit.coef.value) <= Error(g, n, t, c)
  {
    LessErrorLessRms(lib, n, t, Error(g, n, t, other.coef.value), Error(f, n, t, fit.coef.value));
    assert Error(g, n, t, other.coef.value) <= Error(g, n, t, c);
  }

  lemma FiniteRms(lib: Lib, n: seq<int>, t: seq<real>, g: Curve, fit: LeastSq)
    requires |n| == |t| >= 1 && IsRoot(lib.sqrt) && Total(Times(t), |t|) > 0.0 && IsFit(lib, g, n, t, fit)
    ensures fit.rms.NaN? || fit.rms.Finite?
    ensures fit.rms.NaN? <==> AllZeros(g, n)
    ensures fit.coef.Finite? <==> fit.rms.Finite?
  {
    MeanOf(n, t);
  }

  // So the curve chosen leaves the least sum of squared residuals that any multiple of any of
  // the six curves leaves.
  lemma ChosenCurveIsClosest(lib: Lib, n: seq<int>, t: seq<real>, fit: LeastSq, j: nat, c: real)
    requires |n| == |t| >= 2 && IsRoot(lib.sqrt) && Total(Times(t), |t|) > 0.0
    requires IsBestFit(lib, n, t, fit) && j < |CANDIDATES|
    ensures fit.coef.Finite? && fit.rms.Finite?
    ensures Error(FittingCurve(lib, fit.complexity), n, t, fit.coef.value)
         <= Error(FittingCurve(lib, CANDIDATES[j]), n, t, c)
  {
    var fits: seq<LeastSq>, k: nat :|
      |fits| == |CANDIDATES| && AreFits(lib, n, t, fits) && IsEarliestLeast(fits, k) && fit == fits[k];
    var one, f, g := FittingCurve(lib, CANDIDATES[0]), FittingCurve(lib, CANDIDATES[k]), FittingCurve(lib, CANDIDATES[j]);
    assert one(n[0]) == 1.0;
    FiniteRms(lib, n, t, one, fits[0]);
    FiniteRms(lib, n, t, f, fit);
    if AllZeros(g, n) {
      ZeroCurve(g, one, n, t, c);
      CloserFit(lib, n, t, f, fit, one, fits[0], 0.0);
    } else {
      CloserFit(lib, n, t, f, fit, g, fits[j], c);
    }
  }

  // The error reported is the root of the mean squared residual, relative to the mean time: its
  // square times that of the mean time, n times, makes up the sum of squared residuals.
  lemma {:induction false} RmsSquared(lib: Lib, g: Curve, n: seq<int>, t: seq<real>, fit: LeastSq)
    requires |n| == |t| >= 1 && IsRoot(lib.sqrt) && (forall x :: x >= 0.0 ==> Square(lib.sqrt(x)) == x)
    requires IsFit(lib, g, n, t, fit) && !AllZeros(g, n) && Total(Times(t), |t|) > 0.0
    ensures fit.rms.Finite? && fit.rms.value >= 0.0
    ensures Product(|n| as real, Square(Product(fit.rms.value, Total(Times(t), |t|) / |n| as real)))
         == Error(g, n, t, fit.coef.value)
  {
    var error, k := Error(g, n, t, fit.coef.value), |n| as real;
    MeanOf(n, t);
    QuotientsCompare(error, 0.0, k);
    SquaredBack(lib.sqrt(error / k), Total(Times(t), |t|) / k, error, k);
  }

  lemma SquaredBack(root: real, mean: real, error: real, k: real)
    requires mean > 0.0 && k > 0.0 && root >= 0.0 && Square(root) == error / k
    ensures root / mean >= 0.0 && Product(k, Square(Product(root / mean, mean))) == error
  {
    QuotientsCompare(root, 0.0, mean);
    QuotientTimes(root, mean);
    QuotientTimes(error, k);
    assert Product(root / mean, mean) == root;
  }

  // ----- Measurements that lie on a curve

  // The time is a times the named curve of the size.
  predicate Lies(lib: Lib, complexity: BigO, size: int, time: real, a: real) {
    match complexity
    case O1 => time == a
    case ON => time == a * size as real
    case ONSquared => time == a * (size * size) as real
    case ONCubed => time == a * (size * size * size) as real
    case OLogN => time == a * lib.log2(size)
    case ONLogN => time == a * (size as real * lib.log2(size))
    case _ => false
  }

  predicate ExactData(lib: Lib, complexity: BigO, n: seq<int>, t: seq<real>, a: real)
    requires |n| == |t|
  {
    forall i :: 0 <= i < |n| ==> Lies(lib, complexity, n[i], t[i], a)
  }

  // At some size the named curve is not zero.
  predicate Telling(lib: Lib, complexity: BigO, n: seq<int>) {
    match complexity
    case O1 => n != []
    case OLogN => exists i :: 0 <= i < |n| && lib.log2(n[i]) != 0.0
    case ONLogN => exists i :: 0 <= i < |n| && n[i] != 0 && lib.log2(n[i]) != 0.0
    case _ => exists i :: 0 <= i < |n| && n[i] != 0
  }

  // The fit has found the factor, and leaves no error.
  predicate Recovered(t: seq<real>, a: real, fit: LeastSq) {
    fit.coef == Finite(a) && (Total(Times(t), |t|) > 0.0 ==> fit.rms == Finite(0.0))
  }

  predicate OnCurve(g: Curve, n: seq<int>, t: seq<real>, a: real)
    requires |n| == |t|
  {
    forall i :: 0 <= i < |n| ==> t[i] == Product(a, g(n[i]))
  }

  lemma CurveAt(lib: Lib, complexity: BigO, size: int, time: real, a: real)
    requires complexity in CANDIDATES
    ensures Lies(lib, complexity, size, time, a) <==> time == Product(a, FittingCurve(lib, complexity)(size))
  {
    PowersOf(size);
  }

  lemma PowersOf(size: int)
    ensures size as real * size as real == (size * size) as real
    ensures size as real * size as real * size as real == (size * size * size) as real
  {
    ProductAsReal(size, size);
    ProductAsReal(size * size, size);
  }

  lemma ProductAsReal(x: int, y: int)
    ensures x as real * y as real == (x * y) as real
  {
  }

  lemma ExactIsOnCurve(lib: Lib, complexity: BigO, n: seq<int>, t: seq<real>, a: real)
    requires |n| == |t| && complexity in CANDIDATES
    ensures ExactData(lib, complexity, n, t, a) <==> OnCurve(FittingCurve(lib, complexity), n, t, a)
  {
    forall i | 0 <= i < |n|
      ensures Lies(lib, complexity, n[i], t[i], a) <==> t[i] == Product(a, FittingCurve(lib, complexity)(n[i]))
    {
      CurveAt(lib, complexity, n[i], t[i], a);
    }
  }

  lemma OneOfSix(lib: Lib, complexity: BigO, n: seq<int>, t: seq<real>, a: real)
    requires |n| == |t| >= 1 && ExactData(lib, complexity, n, t, a)
    ensures complexity in CANDIDATES
  {
    assert Lies(lib, complexity, n[0], t[0], a);
  }

  lemma TellingCurve(lib: Lib, complexity: BigO, n: seq<int>)
    requires complexity in CANDIDATES && Telling(lib, complexity, n)
    ensures !AllZeros(FittingCurve(lib, complexity), n)
  {
    var g := FittingCurve(lib, complexity);
    if complexity == O1 {
      assert g(n[0]) == 1.0;
    } else if complexity == OLogN {
    } else {
      var i :| 0 <= i < |n| && n[i] != 0 && (complexity == ONLogN ==> lib.log2(n[i]) != 0.0);
      NotZero(n[i] as real, n[i] as real);
      NotZero(n[i] as real * n[i] as real, n[i] as real);
      NotZero(n[i] as real, lib.log2(n[i]));
      assert g(n[i]) != 0.0;
    }
  }

  lemma NotZero(x: real, y: real)
    requires x != 0.0
    ensures x * y == 0.0 <==> y == 0.0
  {
    if y != 0.0 {
      assert x * y / y == x;
    }
  }

  lemma NoError(g: Curve, n: seq<int>, t: seq<real>, a: real)
    requires |n| == |t|
    ensures Error(g, n, t, a) == 0.0 <==> OnCurve(g, n, t, a)
  {
    ResidualsNonNegative(g, n, t, a);
    TotalNonNegative(Residuals(g, n, t, a), |n|);
    forall i: nat | i < |n| ensures Residuals(g, n, t, a)(i) == 0.0 <==> t[i] == Product(a, g(n[i])) {
      SquareIsZero(t[i] - a * g(n[i]));
    }
  }

  lemma FitOnCurve(lib: Lib, g: Curve, n: seq<int>, t: seq<real>, a: real, fit: LeastSq)
    requires |n| == |t| >= 1 && IsRoot(lib.sqrt) && IsFit(lib, g, n, t, fit) && !AllZeros(g, n) && OnCurve(g, n, t, a)
    ensures Recovered(t, a, fit)
  {
    NoError(g, n, t, a);
    assert Error(g, n, t, fit.coef.value) <= Error(g, n, t, a);
    if Total(Times(t), |t|) > 0.0 {
      MeanOf(n, t);
    }
  }

  // Measurements that lie on the named curve give back its factor, without error.
  lemma ExactDataIsRecovered(lib: Lib, n: seq<int>, t: seq<real>, complexity: BigO, fit: LeastSq)
    requires |n| == |t| >= 1 && IsRoot(lib.sqrt) && IsFit(lib, FittingCurve(lib, complexity), n, t, fit)
    ensures forall a :: ExactData(lib, complexity, n, t, a) && Telling(lib, complexity, n) ==> Recovered(t, a, fit)
  {
    forall a | ExactData(lib, complexity, n, t, a) && Telling(lib, complexity, n) ensures Recovered(t, a, fit) {
      OneOfSix(lib, complexity, n, t, a);
      ExactIsOnCurve(lib, complexity, n, t, a);
      TellingCurve(lib, complexity, n);
      FitOnCurve(lib, FittingCurve(lib, complexity), n, t, a, fit);
    }
  }

  // ----- Exact data and the automatic choice

  function Power(x: real, p: nat): real {
    if p == 0 then 1.0 else Product(x, Power(x, p - 1))
  }

  lemma {:induction false} PowerAdd(x: real, p: nat, d: nat)
    ensures Power(x, p + d) == Product(Power(x, p), Power(x, d))
  {
    if p > 0 {
      PowerAdd(x, p - 1, d);
      Associate(x, Power(x, p - 1), Power(x, d));
    }
  }

  lemma Associate(x: real, y: real, z: real)
    ensures Product(Product(x, y), z) == Product(x, Product(y, z))
  {
  }

  lemma {:induction false} PowersGrow(x: real, y: real, d: nat)
    requires 0.0 < x < y
    ensures 0.0 < Power(x, d) <= Power(y, d) && (d > 0 ==> Power(x, d) < Power(y, d))
  {
    if d > 0 {
      PowersGrow(x, y, d - 1);
      ProductPositive(x, Power(x, d - 1));
      ProductPositive(y - x, Power(y, d - 1));
      LessProduct(x, y, Power(x, d - 1), Power(y, d - 1));
    }
  }

  lemma LessProduct(x: real, y: real, u: real, v: real)
    requires 0.0 < x < y && 0.0 < u <= v
    ensures Product(x, u) < Product(y, v)
  {
    assert y * v - x * u == (y - x) * v + x * (v - u);
    ProductPositive(y - x, v);
    if u < v {
      ProductPositive(x, v - u);
    }
  }

  // Times that are multiples of two different powers of two different sizes are zero.
  lemma PowersDiffer(a: real, b: real, x: real, y: real, p: nat, d: nat)
    requires 0.0 < x < y && d > 0
    requires Product(a, Power(x, p)) == Product(b, Power(x, p + d))
    requires Product(a, Power(y, p)) == Product(b, Power(y, p + d))
    ensures a == 0.0 && b == 0.0
  {
    PowersGrow(x, y, p);
    PowersGrow(x, y, d);
    PowerAdd(x, p, d);
    PowerAdd(y, p, d);
    CancelPower(a, b, Power(x, p), Power(x, d));
    CancelPower(a, b, Power(y, p), Power(y, d));
    assert b * (Power(y, d) - Power(x, d)) == 0.0;
    NotZero(Power(y, d) - Power(x, d), b);
  }

  lemma CancelPower(a: real, b: real, u: real, v: real)
    requires u > 0.0 && Product(a, u) == Product(b, Product(u, v))
    ensures a == Product(b, v)
  {
    assert u * (a - b * v) == 0.0;
    NotZero(u, a - b * v);
  }

  function Degree(complexity: BigO): nat {
    match complexity case ON => 1 case ONSquared => 2 case ONCubed => 3 case _ => 0
  }

  predicate IsPower(complexity: BigO) {
    complexity in {O1, ON, ONSquared, ONCubed}
  }

  lemma CurveOfPower(lib: Lib, complexity: BigO, x: int)
    requires IsPower(complexity)
    ensures FittingCurve(lib, complexity)(x) == Power(x as real, Degree(complexity))
  {
    var r := x as real;
    assert Power(r, 0) == 1.0;
    assert Power(r, 1) == r;
    assert Power(r, 2) == Product(r, r);
    assert Power(r, 3) == Product(r, Product(r, r));
  }

  // Data on two different power curves, with two different positive sizes, are all zero.
  lemma OnePowerFits(lib: Lib, n: seq<int>, t: seq<real>, c: BigO, c': BigO, a: real, b: real, i: nat, j: nat)
    requires |n| == |t| && IsPower(c) && IsPower(c') && Degree(c) < Degree(c')
    requires OnCurve(FittingCurve(lib, c), n, t, a) && OnCurve(FittingCurve(lib, c'), n, t, b)
    requires i < |n| && j < |n| && 0 < n[i] < n[j]
    ensures a == 0.0 && b == 0.0
  {
    CurveOfPower(lib, c, n[i]);
    CurveOfPower(lib, c, n[j]);
    CurveOfPower(lib, c', n[i]);
    CurveOfPower(lib, c', n[j]);
    PowersDiffer(a, b, n[i] as real, n[j] as real, Degree(c), Degree(c') - Degree(c));
  }

  lemma ZeroTimes(g: Curve, n: seq<int>, t: seq<real>)
    requires |n| == |t| && OnCurve(g, n, t, 0.0)
    ensures Total(Times(t), |t|) == 0.0
  {
    TotalNonNegative(Times(t), |t|);
  }

  lemma SamePower(lib: Lib, n: seq<int>, t: seq<real>, c: BigO, c': BigO, a: real, b: real, i: nat, j: nat)
    requires |n| == |t| && IsPower(c) && IsPower(c') && Total(Times(t), |t|) > 0.0
    requires OnCurve(FittingCurve(lib, c), n, t, a) && OnCurve(FittingCurve(lib, c'), n, t, b)
    requires i < |n| && j < |n| && 0 < n[i] < n[j]
    ensures c == c'
  {
    if Degree(c) < Degree(c') {
      OnePowerFits(lib, n, t, c, c', a, b, i, j);
      ZeroTimes(FittingCurve(lib, c), n, t);
    } else if Degree(c') < Degree(c) {
      OnePowerFits(lib, n, t, c', c, b, a, i, j);
      ZeroTimes(FittingCurve(lib, c), n, t);
    }
  }

  // When the measurements lie on one of the six curves, the automatic choice is a curve that they
  // lie on, without error.
  lemma ChosenCurveIsExact(lib: Lib, n: seq<int>, t: seq<real>, fit: LeastSq, complexity: BigO, a: real)
    requires |n| == |t| >= 2 && IsRoot(lib.sqrt) && Total(Times(t), |t|) > 0.0 && IsBestFit(lib, n, t, fit)
    requires ExactData(lib, complexity, n, t, a)
    ensures fit.coef.Finite? && fit.rms == Finite(0.0) && fit.complexity in CANDIDATES
    ensures ExactData(lib, fit.complexity, n, t, fit.coef.value)
  {
    OneOfSix(lib, complexity, n, t, a);
    ExactIsOnCurve(lib, complexity, n, t, a);
    ChosenCurveFits(lib, n, t, fit, complexity, a);
    ExactIsOnCurve(lib, fit.complexity, n, t, fit.coef.value);
  }

  lemma ChosenCurveFits(lib: Lib, n: seq<int>, t: seq<real>, fit: LeastSq, complexity: BigO, a: real)
    requires |n| == |t| >= 2 && IsRoot(lib.sqrt) && Total(Times(t), |t|) > 0.0 && IsBestFit(lib, n, t, fit)
    requires complexity in CANDIDATES && OnCurve(FittingCurve(lib, complexity), n, t, a)
    ensures fit.coef.Finite? && fit.rms == Finite(0.0) && fit.complexity in CANDIDATES
    ensures OnCurve(FittingCurve(lib, fit.complexity), n, t, fit.coef.value)
  {
    var k: nat :| k < |CANDIDATES| && CANDIDATES[k] == complexity;
    NoError(FittingCurve(lib, complexity), n, t, a);
    ChosenCurveIsClosest(lib, n, t, fit, k, a);
    BestFitIsFit(lib, n, t, fit);
    WithoutError(lib, FittingCurve(lib, fit.complexity), n, t, fit);
  }

  lemma WithoutError(lib: Lib, g: Curve, n: seq<int>, t: seq<real>, fit: LeastSq)
    requires |n| == |t| >= 1 && IsRoot(lib.sqrt) && Total(Times(t), |t|) > 0.0
    requires IsFit(lib, g, n, t, fit) && fit.coef.Finite? && Error(g, n, t, fit.coef.value) <= 0.0
    ensures fit.rms == Finite(0.0) && OnCurve(g, n, t, fit.coef.value)
  {
    NoError(g, n, t, fit.coef.value);
    MeanOf(n, t);
  }

  lemma BestFitIsFit(lib: Lib, n: seq<int>, t: seq<real>, fit: LeastSq)
    requires |n| == |t| >= 1 && IsRoot(lib.sqrt) && IsBestFit(lib, n, t, fit)
    ensures fit.complexity in CANDIDATES && IsFit(lib, FittingCurve(lib, fit.complexity), n, t, fit)
  {
    var fits: seq<LeastSq>, k: nat :|
      |fits| == |CANDIDATES| && AreFits(lib, n, t, fits) && IsEarliestLeast(fits, k) && fit == fits[k];
  }

  // Measurements on a power of the size, of which two are different and positive, are reported
  // with that power and its factor, unless a logarithmic curve fits them exactly as well.
  lemma PowerIsChosen(lib: Lib, n: seq<int>, t: seq<real>, fit: LeastSq, power: BigO, a: real, i: nat, j: nat)
    requires |n| == |t| >= 2 && IsRoot(lib.sqrt) && Total(Times(t), |t|) > 0.0 && IsBestFit(lib, n, t, fit)
    requires power in {O1, ON, ONSquared, ONCubed} && ExactData(lib, power, n, t, a)
    requires i < |n| && j < |n| && 0 < n[i] < n[j]
    ensures if fit.complexity in {OLogN, ONLogN} then ExactData(lib, fit.complexity, n, t, fit.coef.value)
            else fit == LeastSq(Finite(a), Finite(0.0), power)
  {
    ChosenCurveIsExact(lib, n, t, fit, power, a);
    if IsPower(fit.complexity) {
      ExactIsOnCurve(lib, power, n, t, a);
      ExactIsOnCurve(lib, fit.complexity, n, t, fit.coef.value);
      SamePower(lib, n, t, power, fit.complexity, a, fit.coef.value, i, j);
      BestFitIsFit(lib, n, t, fit);
      TellingCurve(lib, power, n);
      FitOnCurve(lib, FittingCurve(lib, power), n, t, a, fit);
    }
  }

  // ----- ComputeBigO

  datatype Run = Run(complexityN: int, iterations: nat, realTime: real, cpuTime: real)

  // The fits of the times of a family's runs.
  datatype BigOFit = BigOFit(cpu: LeastSq, wall: LeastSq)

  // Sizes and times for one iteration.
  predicate Describe(runs: seq<Run>, n: seq<int>, cpuTimes: seq<real>, realTimes: seq<real>) {
    && |n| == |cpuTimes| == |realTimes| == |runs|
    && forall i :: 0 <= i < |runs| ==>
         && n[i] == runs[i].complexityN
         && cpuTimes[i] * runs[i].iterations as real == runs[i].cpuTime
         && realTimes[i] * runs[i].iterations as real == runs[i].realTime
  }

  lemma DescribeNext(runs: seq<Run>, n: seq<int>, cpuTimes: seq<real>, realTimes: seq<real>, run: Run)
    requires Describe(runs, n, cpuTimes, realTimes) && run.iterations >= 1
    ensures Describe(runs + [run], n + [run.complexityN], cpuTimes + [run.cpuTime / run.iterations as real],
                     realTimes + [run.realTime / run.iterations as real])
  {
    QuotientTimes(run.cpuTime, run.iterations as real);
    QuotientTimes(run.realTime, run.iterations as real);
  }

  lemma QuotientTimes(x: real, d: real)
    requires d != 0.0
    ensures x / d * d == x
  {
  }

  // The curve that a report names.
  function Reported(lib: Lib, complexity: BigO, lambda: Curve): Curve {
    if complexity == OLambda then lambda else FittingCurve(lib, complexity)
  }

  // Both fits report the same curve; with automatic choice it is the best one for the time that
  // the benchmark is measured in.
  ghost predicate AreBothFits(lib: Lib, n: seq<int>, cpuTimes: seq<real>, realTimes: seq<real>, complexity: BigO,
                              lambda: Curve, useRealTime: bool, r: BigOFit)
    requires |n| == |cpuTimes| == |realTimes| >= 1 && IsRoot(lib.sqrt)
  {
    var curve := Reported(lib, r.cpu.complexity, lambda);
    && r.cpu.complexity == r.wall.complexity && (complexity != OAuto ==> r.cpu.complexity == complexity)
    && IsFit(lib, curve, n, cpuTimes, r.cpu) && IsFit(lib, curve, n, realTimes, r.wall)
    && (complexity == OAuto ==>
         if useRealTime then IsBestFit(lib, n, realTimes, r.wall) else IsBestFit(lib, n, cpuTimes, r.cpu))
  }

  method FitBoth(lib: Lib, n: seq<int>, cpuTimes: seq<real>, realTimes: seq<real>, complexity: BigO,
                 lambda: Curve, useRealTime: bool) returns (r: BigOFit)
    requires |n| == |cpuTimes| == |realTimes| >= 2 && IsRoot(lib.sqrt) && complexity != ONone
    ensures AreBothFits(lib, n, cpuTimes, realTimes, complexity, lambda, useRealTime, r)
  {
    var cpu, wall;
    if complexity == OLambda {
      cpu := MinimalLeastSq(lib, n, cpuTimes, lambda);
      wall := MinimalLeastSq(lib, n, realTimes, lambda);
    } else if useRealTime {
      wall := MinimalLeastSqAmong(lib, n, realTimes, complexity);
      cpu := MinimalLeastSqAmong(lib, n, cpuTimes, wall.complexity);
    } else {
      cpu := MinimalLeastSqAmong(lib, n, cpuTimes, complexity);
      wall := MinimalLeastSqAmong(lib, n, realTimes, cpu.complexity);
    }
    r := BigOFit(cpu, wall);
  }

  method ComputeBigO(lib: Lib, runs: seq<Run>, complexity: BigO, lambda: Curve, useRealTime: bool)
    returns (r: Option<BigOFit>)
    requires IsRoot(lib.sqrt) && complexity != ONone
    requires forall x :: x in runs ==> x.complexityN > 0 && x.iterations >= 1
    ensures r.None? <==> |runs| < 2
    ensures r.Some? ==> exists n, cpuTimes, realTimes ::
      Describe(runs, n, cpuTimes, realTimes) &&
      AreBothFits(lib, n, cpuTimes, realTimes, complexity, lambda, useRealTime, r.value)
  {
    if |runs| < 2 {
      return None;
    }
    var n: seq<int>, realTimes: seq<real>, cpuTimes: seq<real> := [], [], [];
    var i := 0;
    while i < |runs|
      invariant 0 <= i <= |runs| && Describe(runs[..i], n, cpuTimes, realTimes)
    {
      var run := runs[i];
      assert run in runs && runs[..i + 1] == runs[..i] + [run];
      DescribeNext(runs[..i], n, cpuTimes, realTimes, run);
      n := n + [run.complexityN];
      realTimes := realTimes + [run.realTime / run.iterations as real];
      cpuTimes := cpuTimes + [run.cpuTime / run.iterations as real];
      i := i + 1;
    }
    assert runs[..i] == runs;
    var both := FitBoth(lib, n, cpuTimes, realTimes, complexity, lambda, useRealTime);
    r := Some(both);
  }
}
