/** The correlations of the scheduling diagnostic
    (scripts/benchmarks/x11_shm_screenshot_runner.py), over the reals. */
module Correlations {
  import opened Outcomes
  import opened Retention
  import opened Summaries

  // ---------------------------------------------------------------- sums

  function Sum(xs: seq<real>): real {
    if xs == [] then 0.0 else xs[0] + Sum(xs[1..])
  }

  function Mean(xs: seq<real>): real
    requires xs != []
  {
    Sum(xs) / |xs| as real
  }

  function Deviations(xs: seq<real>, mean: real): (ds: seq<real>)
    ensures |ds| == |xs| && forall k :: 0 <= k < |xs| ==> ds[k] == xs[k] - mean
  {
    seq(|xs|, k requires 0 <= k < |xs| => xs[k] - mean)
  }

  function Dot(a: seq<real>, b: seq<real>): real
    requires |a| == |b|
  {
    if a == [] then 0.0 else a[0] * b[0] + Dot(a[1..], b[1..])
  }

  /** The deviations' products: variance sums when both lists are the same. */
  function Products(xs: seq<real>, ys: seq<real>): real
    requires xs != [] && |xs| == |ys|
  {
    Dot(Deviations(xs, Mean(xs)), Deviations(ys, Mean(ys)))
  }

  datatype Coefficient = Undefined | Defined(value: real)

  function Clamped(x: real): real {
    if x > 1.0 then 1.0 else if x < -1.0 then -1.0 else x
  }

  /** A square root, as `math.sqrt` is meant: no rounding. */
  ghost predicate IsSquareRoot(sqrt: real -> real) {
    forall v :: v > 0.0 ==> sqrt(v) > 0.0 && sqrt(v) * sqrt(v) == v
  }

  /** `correlation`.  Without samples the mean raises. */
  function Correlation(xs: seq<real>, ys: seq<real>, sqrt: real -> real): Outcome<Coefficient>
    requires |xs| == |ys|
  {
    if xs == [] then Raises
    else CoefficientOf(Products(xs, xs), Products(xs, ys), Products(ys, ys), sqrt)
  }

  function CoefficientOf(first: real, covariance: real, second: real, sqrt: real -> real): Outcome<Coefficient> {
    if first == 0.0 || second == 0.0 then Returns(Undefined)
    else
      var root := Root(first, second, sqrt);
      if root == 0.0 then Raises else Returns(Defined(Clamped(covariance / root)))
  }

  function Root(first: real, second: real, sqrt: real -> real): real {
    sqrt(first * second)
  }

  // ---------------------------------------------------------------- the inequality

  lemma PositiveProduct(x: real, y: real, product: real)
    requires x > 0.0 && y > 0.0 && product == x * y
    ensures product > 0.0
  {
  }

  lemma SquareNotNegative(x: real, square: real)
    requires square == x * x
    ensures square >= 0.0
    ensures x != 0.0 ==> square > 0.0
  {
    if x < 0.0 {
      PositiveProduct(-x, -x, square);
    } else if x > 0.0 {
      PositiveProduct(x, x, square);
    }
  }

  ghost predicate AllZero(a: seq<real>) {
    forall k :: 0 <= k < |a| ==> a[k] == 0.0
  }

  lemma {:induction false} DotNotNegative(a: seq<real>)
    ensures Dot(a, a) >= 0.0
    ensures AllZero(a) ==> Dot(a, a) == 0.0
    ensures !AllZero(a) ==> Dot(a, a) > 0.0
  {
    if a != [] {
      var x, square, rest := a[0], a[0] * a[0], a[1..];
      SquareNotNegative(x, square);
      DotNotNegative(rest);
      assert Dot(a, a) == square + Dot(rest, rest);
      if x == 0.0 && AllZero(rest) {
        assert forall k :: 1 <= k < |a| ==> a[k] == rest[k - 1];
      }
    }
  }

  function Combined(a: seq<real>, b: seq<real>, p: real, q: real): (c: seq<real>)
    requires |a| == |b|
    ensures |c| == |a| && forall k :: 0 <= k < |a| ==> c[k] == p * a[k] - q * b[k]
  {
    seq(|a|, k requires 0 <= k < |a| => p * a[k] - q * b[k])
  }

  lemma SquareOfDifference(p: real, a: real, q: real, b: real)
    ensures (p * a - q * b) * (p * a - q * b) == p * p * (a * a) - 2.0 * p * q * (a * b) + q * q * (b * b)
  {
    var x, y := p * a, q * b;
    assert (x - y) * (x - y) == x * x - 2.0 * (x * y) + y * y;
    assert x * x == p * p * (a * a);
    assert y * y == q * q * (b * b);
    assert x * y == p * q * (a * b);
  }

  predicate Combines(c: real, a: real, b: real, p: real, q: real) {
    c == p * a - q * b
  }

  lemma CombinedRest(a: seq<real>, b: seq<real>, p: real, q: real)
    requires |a| == |b| && a != []
    ensures Combined(a, b, p, q)[1..] == Combined(a[1..], b[1..], p, q)
    ensures Combines(Combined(a, b, p, q)[0], a[0], b[0], p, q)
  {
    var c, rest := Combined(a, b, p, q), Combined(a[1..], b[1..], p, q);
    forall k | 0 <= k < |rest| ensures c[1..][k] == rest[k] {
      assert rest[k] == p * a[1..][k] - q * b[1..][k];
    }
  }

  function Quadratic(p: real, q: real, x: real, y: real, z: real): real {
    p * p * x - 2.0 * p * q * y + q * q * z
  }

  predicate Adds(total: real, x: real, y: real, rest: real) {
    total == x * y + rest
  }

  lemma DotStep(a: seq<real>, b: seq<real>)
    requires |a| == |b| && a != []
    ensures Adds(Dot(a, b), a[0], b[0], Dot(a[1..], b[1..]))
  {
  }

  /** The squared length of p·a - q·b. */
  lemma {:induction false} CombinedLength(a: seq<real>, b: seq<real>, p: real, q: real)
    requires |a| == |b|
    ensures Dot(Combined(a, b, p, q), Combined(a, b, p, q)) == Quadratic(p, q, Dot(a, a), Dot(a, b), Dot(b, b))
  {
    if a != [] {
      hide Dot, Combined, Quadratic, Combines, Adds;
      var c := Combined(a, b, p, q);
      CombinedLength(a[1..], b[1..], p, q);
      CombinedRest(a, b, p, q);
      DotStep(a, a);
      DotStep(a, b);
      DotStep(b, b);
      DotStep(c, c);
      StepOfLength(p, q, a[0], b[0], c[0], Dot(a[1..], a[1..]), Dot(a[1..], b[1..]), Dot(b[1..], b[1..]),
                   Dot(a, a), Dot(a, b), Dot(b, b), Dot(c, c));
    }
  }

  lemma StepOfLength(p: real, q: real, a: real, b: real, c: real, x: real,
                     y: real, z: real, aa: real, ab: real, bb: real, cc: real)
    requires Combines(c, a, b, p, q) && Adds(aa, a, a, x) && Adds(ab, a, b, y) && Adds(bb, b, b, z)
    requires Adds(cc, c, c, Quadratic(p, q, x, y, z))
    ensures cc == Quadratic(p, q, aa, ab, bb)
  {
    SquareOfDifference(p, a, q, b);
    Distribute(p * p, a * a, x);
    Distribute(2.0 * p * q, a * b, y);
    Distribute(q * q, b * b, z);
  }

  lemma Distribute(x: real, y: real, z: real)
    ensures x * (y + z) == x * y + x * z
  {
  }

  lemma {:induction false} DotOfZero(a: seq<real>, b: seq<real>)
    requires |a| == |b| && AllZero(a)
    ensures Dot(a, b) == 0.0
  {
    if a != [] {
      assert forall k :: 0 <= k < |a| - 1 ==> a[1..][k] == a[k + 1];
      DotOfZero(a[1..], b[1..]);
    }
  }

  /** Every entry of `b` is the same multiple of `a`'s. */
  ghost predicate MultipleOf(b: seq<real>, a: seq<real>, slope: real)
    requires |a| == |b|
  {
    AllZero(Combined(a, b, slope, 1.0))
  }

  lemma MultipleMeans(b: seq<real>, a: seq<real>, slope: real)
    requires |a| == |b|
    ensures MultipleOf(b, a, slope) <==> forall k :: 0 <= k < |a| ==> b[k] == slope * a[k]
  {
    var c := Combined(a, b, slope, 1.0);
    assert forall k :: 0 <= k < |a| ==> c[k] == slope * a[k] - 1.0 * b[k];
  }

  lemma MultipleRest(b: seq<real>, a: seq<real>, slope: real)
    requires |a| == |b| && a != [] && MultipleOf(b, a, slope)
    ensures b[0] == slope * a[0] && MultipleOf(b[1..], a[1..], slope)
  {
    MultipleMeans(b, a, slope);
    MultipleMeans(b[1..], a[1..], slope);
  }

  lemma {:induction false} MultipleSums(b: seq<real>, a: seq<real>, slope: real)
    requires |a| == |b| && MultipleOf(b, a, slope)
    ensures Multiplied(Dot(a, a), Dot(a, b), Dot(b, b), slope)
  {
    if a != [] {
      MultipleRest(b, a, slope);
      MultipleSums(b[1..], a[1..], slope);
      MultipleStep(a[0], b[0], slope, Dot(a[1..], a[1..]), Dot(a[1..], b[1..]), Dot(b[1..], b[1..]), Dot(a, a),
                   Dot(a, b), Dot(b, b));
    }
  }

  predicate Multiplied(saa: real, sab: real, sbb: real, slope: real) {
    sab == slope * saa && sbb == slope * sab
  }

  lemma MultipleStep(a: real, b: real, slope: real, x: real, y: real, z: real, aa: real, ab: real, bb: real)
    requires b == slope * a && Multiplied(x, y, z, slope)
    requires aa == a * a + x && ab == a * b + y && bb == b * b + z
    ensures Multiplied(aa, ab, bb, slope)
  {
    assert a * b == slope * (a * a) && b * b == slope * (a * b);
    Distribute(slope, a * a, x);
    Distribute(slope, a * b, y);
  }

  /** The length left of `b` after taking its best multiple of `a` away, in terms of the sums. */
  lemma RestDecides(saa: real, sab: real, sbb: real, slope: real, rest: real)
    requires saa > 0.0 && slope * saa == sab && rest == Quadratic(slope, 1.0, saa, sab, sbb) && rest >= 0.0
    ensures Bounded(saa, sab, sbb) && (rest > 0.0 ==> !Tight(saa, sab, sbb))
  {
    var product := saa * rest;
    RestFactors(saa, sab, sbb, slope, rest);
    if rest > 0.0 {
      PositiveProduct(saa, rest, product);
    }
  }

  lemma RestFactors(saa: real, sab: real, sbb: real, slope: real, rest: real)
    requires slope * saa == sab && rest == Quadratic(slope, 1.0, saa, sab, sbb)
    ensures saa * rest == saa * sbb - sab * sab
  {
    assert slope * slope * saa == slope * sab;
    assert rest == sbb - slope * sab;
    assert saa * (slope * sab) == sab * sab;
    assert saa * rest == saa * sbb - saa * (slope * sab);
  }

  lemma EqualSums(saa: real, sab: real, sbb: real, slope: real)
    requires Multiplied(saa, sab, sbb, slope)
    ensures Tight(saa, sab, sbb)
  {
    assert saa * (slope * sab) == (slope * saa) * sab;
  }

  lemma FindSlope(saa: real, sab: real) returns (slope: real)
    requires saa > 0.0
    ensures slope * saa == sab
  {
    slope := sab / saa;
  }

  /** The inequality, over the sums. */
  predicate Bounded(saa: real, sab: real, sbb: real) {
    sab * sab <= saa * sbb
  }

  predicate Tight(saa: real, sab: real, sbb: real) {
    sab * sab == saa * sbb
  }

  lemma BestMultiple(a: seq<real>, b: seq<real>) returns (slope: real)
    requires |a| == |b| && Dot(a, a) > 0.0
    ensures Bounded(Dot(a, a), Dot(a, b), Dot(b, b))
    ensures Tight(Dot(a, a), Dot(a, b), Dot(b, b)) ==> MultipleOf(b, a, slope)
  {
    hide Dot, Quadratic, Bounded, Tight, AllZero, Combined;
    slope := FindSlope(Dot(a, a), Dot(a, b));
    var c := Combined(a, b, slope, 1.0);
    CombinedLength(a, b, slope, 1.0);
    DotNotNegative(c);
    RestDecides(Dot(a, a), Dot(a, b), Dot(b, b), slope, Dot(c, c));
  }

  /** Covariance squared never exceeds the product of the variances, for lists of any length. */
  lemma CauchySchwarz(a: seq<real>, b: seq<real>)
    requires |a| == |b|
    ensures Bounded(Dot(a, a), Dot(a, b), Dot(b, b))
  {
    DotNotNegative(a);
    if AllZero(a) {
      DotOfZero(a, b);
    } else {
      var _ := BestMultiple(a, b);
    }
  }

  /** They are equal exactly when one list is a multiple of the other. */
  lemma CauchySchwarzEquality(a: seq<real>, b: seq<real>)
    requires |a| == |b| && Dot(a, a) > 0.0
    ensures Tight(Dot(a, a), Dot(a, b), Dot(b, b)) <==> exists slope :: MultipleOf(b, a, slope)
  {
    var best := BestMultiple(a, b);
    if slope :| MultipleOf(b, a, slope) {
      MultipleSums(b, a, slope);
      EqualSums(Dot(a, a), Dot(a, b), Dot(b, b), slope);
    }
  }

  // ---------------------------------------------------------------- the coefficient

  predicate Constant(xs: seq<real>) {
    forall j, k :: 0 <= j < |xs| && 0 <= k < |xs| ==> xs[j] == xs[k]
  }

  lemma {:induction false} SumOfConstant(xs: seq<real>, c: real)
    requires forall k :: 0 <= k < |xs| ==> xs[k] == c
    ensures Sum(xs) == |xs| as real * c
  {
    if xs != [] {
      assert forall k :: 0 <= k < |xs| - 1 ==> xs[1..][k] == xs[k + 1];
      SumOfConstant(xs[1..], c);
    }
  }

  lemma CancelCount(n: int, c: real)
    requires n > 0
    ensures n as real * c / n as real == c
  {
  }

  lemma ConstantIsItsMean(xs: seq<real>)
    requires xs != [] && Constant(xs)
    ensures forall k :: 0 <= k < |xs| ==> xs[k] == Mean(xs)
  {
    assert forall k :: 0 <= k < |xs| ==> xs[k] == xs[0];
    SumOfConstant(xs, xs[0]);
    CancelCount(|xs|, xs[0]);
  }

  lemma NoDeviation(xs: seq<real>, mean: real)
    ensures AllZero(Deviations(xs, mean)) <==> forall k :: 0 <= k < |xs| ==> xs[k] == mean
  {
    var ds := Deviations(xs, mean);
    assert forall k :: 0 <= k < |xs| ==> ds[k] == xs[k] - mean;
  }

  /** A variance sum vanishes exactly for a list without variation. */
  lemma NoVariation(xs: seq<real>)
    requires xs != []
    ensures Products(xs, xs) >= 0.0
    ensures Products(xs, xs) == 0.0 <==> Constant(xs)
  {
    DotNotNegative(Deviations(xs, Mean(xs)));
    NoDeviation(xs, Mean(xs));
    if Constant(xs) {
      ConstantIsItsMean(xs);
    }
  }

  lemma QuotientBounds(cov: real, product: real, root: real)
    requires root > 0.0 && root * root == product && cov * cov <= product
    ensures -1.0 <= cov / root <= 1.0
  {
    var q := cov / root;
    assert q * root == cov;
    SquaresOrdered(cov, root);
    SquaresOrdered(-cov, root);
    if q > 1.0 {
      PositiveProduct(q - 1.0, root, cov - root);
    } else if q < -1.0 {
      PositiveProduct(-1.0 - q, root, -root - cov);
    }
  }

  lemma SquaresOrdered(x: real, y: real)
    requires y > 0.0 && x * x <= y * y
    ensures x <= y
  {
    if x > y {
      PositiveProduct(x - y, x + y, x * x - y * y);
    }
  }

  /** The coefficient, before clamping. */
  function Quotient(first: real, covariance: real, second: real, sqrt: real -> real): real
    requires Root(first, second, sqrt) != 0.0
  {
    covariance / Root(first, second, sqrt)
  }

  lemma QuotientInRange(first: real, covariance: real, second: real, sqrt: real -> real)
    requires IsSquareRoot(sqrt) && first > 0.0 && second > 0.0 && Bounded(first, covariance, second)
    ensures Root(first, second, sqrt) > 0.0
    ensures -1.0 <= Quotient(first, covariance, second, sqrt) <= 1.0
    ensures CoefficientOf(first, covariance, second, sqrt) ==
              Returns(Defined(Quotient(first, covariance, second, sqrt)))
  {
    var product := first * second;
    PositiveProduct(first, second, product);
    QuotientBounds(covariance, product, sqrt(product));
  }

  /** Over the reals the coefficient lies in [-1, 1] by itself: clamping never changes it. */
  lemma ClampIsIdle(xs: seq<real>, ys: seq<real>, sqrt: real -> real)
    requires xs != [] && |xs| == |ys| && IsSquareRoot(sqrt) && !Constant(xs) && !Constant(ys)
    ensures Root(Products(xs, xs), Products(ys, ys), sqrt) > 0.0
    ensures -1.0 <= Quotient(Products(xs, xs), Products(xs, ys), Products(ys, ys), sqrt) <= 1.0
    ensures Correlation(xs, ys, sqrt) ==
              Returns(Defined(Quotient(Products(xs, xs), Products(xs, ys), Products(ys, ys), sqrt)))
  {
    NoVariation(xs);
    NoVariation(ys);
    CauchySchwarz(Deviations(xs, Mean(xs)), Deviations(ys, Mean(ys)));
    QuotientInRange(Products(xs, xs), Products(xs, ys), Products(ys, ys), sqrt);
  }

  /** With samples there is always an answer, and it is undefined exactly when one of the lists does
      not vary. */
  lemma UndefinedExactly(xs: seq<real>, ys: seq<real>, sqrt: real -> real)
    requires |xs| == |ys| && IsSquareRoot(sqrt)
    ensures Correlation(xs, ys, sqrt).Raises? <==> xs == []
    ensures Correlation(xs, ys, sqrt) == Returns(Undefined) <==> xs != [] && (Constant(xs) || Constant(ys))
  {
    if xs != [] {
      NoVariation(xs);
      NoVariation(ys);
      if !Constant(xs) && !Constant(ys) {
        ClampIsIdle(xs, ys, sqrt);
      } else {
        UndefinedCoefficient(Products(xs, xs), Products(xs, ys), Products(ys, ys), sqrt);
      }
    }
  }

  lemma UndefinedCoefficient(first: real, covariance: real, second: real, sqrt: real -> real)
    requires first == 0.0 || second == 0.0
    ensures CoefficientOf(first, covariance, second, sqrt) == Returns(Undefined)
  {
  }

  lemma QuotientAtBound(saa: real, sab: real, sbb: real, root: real, q: real)
    requires root > 0.0 && root * root == saa * sbb && Bounded(saa, sab, sbb) && q == sab / root
    ensures q == 1.0 || q == -1.0 <==> Tight(saa, sab, sbb)
  {
    assert q * root == sab;
    if Tight(saa, sab, sbb) {
      SquaresOrdered(sab, root);
      SquaresOrdered(-sab, root);
      if sab == root {
        CancelRoot(q, 1.0, root);
      } else if sab == -root {
        CancelRoot(q, -1.0, root);
      } else {
        PositiveProduct(root - sab, root + sab, root * root - sab * sab);
      }
    }
  }

  lemma CancelRoot(x: real, y: real, root: real)
    requires root > 0.0 && x * root == y * root
    ensures x == y
  {
    if x > y {
      PositiveProduct(x - y, root, x * root - y * root);
    } else if x < y {
      PositiveProduct(y - x, root, y * root - x * root);
    }
  }

  lemma CoefficientDecides(saa: real, sab: real, sbb: real, sqrt: real -> real, q: real)
    requires IsSquareRoot(sqrt) && saa >= 0.0 && sbb >= 0.0 && Bounded(saa, sab, sbb)
    requires CoefficientOf(saa, sab, sbb, sqrt) == Returns(Defined(q))
    ensures saa > 0.0 && (q == 1.0 || q == -1.0 <==> Tight(saa, sab, sbb))
  {
    QuotientInRange(saa, sab, sbb, sqrt);
    QuotientAtBound(saa, sab, sbb, Root(saa, sbb, sqrt), q);
  }

  lemma DefinedMeans(xs: seq<real>, ys: seq<real>, sqrt: real -> real, q: real)
    requires xs != [] && |xs| == |ys| && IsSquareRoot(sqrt)
    requires Correlation(xs, ys, sqrt) == Returns(Defined(q))
    ensures Products(xs, xs) > 0.0
    ensures q == 1.0 || q == -1.0 <==> Tight(Products(xs, xs), Products(xs, ys), Products(ys, ys))
  {
    DotNotNegative(Deviations(xs, Mean(xs)));
    DotNotNegative(Deviations(ys, Mean(ys)));
    CauchySchwarz(Deviations(xs, Mean(xs)), Deviations(ys, Mean(ys)));
    CoefficientDecides(Products(xs, xs), Products(xs, ys), Products(ys, ys), sqrt, q);
  }

  /** The coefficient is 1 or -1 exactly when one metric's deviations are a multiple of the other's. */
  lemma PerfectExactly(xs: seq<real>, ys: seq<real>, sqrt: real -> real, q: real)
    requires xs != [] && |xs| == |ys| && IsSquareRoot(sqrt)
    requires Correlation(xs, ys, sqrt) == Returns(Defined(q))
    ensures q == 1.0 || q == -1.0 <==>
              exists slope :: MultipleOf(Deviations(ys, Mean(ys)), Deviations(xs, Mean(xs)), slope)
  {
    DefinedMeans(xs, ys, sqrt, q);
    CauchySchwarzEquality(Deviations(xs, Mean(xs)), Deviations(ys, Mean(ys)));
  }

  // ---------------------------------------------------------------- the coefficient, apart from its mean

  lemma {:induction false} SumAppends(xs: seq<real>, ys: seq<real>)
    ensures Sum(xs + ys) == Sum(xs) + Sum(ys)
    ensures forall x: real :: Sum([x]) == x
  {
    if xs == [] {
      assert xs + ys == ys;
    } else {
      assert (xs + ys)[1..] == xs[1..] + ys;
      SumAppends(xs[1..], ys);
    }
  }

  lemma {:induction false} DotAppends(a: seq<real>, b: seq<real>, c: seq<real>, d: seq<real>)
    requires |a| == |b| && |c| == |d|
    ensures Dot(a + c, b + d) == Dot(a, b) + Dot(c, d)
    ensures forall x: real, y: real :: Dot([x], [y]) == x * y
  {
    if a == [] {
      assert a + c == c && b + d == d;
    } else {
      assert (a + c)[1..] == a[1..] + c && (b + d)[1..] == b[1..] + d;
      DotAppends(a[1..], b[1..], c, d);
    }
  }

  lemma {:induction false} SumOfDeviations(xs: seq<real>, centre: real)
    ensures Sum(Deviations(xs, centre)) == Sum(xs) - |xs| as real * centre
  {
    if xs != [] {
      SumOfDeviations(xs[1..], centre);
      assert Deviations(xs, centre)[1..] == Deviations(xs[1..], centre);
      OneMoreTerm(|xs|, centre);
    }
  }

  lemma OneMoreTerm(n: nat, x: real)
    requires n > 0
    ensures n as real * x == (n - 1) as real * x + x
  {
    assert n as real == (n - 1) as real + 1.0;
  }

  lemma MeanTimesCount(xs: seq<real>)
    requires xs != []
    ensures |xs| as real * Mean(xs) == Sum(xs)
  {
  }

  lemma CancelCounts(n: int, x: real, y: real)
    requires n > 0 && n as real * x == n as real * y
    ensures x == y
  {
    CancelRoot(x, y, n as real);
  }

  /** The deviations from the mean balance, and from no other centre. */
  lemma MeanBalances(xs: seq<real>, centre: real)
    requires xs != []
    ensures Sum(Deviations(xs, centre)) == 0.0 <==> centre == Mean(xs)
  {
    SumOfDeviations(xs, centre);
    MeanTimesCount(xs);
    if |xs| as real * centre == |xs| as real * Mean(xs) {
      CancelCounts(|xs|, centre, Mean(xs));
    }
  }

  /** The products of deviations from two centres, in terms of plain sums. */
  function Centred(n: int, xy: real, x: real, y: real, c: real, d: real): real {
    xy - d * x - c * y + n as real * (c * d)
  }

  lemma CentredStep(n: nat, first: real, second: real, xy: real, x: real, y: real, c: real, d: real)
    requires n > 0
    ensures (first - c) * (second - d) + Centred(n - 1, xy, x, y, c, d) ==
            Centred(n, first * second + xy, first + x, second + y, c, d)
  {
    OneMoreTerm(n, c * d);
    Distribute(d, first, x);
    Distribute(c, second, y);
    ProductOfDifferences(first, c, second, d);
  }

  lemma ProductOfDifferences(x: real, c: real, y: real, d: real)
    ensures (x - c) * (y - d) == x * y - d * x - c * y + c * d
  {
  }

  lemma DeviationsRest(xs: seq<real>, centre: real)
    requires xs != []
    ensures Deviations(xs, centre)[0] == xs[0] - centre && Deviations(xs, centre)[1..] == Deviations(xs[1..], centre)
  {
  }

  lemma {:induction false} ProductsOfDeviations(xs: seq<real>, ys: seq<real>, c: real, d: real)
    requires |xs| == |ys|
    ensures Dot(Deviations(xs, c), Deviations(ys, d)) == Centred(|xs|, Dot(xs, ys), Sum(xs), Sum(ys), c, d)
  {
    if xs == [] {
      assert Deviations(xs, c) == [];
    } else {
      hide Centred;
      DeviationsRest(xs, c);
      DeviationsRest(ys, d);
      ProductsOfDeviations(xs[1..], ys[1..], c, d);
      CentredStep(|xs|, xs[0], ys[0], Dot(xs[1..], ys[1..]), Sum(xs[1..]), Sum(ys[1..]), c, d);
    }
  }

  /** The same sums without any deviation: n·Σxy - Σx·Σy. */
  function Moment(xs: seq<real>, ys: seq<real>): real
    requires |xs| == |ys|
  {
    |xs| as real * Dot(xs, ys) - Sum(xs) * Sum(ys)
  }

  lemma CentredAtMeans(n: int, xy: real, x: real, y: real, c: real, d: real)
    requires n as real * c == x && n as real * d == y
    ensures n as real * Centred(n, xy, x, y, c, d) == n as real * xy - x * y
  {
    var m := n as real;
    assert m * (c * d) == x * d && c * y == m * (c * d);
    assert Centred(n, xy, x, y, c, d) == xy - d * x;
    assert m * (d * x) == y * x;
  }

  lemma ProductsAreMoments(xs: seq<real>, ys: seq<real>)
    requires xs != [] && |xs| == |ys|
    ensures |xs| as real * Products(xs, ys) == Moment(xs, ys)
  {
    hide Dot, Sum, Mean, Centred;
    MeanTimesCount(xs);
    MeanTimesCount(ys);
    ProductsOfDeviations(xs, ys, Mean(xs), Mean(ys));
    CentredAtMeans(|xs|, Dot(xs, ys), Sum(xs), Sum(ys), Mean(xs), Mean(ys));
  }

  lemma PositiveMoment(n: int, products: real, moment: real)
    requires n > 0 && n as real * products == moment
    ensures (moment == 0.0 <==> products == 0.0) && (moment > 0.0 <==> products > 0.0)
  {
  }

  lemma RootScales(k: real, product: real, root: real, scaled: real, scaledRoot: real)
    requires k > 0.0 && root > 0.0 && scaledRoot > 0.0
    requires root * root == product && scaledRoot * scaledRoot == scaled && scaled == k * k * product
    ensures scaledRoot == k * root
  {
    assert (k * root) * (k * root) == k * k * (root * root);
    PositiveProduct(k, root, k * root);
    EqualSquares(scaledRoot, k * root);
  }

  lemma EqualSquares(x: real, y: real)
    requires x > 0.0 && y > 0.0 && x * x == y * y
    ensures x == y
  {
    SquaresOrdered(x, y);
    SquaresOrdered(y, x);
  }

  lemma QuotientDecides(k: real, covariance: real, root: real, c: real, r: real, q: real)
    requires k > 0.0 && root > 0.0 && c == k * covariance && r == k * root
    ensures q == covariance / root <==> q * r == c
  {
    var v := covariance / root;
    assert v * root == covariance;
    assert v * r == c;
    PositiveProduct(k, root, r);
    if q * r == c {
      CancelRoot(q, v, r);
    }
  }

  lemma RootOfMoments(k: real, first: real, second: real, f: real, s: real, sqrt: real -> real)
    requires IsSquareRoot(sqrt) && k > 0.0 && first > 0.0 && second > 0.0 && f == k * first && s == k * second
    ensures f > 0.0 && s > 0.0 && sqrt(first * second) > 0.0 && sqrt(f * s) == k * sqrt(first * second)
  {
    PositiveProduct(k, first, f);
    PositiveProduct(k, second, s);
    PositiveProduct(first, second, first * second);
    PositiveProduct(f, s, f * s);
    assert f * s == k * k * (first * second);
    RootScales(k, first * second, sqrt(first * second), f * s, sqrt(f * s));
  }

  lemma QuotientByMoments(k: real, first: real, covariance: real, second: real,
                          f: real, c: real, s: real, sqrt: real -> real, q: real)
    requires IsSquareRoot(sqrt) && k > 0.0 && first > 0.0 && second > 0.0
    requires f == k * first && c == k * covariance && s == k * second
    ensures f > 0.0 && s > 0.0 && Root(first, second, sqrt) > 0.0
    ensures q == Quotient(first, covariance, second, sqrt) <==> q * sqrt(f * s) == c
  {
    RootOfMoments(k, first, second, f, s, sqrt);
    QuotientDecides(k, covariance, sqrt(first * second), c, sqrt(f * s), q);
  }

  /** What the coefficient is: q·√((n·Σx² - (Σx)²)·(n·Σy² - (Σy)²)) = n·Σxy - Σx·Σy, if both factors are
      positive, and undefined otherwise. */
  lemma CoefficientMeans(xs: seq<real>, ys: seq<real>, sqrt: real -> real, q: real)
    requires xs != [] && |xs| == |ys| && IsSquareRoot(sqrt)
    ensures Correlation(xs, ys, sqrt) == Returns(Defined(q)) <==>
      Moment(xs, xs) > 0.0 && Moment(ys, ys) > 0.0
      && q * sqrt(Moment(xs, xs) * Moment(ys, ys)) == Moment(xs, ys)
  {
    hide Products, Moment, Correlation, Constant, Quotient, Root;
    NoVariation(xs);
    NoVariation(ys);
    ProductsAreMoments(xs, xs);
    ProductsAreMoments(xs, ys);
    ProductsAreMoments(ys, ys);
    PositiveMoment(|xs|, Products(xs, xs), Moment(xs, xs));
    PositiveMoment(|xs|, Products(ys, ys), Moment(ys, ys));
    UndefinedExactly(xs, ys, sqrt);
    if !Constant(xs) && !Constant(ys) {
      ClampIsIdle(xs, ys, sqrt);
      QuotientByMoments(|xs| as real, Products(xs, xs), Products(xs, ys), Products(ys, ys),
                        Moment(xs, xs), Moment(xs, ys), Moment(ys, ys), sqrt, q);
    }
  }

  // ---------------------------------------------------------------- retaining the table

  datatype Cell = Cell(coefficient: Coefficient, sampleCount: int)

  type Table = map<Metric, map<Metric, Cell>>

  predicate WritesCell(j: Json, cell: Cell) {
    && HasKeys(j, {CoefficientKey, SampleCountKey})
    && WritesNumber(j.fields[SampleCountKey], cell.sampleCount as real)
    && (if cell.coefficient.Undefined? then j.fields[CoefficientKey] == Null
        else WritesNumber(j.fields[CoefficientKey], cell.coefficient.value))
  }

  ghost predicate WritesRow(j: Json, layout: Layout, row: map<Metric, Cell>) {
    && HasKeys(j, MetricKeys(layout.cpu)) && (forall m :: m in row <==> m in layout.cpu)
    && forall m {:trigger row[m]} :: m in row ==> MetricKey(m) in j.fields && WritesCell(j.fields[MetricKey(m)], row[m])
  }

  ghost predicate WritesTable(j: Json, layout: Layout, table: Table) {
    && HasKeys(j, MetricKeys(layout.timing)) && (forall m :: m in table <==> m in layout.timing)
    && forall m {:trigger table[m]} :: m in table ==>
        MetricKey(m) in j.fields && WritesRow(j.fields[MetricKey(m)], layout, table[m])
  }

  predicate ValidCell(cell: Cell) {
    cell.sampleCount == CAPTURES && (cell.coefficient.Defined? ==> -1.0 <= cell.coefficient.value <= 1.0)
  }

  ghost predicate ValidRow(row: map<Metric, Cell>) {
    forall m {:trigger row[m]} :: m in row ==> ValidCell(row[m])
  }

  ghost predicate ValidTable(table: Table) {
    forall m {:trigger table[m]} :: m in table ==> ValidRow(table[m])
  }

  method RetainCell(j: Json) returns (r: Outcome<Cell>)
    ensures r.Returns? ==> WritesCell(j, r.value) && ValidCell(r.value)
    ensures r.Raises? ==> forall cell :: WritesCell(j, cell) ==> !ValidCell(cell)
  {
    if !HasKeys(j, {CoefficientKey, SampleCountKey}) {
      return Raises;
    }
    var coefficient := Undefined;
    match j.fields[CoefficientKey] {
      case Null =>
      case Integer(i) => coefficient := Defined(i as real);
      case Float(d) => coefficient := Defined(d);
      case _ => return Raises;
    }
    if coefficient.Defined? && !(-1.0 <= coefficient.value <= 1.0) {
      return Raises;
    }
    if !WritesNumber(j.fields[SampleCountKey], CAPTURES as real) {
      return Raises;
    }
    return Returns(Cell(coefficient, CAPTURES));
  }

  method RetainRow(j: Json, layout: Layout) returns (r: Outcome<map<Metric, Cell>>)
    ensures r.Returns? ==> WritesRow(j, layout, r.value) && ValidRow(r.value)
    ensures r.Raises? ==> forall row :: WritesRow(j, layout, row) ==> !ValidRow(row)
  {
    if !HasKeys(j, MetricKeys(layout.cpu)) {
      return Raises;
    }
    var retained: map<Metric, Cell> := map[];
    for i := 0 to |layout.cpu|
      invariant forall m :: m in retained <==> m in layout.cpu[..i]
      invariant forall m {:trigger retained[m]} :: m in retained ==>
        MetricKey(m) in j.fields && WritesCell(j.fields[MetricKey(m)], retained[m]) && ValidCell(retained[m])
    {
      var m := layout.cpu[i];
      assert MetricKey(m) in MetricKeys(layout.cpu);
      var cell := RetainCell(j.fields[MetricKey(m)]);
      if cell.Raises? {
        forall row | WritesRow(j, layout, row) ensures !ValidRow(row) {
          assert m in row && WritesCell(j.fields[MetricKey(m)], row[m]);
        }
        return Raises;
      }
      retained := retained[m := cell.value];
    }
    assert layout.cpu[..|layout.cpu|] == layout.cpu;
    return Returns(retained);
  }

  /** `_retain_scheduling_correlations`: the table is retained, as written, if and only if every
      coefficient is undefined or within [-1, 1] and covers all captures. */
  method RetainCorrelations(j: Json, layout: Layout) returns (r: Outcome<Table>)
    ensures r.Returns? ==> WritesTable(j, layout, r.value) && ValidTable(r.value)
    ensures r.Returns? ==> forall m, n :: m in r.value && n in r.value[m] ==>
      && r.value[m][n].sampleCount == 1000
      && (r.value[m][n].coefficient.Defined? ==> -1.0 <= r.value[m][n].coefficient.value <= 1.0)
    ensures r.Raises? ==> forall table :: WritesTable(j, layout, table) ==> !ValidTable(table)
  {
    if !HasKeys(j, MetricKeys(layout.timing)) {
      return Raises;
    }
    var retained: Table := map[];
    for i := 0 to |layout.timing|
      invariant forall m :: m in retained <==> m in layout.timing[..i]
      invariant forall m {:trigger retained[m]} :: m in retained ==>
        MetricKey(m) in j.fields && WritesRow(j.fields[MetricKey(m)], layout, retained[m]) && ValidRow(retained[m])
    {
      var m := layout.timing[i];
      assert MetricKey(m) in MetricKeys(layout.timing);
      var row := RetainRow(j.fields[MetricKey(m)], layout);
      if row.Raises? {
        forall table | WritesTable(j, layout, table) ensures !ValidTable(table) {
          assert m in table && WritesRow(j.fields[MetricKey(m)], layout, table[m]);
        }
        return Raises;
      }
      retained := retained[m := row.value];
    }
    assert layout.timing[..|layout.timing|] == layout.timing;
    return Returns(retained);
  }

  // ---------------------------------------------------------------- what is emitted is valid

  function CorrelateColumns(samples: seq<Sample>, first: Metric, second: Metric, sqrt: real -> real): Outcome<Cell> {
    ColumnAt(samples, first);
    ColumnAt(samples, second);
    var coefficient :- Correlation(Column(samples, first), Column(samples, second), sqrt);
    Returns(Cell(coefficient, |samples|))
  }

  /** The cells the script computes over all captures. */
  ghost predicate Correlated(layout: Layout, samples: seq<Sample>, sqrt: real -> real, table: Table) {
    && (forall m :: m in table <==> m in layout.timing)
    && forall m {:trigger table[m]} :: m in table ==>
      && (forall n :: n in table[m] <==> n in layout.cpu)
      && forall n {:trigger table[m][n]} :: n in table[m] ==>
          CorrelateColumns(samples, m, n, sqrt) == Returns(table[m][n])
  }

  lemma CellIsValid(samples: seq<Sample>, first: Metric, second: Metric, sqrt: real -> real)
    requires |samples| == CAPTURES && IsSquareRoot(sqrt)
    ensures CorrelateColumns(samples, first, second, sqrt).Returns?
    ensures ValidCell(CorrelateColumns(samples, first, second, sqrt).value)
  {
    ColumnAt(samples, first);
    ColumnAt(samples, second);
    UndefinedExactly(Column(samples, first), Column(samples, second), sqrt);
  }

  /** Whatever the captures measured, the table of correlations passes the check. */
  lemma CorrelatedIsValid(layout: Layout, samples: seq<Sample>, sqrt: real -> real, table: Table)
    requires |samples| == CAPTURES && IsSquareRoot(sqrt) && Correlated(layout, samples, sqrt, table)
    ensures ValidTable(table)
  {
    forall m, n | m in table && n in table[m] ensures ValidCell(table[m][n]) {
      CellIsValid(samples, m, n, sqrt);
    }
  }

  /** What a cell of the table says, from the two metrics' own values in the samples. */
  lemma CellMeans(layout: Layout, samples: seq<Sample>, sqrt: real -> real, table: Table, m: Metric, n: Metric,
                  xs: seq<real>, ys: seq<real>, q: real)
    requires samples != [] && IsSquareRoot(sqrt) && Correlated(layout, samples, sqrt, table)
    requires m in layout.timing && n in layout.cpu && |xs| == |ys| == |samples|
    requires forall k :: 0 <= k < |samples| ==> xs[k] == samples[k].values(m) && ys[k] == samples[k].values(n)
    ensures m in table && n in table[m] && table[m][n].sampleCount == |samples|
    ensures table[m][n].coefficient == Defined(q) <==>
      Moment(xs, xs) > 0.0 && Moment(ys, ys) > 0.0
      && q * sqrt(Moment(xs, xs) * Moment(ys, ys)) == Moment(xs, ys)
  {
    hide Moment, Correlation;
    ColumnAt(samples, m);
    ColumnAt(samples, n);
    assert xs == Column(samples, m) && ys == Column(samples, n);
    assert m in table && n in table[m] && CorrelateColumns(samples, m, n, sqrt) == Returns(table[m][n]);
    CoefficientMeans(xs, ys, sqrt, q);
  }

  /** JSON writes one table only, so a table that is retained is retained unchanged. */
  lemma TableWrittenOnce(j: Json, layout: Layout, s: Table, t: Table)
    requires WritesTable(j, layout, s) && WritesTable(j, layout, t)
    ensures s == t
  {
    forall m | m in s ensures m in t && s[m] == t[m] {
      RowWrittenOnce(j.fields[MetricKey(m)], layout, s[m], t[m]);
    }
  }

  lemma RowWrittenOnce(j: Json, layout: Layout, s: map<Metric, Cell>, t: map<Metric, Cell>)
    requires WritesRow(j, layout, s) && WritesRow(j, layout, t)
    ensures s == t
  {
    forall m | m in s ensures m in t && s[m] == t[m] {
      CellWrittenOnce(j.fields[MetricKey(m)], s[m], t[m]);
    }
  }

  lemma CellWrittenOnce(j: Json, s: Cell, t: Cell)
    requires WritesCell(j, s) && WritesCell(j, t)
    ensures s == t
  {
  }

  /** The table the script computes and prints is retained, unchanged. */
  method RetainEmittedCorrelations(j: Json, layout: Layout, samples: seq<Sample>, sqrt: real -> real, emitted: Table)
    returns (r: Outcome<Table>)
    requires |samples| == CAPTURES && IsSquareRoot(sqrt) && Correlated(layout, samples, sqrt, emitted)
    requires WritesTable(j, layout, emitted)
    ensures r == Returns(emitted)
  {
    CorrelatedIsValid(layout, samples, sqrt, emitted);
    r := RetainCorrelations(j, layout);
    TableWrittenOnce(j, layout, r.value, emitted);
  }
}
