/**
 * Least squares, written twice in the source: centred sums in technical-analyzer.js
 * and raw moments in candle-analysis-lite.js.
 */
module Regression {
  import opened Prelude
  import opened Statistics

  function Prod(a: real, b: real): real { a * b }
  function Square(a: real): real { a * a }
  function Affine(p: real, q: real, r: real, x: real, y: real): real { p * y + q * x + r }

  /** Sum of u[k] * v[k] for k < n. */
  function Dot(u: seq<real>, v: seq<real>, n: nat): real
    requires n <= |u| && n <= |v|
  {
    if n == 0 then 0.0 else Dot(u, v, n - 1) + Prod(u[n - 1], v[n - 1])
  }

  /** Total of the first n values. */
  function Sum(u: seq<real>, n: nat): real
    requires n <= |u|
  {
    Total(u[..n])
  }

  lemma SumStep(u: seq<real>, n: nat)
    requires n < |u|
    ensures Sum(u, 0) == 0.0 && Sum(u, n + 1) == Sum(u, n) + u[n]
  {
    assert u[..n + 1][..n] == u[..n];
  }

  /** Sum of (p*y + q*x + r)^2: the one shape behind every sum of squares below. */
  function Squares(x: seq<real>, y: seq<real>, p: real, q: real, r: real, n: nat): real
    requires n <= |x| && n <= |y|
  {
    if n == 0 then 0.0 else Squares(x, y, p, q, r, n - 1) + Square(Affine(p, q, r, x[n - 1], y[n - 1]))
  }

  /** Sum of (x - a) * (y - b). */
  function Products(x: seq<real>, y: seq<real>, a: real, b: real, n: nat): real
    requires n <= |x| && n <= |y|
  {
    if n == 0 then 0.0 else Products(x, y, a, b, n - 1) + Prod(x[n - 1] - a, y[n - 1] - b)
  }

  /** Sum of squared residuals of the line a*x + b. */
  function SquaredError(x: seq<real>, y: seq<real>, a: real, b: real): real
    requires |x| == |y|
  {
    Squares(x, y, 1.0, -a, -b, |x|)
  }

  function Sxx(x: seq<real>, y: seq<real>): real
    requires |x| == |y| && x != []
  {
    Squares(x, y, 0.0, 1.0, -Mean(x), |x|)
  }

  function Syy(x: seq<real>, y: seq<real>): real
    requires |x| == |y| && x != []
  {
    Squares(x, y, 1.0, 0.0, -Mean(y), |x|)
  }

  function Sxy(x: seq<real>, y: seq<real>): real
    requires |x| == |y| && x != []
  {
    Products(x, y, Mean(x), Mean(y), |x|)
  }

  datatype Fit = Fit(slope: real, intercept: real, rSquared: real)

  function SlopeOf(x: seq<real>, y: seq<real>): real
    requires |x| == |y| && x != []
  {
    if Sxx(x, y) == 0.0 then 0.0 else Sxy(x, y) / Sxx(x, y)
  }

  function InterceptOf(x: seq<real>, y: seq<real>): real
    requires |x| == |y| && x != []
  {
    Mean(y) - Prod(SlopeOf(x, y), Mean(x))
  }

  function RSquaredOf(x: seq<real>, y: seq<real>): real
    requires |x| == |y| && x != []
  {
    if Syy(x, y) == 0.0 then 0.0
    else 1.0 - SquaredError(x, y, SlopeOf(x, y), InterceptOf(x, y)) / Syy(x, y)
  }

  /** Every point lies on the line a*x + b. */
  ghost predicate OnLine(x: seq<real>, y: seq<real>, a: real, b: real)
    requires |x| == |y|
  {
    forall k :: 0 <= k < |x| ==> y[k] == a * x[k] + b
  }

  /**
   * What r measures: the share of the squared error of the constant line at the mean that the line a*x + b saves. It is
   * 1 exactly when the line goes through every point, and 0 exactly when x and y do not vary together, or y not at all.
   */
  ghost predicate MeasuresFit(x: seq<real>, y: seq<real>, a: real, b: real, r: real)
    requires |x| == |y| && x != []
  {
    var constant := SquaredError(x, y, 0.0, Mean(y));
    && (constant == 0.0 ==> r == 0.0)
    && Prod(r, constant) == (if constant == 0.0 then 0.0 else constant - SquaredError(x, y, a, b))
    && (Sxx(x, y) != 0.0 && constant != 0.0 ==> Prod(r, constant) == Square(Sxy(x, y)) / Sxx(x, y))
    && (constant != 0.0 ==> (r == 1.0 <==> OnLine(x, y, a, b)))
    && (constant != 0.0 ==> (r == 0.0 <==> Sxy(x, y) == 0.0))
  }

  method LinearRegression(xs: seq<real>, ys: seq<real>) returns (fit: Fit)
    ensures |xs| != |ys| || xs == [] ==> fit == Fit(0.0, 0.0, 0.0)
    ensures |xs| == |ys| && xs != [] ==> fit == Fit(SlopeOf(xs, ys), InterceptOf(xs, ys), RSquaredOf(xs, ys))
    ensures |xs| == |ys| && xs != [] ==> MeasuresFit(xs, ys, fit.slope, fit.intercept, fit.rSquared)
  {
    if |xs| != |ys| || |xs| == 0 {
      return Fit(0.0, 0.0, 0.0);
    }
    hide Square, Prod;
    var n := |xs|;
    var sumX, sumY := 0.0, 0.0;
    for i := 0 to n
      invariant sumX == Sum(xs, i) && sumY == Sum(ys, i)
    {
      SumStep(xs, i);
      SumStep(ys, i);
      sumX, sumY := sumX + xs[i], sumY + ys[i];
    }
    MeanIsQuotient(xs);
    MeanIsQuotient(ys);
    var meanX, meanY := sumX / n as real, sumY / n as real;
    assert meanX == Mean(xs) && meanY == Mean(ys);
    hide Mean, Sum;
    var numerator, denominator := 0.0, 0.0;
    for i := 0 to n
      invariant numerator == Products(xs, ys, meanX, meanY, i)
      invariant denominator == Squares(xs, ys, 0.0, 1.0, -meanX, i)
    {
      var xDiff := xs[i] - meanX;
      assert xDiff == Affine(0.0, 1.0, -meanX, xs[i], ys[i]);
      numerator := numerator + Prod(xDiff, ys[i] - meanY);
      denominator := denominator + Square(xDiff);
    }
    var slope := if denominator == 0.0 then 0.0 else numerator / denominator;
    assert slope == SlopeOf(xs, ys);
    RSquaredMeasuresFit(xs, ys);
    hide SlopeOf, Prod, Affine, MeasuresFit;
    var intercept := meanY - Prod(slope, meanX);
    var ssTot, ssRes := Deviations(xs, ys, slope, intercept, meanY);
    fit := Fit(slope, intercept, if ssTot == 0.0 then 0.0 else 1.0 - ssRes / ssTot);
  }

  /** The second loop, the same in both implementations. */
  method Deviations(xs: seq<real>, ys: seq<real>, slope: real, intercept: real, meanY: real)
    returns (ssTot: real, ssRes: real)
    requires |xs| == |ys|
    ensures ssTot == Squares(xs, ys, 1.0, 0.0, -meanY, |xs|)
    ensures ssRes == SquaredError(xs, ys, slope, intercept)
  {
    hide Square;
    ssTot, ssRes := 0.0, 0.0;
    for i := 0 to |xs|
      invariant ssTot == Squares(xs, ys, 1.0, 0.0, -meanY, i)
      invariant ssRes == Squares(xs, ys, 1.0, -slope, -intercept, i)
    {
      var predicted := slope * xs[i] + intercept;
      assert ys[i] - meanY == Affine(1.0, 0.0, -meanY, xs[i], ys[i]);
      assert ys[i] - predicted == Affine(1.0, -slope, -intercept, xs[i], ys[i]);
      ssTot := ssTot + Square(ys[i] - meanY);
      ssRes := ssRes + Square(ys[i] - predicted);
    }
  }

  // ----- expansions into raw moments -----

  lemma SquareOfTriple(p: real, q: real, r: real, x: real, y: real)
    ensures Square(Affine(p, q, r, x, y)) ==
      (p * p) * (y * y) + (q * q) * (x * x) + r * r + 2.0 * (p * q) * (x * y) + 2.0 * (p * r) * y + 2.0 * (q * r) * x
  {
    var u, v := p * y, q * x;
    assert Square(u + v + r) == u * u + v * v + r * r + 2.0 * (u * v) + 2.0 * (u * r) + 2.0 * (v * r);
    assert u * u == (p * p) * (y * y);
    assert v * v == (q * q) * (x * x);
    assert u * v == (p * q) * (x * y);
    assert u * r == (p * r) * y;
    assert v * r == (q * r) * x;
  }

  /** The quadratic in (p, q, r) with the moments of the data as coefficients. */
  function Expanded(yy: real, xx: real, n: real, xy: real, sy: real, sx: real, p: real, q: real, r: real): real {
    (p * p) * yy + (q * q) * xx + (r * r) * n + 2.0 * (p * q) * xy + 2.0 * (p * r) * sy + 2.0 * (q * r) * sx
  }

  lemma ExpandedStep(yy: real, xx: real, n: real, xy: real, sy: real, sx: real, p: real, q: real, r: real, x: real,
      y: real)
    ensures Expanded(yy + Prod(y, y), xx + Prod(x, x), n + 1.0, xy + Prod(x, y), sy + y, sx + x, p, q, r)
      == Expanded(yy, xx, n, xy, sy, sx, p, q, r) + Square(Affine(p, q, r, x, y))
  {
    SquareOfTriple(p, q, r, x, y);
    Distribute(p * p, yy, y * y);
    Distribute(q * q, xx, x * x);
    Distribute(r * r, n, 1.0);
    Distribute(2.0 * (p * q), xy, x * y);
    Distribute(2.0 * (p * r), sy, y);
    Distribute(2.0 * (q * r), sx, x);
  }

  lemma Distribute(c: real, a: real, b: real)
    ensures c * (a + b) == c * a + c * b
  {
  }

  lemma {:induction false} SquaresExpand(x: seq<real>, y: seq<real>, p: real, q: real, r: real, n: nat)
    requires n <= |x| && n <= |y|
    ensures Squares(x, y, p, q, r, n) ==
      Expanded(Dot(y, y, n), Dot(x, x, n), n as real, Dot(x, y, n), Sum(y, n), Sum(x, n), p, q, r)
  {
    if n == 0 {
    } else {
      SumStep(x, n - 1);
      SumStep(y, n - 1);
      hide Expanded, Square, Affine, Prod, Sum;
      SquaresExpand(x, y, p, q, r, n - 1);
      ExpandedStep(Dot(y, y, n - 1), Dot(x, x, n - 1), (n - 1) as real, Dot(x, y, n - 1), Sum(y, n - 1), Sum(x, n - 1),
                   p, q, r, x[n - 1], y[n - 1]);
    }
  }

  lemma {:induction false} ProductsExpand(x: seq<real>, y: seq<real>, a: real, b: real, n: nat)
    requires n <= |x| && n <= |y|
    ensures Products(x, y, a, b, n)
      == Dot(x, y, n) - Prod(a, Sum(y, n)) - Prod(b, Sum(x, n)) + Prod(Prod(a, b), n as real)
  {
    if n == 0 {
    } else {
      SumStep(x, n - 1);
      SumStep(y, n - 1);
      hide Prod, Sum;
      ProductsExpand(x, y, a, b, n - 1);
      var u, v := x[n - 1], y[n - 1];
      ExpandProduct(u, v, a, b);
      DistributeProd(a, Sum(y, n - 1), v);
      DistributeProd(b, Sum(x, n - 1), u);
      DistributeProd(Prod(a, b), (n - 1) as real, 1.0);
    }
  }

  lemma ExpandProduct(u: real, v: real, a: real, b: real)
    ensures Prod(u - a, v - b) == Prod(u, v) - Prod(a, v) - Prod(b, u) + Prod(Prod(a, b), 1.0)
  {
  }

  lemma DistributeProd(c: real, a: real, b: real)
    ensures Prod(c, a + b) == Prod(c, a) + Prod(c, b)
  {
  }

  // ----- centred forms -----

  lemma CentreX(yy: real, xx: real, n: real, xy: real, sx: real, sy: real, mx: real, my: real)
    requires sx == Prod(n, mx) && sy == Prod(n, my)
    ensures Expanded(yy, xx, n, xy, sy, sx, 0.0, 1.0, -mx) == xx - Prod(n, Square(mx))
  {
    assert mx * (n * mx) == n * Square(mx);
  }

  lemma CentreY(yy: real, xx: real, n: real, xy: real, sx: real, sy: real, mx: real, my: real)
    requires sx == Prod(n, mx) && sy == Prod(n, my)
    ensures Expanded(yy, xx, n, xy, sy, sx, 1.0, 0.0, -my) == yy - Prod(n, Square(my))
  {
    assert my * (n * my) == n * Square(my);
  }

  /** Error of a line of slope a that misses the mean point by `off`. */
  function LineError(syy: real, sxy: real, sxx: real, n: real, off: real, a: real): real {
    syy - 2.0 * Prod(a, sxy) + Prod(Square(a), sxx) + Prod(n, Square(off))
  }

  lemma CentreError(yy: real, xx: real, n: real, xy: real, sx: real, sy: real, mx: real, my: real,
                    a: real, b: real, off: real)
    requires sx == Prod(n, mx) && sy == Prod(n, my) && off == my - Prod(a, mx) - b
    ensures Expanded(yy, xx, n, xy, sy, sx, 1.0, -a, -b) ==
      LineError(yy - Prod(n, Square(my)), xy - Prod(n, Prod(mx, my)), xx - Prod(n, Square(mx)), n, off, a)
  {
    hide Prod, Expanded, Square;
    OffsetTerm(n, my, Prod(a, mx), b, off);
    SpreadTerm(a, xx, n, mx);
    CovarianceTerm(a, xy, n, mx, my);
    ExpandedLine(yy, xx, n, xy, sy, sx, a, b);
    MeanTerms(n, mx, my, a, b);
  }

  lemma ProdMinus(c: real, u: real, v: real)
    ensures Prod(c, u - v) == Prod(c, u) - Prod(c, v)
  {
  }

  lemma ProdSwap(a: real, b: real)
    ensures Prod(a, b) == Prod(b, a)
  {
  }

  lemma ProdAssoc(a: real, b: real, c: real)
    ensures Prod(a, Prod(b, c)) == Prod(Prod(a, b), c)
  {
  }

  lemma ExpandSquare(u: real, v: real, w: real)
    ensures Square(u - v - w)
      == Square(u) + Square(v) + Square(w) - 2.0 * Prod(u, v) - 2.0 * Prod(u, w) + 2.0 * Prod(v, w)
  {
    var t := u - v;
    assert Square(t - w) == Square(t) - 2.0 * Prod(t, w) + Square(w);
    assert Square(t) == Square(u) - 2.0 * Prod(u, v) + Square(v);
    assert Prod(t, w) == Prod(u, w) - Prod(v, w);
  }

  lemma OffsetTerm(n: real, my: real, ax: real, b: real, off: real)
    requires off == my - ax - b
    ensures Prod(n, Square(off)) == Prod(n, Square(my)) + Prod(n, Square(ax)) + Prod(n, Square(b))
      - 2.0 * Prod(n, Prod(my, ax)) - 2.0 * Prod(n, Prod(my, b)) + 2.0 * Prod(n, Prod(ax, b))
  {
    hide Square;
    ExpandSquare(my, ax, b);
    SpreadSix(n, Square(my), Square(ax), Square(b), Prod(my, ax), Prod(my, b), Prod(ax, b));
  }

  lemma SpreadSix(n: real, t1: real, t2: real, t3: real, t4: real, t5: real, t6: real)
    ensures Prod(n, t1 + t2 + t3 - 2.0 * t4 - 2.0 * t5 + 2.0 * t6)
      == Prod(n, t1) + Prod(n, t2) + Prod(n, t3) - 2.0 * Prod(n, t4) - 2.0 * Prod(n, t5) + 2.0 * Prod(n, t6)
  {
  }

  lemma SpreadTerm(a: real, xx: real, n: real, mx: real)
    ensures Prod(Square(a), xx - Prod(n, Square(mx))) == Prod(Square(a), xx) - Prod(n, Square(Prod(a, mx)))
  {
    ProdMinus(Square(a), xx, Prod(n, Square(mx)));
    assert Prod(Square(a), Square(mx)) == Square(Prod(a, mx));
    hide Prod, Square;
    ProdAssoc(Square(a), n, Square(mx));
    ProdSwap(Square(a), n);
    ProdAssoc(n, Square(a), Square(mx));
  }

  lemma CovarianceTerm(a: real, xy: real, n: real, mx: real, my: real)
    ensures Prod(a, xy - Prod(n, Prod(mx, my))) == Prod(a, xy) - Prod(n, Prod(my, Prod(a, mx)))
  {
    hide Prod;
    ProdMinus(a, xy, Prod(n, Prod(mx, my)));
    ProdAssoc(a, n, Prod(mx, my));
    ProdSwap(a, n);
    ProdAssoc(n, a, Prod(mx, my));
    ProdAssoc(a, mx, my);
    ProdSwap(Prod(a, mx), my);
  }

  lemma MeanTerms(n: real, mx: real, my: real, a: real, b: real)
    ensures Prod(b, Prod(n, my)) == Prod(n, Prod(my, b))
    ensures Prod(Prod(a, b), Prod(n, mx)) == Prod(n, Prod(Prod(a, mx), b))
  {
    hide Prod;
    ProdSwap(b, Prod(n, my));
    ProdAssoc(n, my, b);
    ProdAssoc(Prod(a, b), n, mx);
    ProdSwap(Prod(a, b), n);
    ProdAssoc(n, Prod(a, b), mx);
    ProdSwap(Prod(a, b), mx);
    ProdAssoc(mx, a, b);
    ProdSwap(mx, a);
  }

  lemma ExpandedLine(yy: real, xx: real, n: real, xy: real, sy: real, sx: real, a: real, b: real)
    ensures Expanded(yy, xx, n, xy, sy, sx, 1.0, -a, -b)
      == yy + Prod(Square(a), xx) + Prod(n, Square(b))
        - 2.0 * Prod(a, xy) - 2.0 * Prod(b, sy) + 2.0 * Prod(Prod(a, b), sx)
  {
    assert (-a) * (-a) == a * a && (-b) * (-b) == b * b && (-a) * (-b) == a * b;
  }

  ghost predicate Data(x: seq<real>, y: seq<real>) { |x| == |y| && x != [] }

  lemma SumIsMean(v: seq<real>)
    requires v != []
    ensures Sum(v, |v|) == Prod(|v| as real, Mean(v))
  {
    assert v[..|v|] == v;
  }

  lemma CentredSpreads(x: seq<real>, y: seq<real>)
    requires Data(x, y)
    ensures Sxx(x, y) == Dot(x, x, |x|) - Prod(|x| as real, Square(Mean(x)))
    ensures Syy(x, y) == Dot(y, y, |x|) - Prod(|x| as real, Square(Mean(y)))
  {
    hide Expanded, Square, Prod, Mean;
    var n, mx, my := |x| as real, Mean(x), Mean(y);
    var yy, xx, xy, sx, sy := Dot(y, y, |x|), Dot(x, x, |x|), Dot(x, y, |x|), Sum(x, |x|), Sum(y, |x|);
    SumIsMean(x);
    SumIsMean(y);
    SquaresExpand(x, y, 0.0, 1.0, -mx, |x|);
    SquaresExpand(x, y, 1.0, 0.0, -my, |x|);
    CentreX(yy, xx, n, xy, sx, sy, mx, my);
    CentreY(yy, xx, n, xy, sx, sy, mx, my);
  }

  lemma CentredCovariance(x: seq<real>, y: seq<real>)
    requires Data(x, y)
    ensures Sxy(x, y) == Dot(x, y, |x|) - Prod(|x| as real, Prod(Mean(x), Mean(y)))
  {
    hide Prod, Mean;
    var n, mx, my := |x| as real, Mean(x), Mean(y);
    SumIsMean(x);
    SumIsMean(y);
    ProductsExpand(x, y, mx, my, |x|);
    CrossTerms(n, mx, my, Sum(x, |x|), Sum(y, |x|));
  }

  lemma CrossTerms(n: real, mx: real, my: real, sx: real, sy: real)
    requires sx == Prod(n, mx) && sy == Prod(n, my)
    ensures Prod(mx, sy) == Prod(n, Prod(mx, my)) && Prod(my, sx) == Prod(n, Prod(mx, my))
    ensures Prod(Prod(mx, my), n) == Prod(n, Prod(mx, my))
  {
  }

  /** By how much the line a*x + b passes below the mean point. */
  function Offset(x: seq<real>, y: seq<real>, a: real, b: real): real
    requires Data(x, y)
  {
    Mean(y) - Prod(a, Mean(x)) - b
  }

  lemma ErrorOfLine(x: seq<real>, y: seq<real>, a: real, b: real)
    requires Data(x, y)
    ensures SquaredError(x, y, a, b) == LineError(Syy(x, y), Sxy(x, y), Sxx(x, y), |x| as real, Offset(x, y, a, b), a)
  {
    hide Expanded, Square, Prod, Mean, LineError, Sxx, Syy, Sxy;
    CentredSpreads(x, y);
    CentredCovariance(x, y);
    SumIsMean(x);
    SumIsMean(y);
    SquaresExpand(x, y, 1.0, -a, -b, |x|);
    CentreError(Dot(y, y, |x|), Dot(x, x, |x|), |x| as real, Dot(x, y, |x|), Sum(x, |x|), Sum(y, |x|), Mean(x), Mean(y),
                a, b, Offset(x, y, a, b));
  }

  lemma {:induction false} SquaresNonNegative(x: seq<real>, y: seq<real>, p: real, q: real, r: real, n: nat)
    requires n <= |x| && n <= |y|
    ensures Squares(x, y, p, q, r, n) >= 0.0
  {
    if n == 0 {
    } else {
      hide Affine;
      SquaresNonNegative(x, y, p, q, r, n - 1);
    }
  }

  lemma ErrorNonNegative(x: seq<real>, y: seq<real>, a: real, b: real)
    requires Data(x, y)
    ensures SquaredError(x, y, a, b) >= 0.0
  {
    SquaresNonNegative(x, y, 1.0, -a, -b, |x|);
  }

  lemma SpreadNonNegative(x: seq<real>, y: seq<real>)
    requires Data(x, y)
    ensures Sxx(x, y) >= 0.0 && Syy(x, y) >= 0.0
  {
    SquaresNonNegative(x, y, 0.0, 1.0, -Mean(x), |x|);
    SquaresNonNegative(x, y, 1.0, 0.0, -Mean(y), |x|);
  }

  /** The line of slope a through the mean point. */
  lemma ThroughMean(x: seq<real>, y: seq<real>, a: real)
    requires Data(x, y)
    ensures Offset(x, y, a, Mean(y) - Prod(a, Mean(x))) == 0.0
  {
  }

  /** When all x coincide the covariance vanishes as well. */
  lemma NoSpreadNoCovariance(x: seq<real>, y: seq<real>)
    requires Data(x, y) && Sxx(x, y) == 0.0
    ensures Sxy(x, y) == 0.0
    ensures SlopeOf(x, y) == 0.0 && InterceptOf(x, y) == Mean(y)
  {
    NothingTimes(Mean(x));
    hide Mean, Sxx, Syy, Sxy, SquaredError, LineError, Offset;
    var t, c := Syy(x, y), Sxy(x, y);
    if c != 0.0 {
      var a := (t + 1.0) / (2.0 * c);
      var b := Mean(y) - Prod(a, Mean(x));
      ErrorOfLine(x, y, a, b);
      ThroughMean(x, y, a);
      SteepLine(t, c, |x| as real);
      ErrorNonNegative(x, y, a, b);
    }
  }

  lemma SteepLine(t: real, c: real, n: real)
    requires c != 0.0
    ensures LineError(t, c, 0.0, n, 0.0, (t + 1.0) / (2.0 * c)) == -1.0
  {
    var a := (t + 1.0) / (2.0 * c);
    assert a * (2.0 * c) == t + 1.0;
    assert Prod(Square(a), 0.0) == 0.0 && Prod(n, Square(0.0)) == 0.0;
    assert 2.0 * Prod(a, c) == t + 1.0;
  }

  // ----- the fit -----

  lemma SlopeTimesSpread(x: seq<real>, y: seq<real>)
    requires Data(x, y)
    ensures Prod(SlopeOf(x, y), Sxx(x, y)) == Sxy(x, y)
  {
    hide Sxx, Sxy;
    if Sxx(x, y) == 0.0 {
      NoSpreadNoCovariance(x, y);
    } else {
      assert Sxy(x, y) / Sxx(x, y) * Sxx(x, y) == Sxy(x, y);
    }
  }

  lemma ErrorAtSlope(syy: real, sxy: real, sxx: real, n: real, s: real)
    requires Prod(s, sxx) == sxy
    ensures LineError(syy, sxy, sxx, n, 0.0, s) == syy - Prod(s, sxy)
    ensures Prod(s, sxy) == Prod(Square(s), sxx)
    ensures sxx != 0.0 ==> Prod(s, sxy) == Square(sxy) / sxx
  {
    ProdAssoc(s, s, sxx);
    assert Prod(n, Square(0.0)) == 0.0;
    assert Prod(s, s) == Square(s);
    if sxx != 0.0 {
      assert Prod(Prod(s, sxy), sxx) == Square(sxy) by {
        ProdSwap(s, sxy);
        ProdAssoc(sxy, s, sxx);
      }
    }
  }

  /** The residual of the fit in closed form: Syy - Sxy^2 / Sxx. */
  lemma FitError(x: seq<real>, y: seq<real>)
    requires Data(x, y)
    ensures SquaredError(x, y, SlopeOf(x, y), InterceptOf(x, y)) == Syy(x, y) - Prod(SlopeOf(x, y), Sxy(x, y))
    ensures Sxx(x, y) != 0.0 ==>
      SquaredError(x, y, SlopeOf(x, y), InterceptOf(x, y)) == Syy(x, y) - Square(Sxy(x, y)) / Sxx(x, y)
  {
    hide Mean, Sxx, Syy, Sxy, SquaredError, LineError, Offset, SlopeOf, Prod, Square;
    var s := SlopeOf(x, y);
    SlopeTimesSpread(x, y);
    ErrorOfLine(x, y, s, InterceptOf(x, y));
    ThroughMean(x, y, s);
    ErrorAtSlope(Syy(x, y), Sxy(x, y), Sxx(x, y), |x| as real, s);
  }

  lemma CompleteSquare(syy: real, sxy: real, sxx: real, n: real, off: real, s: real, a: real)
    requires Prod(s, sxx) == sxy && sxx >= 0.0 && n >= 0.0
    ensures LineError(syy, sxy, sxx, n, off, a) >= syy - Prod(s, sxy)
  {
    ExpandSquare(a, s, 0.0);
    assert Square(a - s - 0.0) == Square(a) + Square(s) - 2.0 * Prod(a, s);
    DistributeThree(sxx, Square(a), Square(s), Prod(a, s));
    ProdAssoc(a, s, sxx);
    ProdAssoc(s, s, sxx);
    ScaledSquare(a - s, sxx);
    ScaledSquare(off, n);
  }

  lemma DistributeThree(d: real, t1: real, t2: real, t3: real)
    ensures Prod(t1 + t2 - 2.0 * t3, d) == Prod(t1, d) + Prod(t2, d) - 2.0 * Prod(t3, d)
  {
  }

  /** No line has a smaller squared error than the fitted one. */
  lemma FitIsLeastSquares(x: seq<real>, y: seq<real>, a: real, b: real)
    requires Data(x, y)
    ensures SquaredError(x, y, SlopeOf(x, y), InterceptOf(x, y)) <= SquaredError(x, y, a, b)
  {
    hide Mean, Sxx, Syy, Sxy, SquaredError, LineError, Offset, SlopeOf, Prod, Square;
    FitError(x, y);
    ErrorOfLine(x, y, a, b);
    SpreadNonNegative(x, y);
    SlopeTimesSpread(x, y);
    CompleteSquare(Syy(x, y), Sxy(x, y), Sxx(x, y), |x| as real, Offset(x, y, a, b), SlopeOf(x, y), a);
  }

  /** R squared is a proportion without any clamping. */
  lemma RSquaredInUnit(x: seq<real>, y: seq<real>)
    requires Data(x, y)
    ensures 0.0 <= RSquaredOf(x, y) <= 1.0
  {
    hide Mean, Sxx, Syy, Sxy, SquaredError, SlopeOf, Prod, Square, InterceptOf;
    var s, t := SlopeOf(x, y), Syy(x, y);
    var e := SquaredError(x, y, s, InterceptOf(x, y));
    FitError(x, y);
    SpreadNonNegative(x, y);
    ErrorNonNegative(x, y, s, InterceptOf(x, y));
    SlopeTimesSpread(x, y);
    ErrorAtSlope(t, Sxy(x, y), Sxx(x, y), |x| as real, s);
    ScaledSquare(s, Sxx(x, y));
    if t != 0.0 {
      UnitQuotient(e, t);
    }
  }

  lemma {:induction false} ZeroSquares(x: seq<real>, y: seq<real>, p: real, q: real, r: real, n: nat)
    requires n <= |x| && n <= |y|
    ensures Squares(x, y, p, q, r, n) == 0.0 <==> forall k :: 0 <= k < n ==> Affine(p, q, r, x[k], y[k]) == 0.0
  {
    if n == 0 {
    } else {
      hide Affine;
      ZeroSquares(x, y, p, q, r, n - 1);
      SquaresNonNegative(x, y, p, q, r, n - 1);
      SquareIsZero(Affine(p, q, r, x[n - 1], y[n - 1]));
      hide Square;
    }
  }

  lemma SquareIsZero(a: real)
    ensures Square(a) >= 0.0 && (Square(a) == 0.0 <==> a == 0.0)
  {
    SquareIsProd(a);
    if a != 0.0 {
      hide Square, Prod;
      LikeSigns(a, a);
    }
  }

  lemma LikeSigns(a: real, b: real)
    requires (a > 0.0 && b > 0.0) || (a < 0.0 && b < 0.0)
    ensures Prod(a, b) > 0.0
  {
  }

  lemma QuotientIsOneIff(e: real, t: real)
    requires t != 0.0
    ensures e / t == 1.0 <==> e == t
    ensures e / t == 0.0 <==> e == 0.0
  {
  }

  /** No error is left exactly when the line goes through every point. */
  lemma NoErrorIff(x: seq<real>, y: seq<real>, a: real, b: real)
    requires |x| == |y|
    ensures SquaredError(x, y, a, b) == 0.0 <==> OnLine(x, y, a, b)
  {
    ZeroSquares(x, y, 1.0, -a, -b, |x|);
    forall k | 0 <= k < |x| ensures Affine(1.0, -a, -b, x[k], y[k]) == 0.0 <==> y[k] == a * x[k] + b {
      assert -a * x[k] == -(a * x[k]);
    }
  }

  lemma ShareOf(t: real, e: real)
    requires t != 0.0
    ensures var r := 1.0 - e / t;
      Prod(r, t) == t - e && (r == 1.0 <==> e == 0.0) && (r == 0.0 <==> e == t)
  {
    var q := e / t;
    assert q * t == e;
    assert (1.0 - q) * t == t - q * t;
    QuotientIsOneIff(e, t);
  }

  lemma NoCovarianceNoSlope(x: seq<real>, y: seq<real>)
    requires Data(x, y)
    ensures Prod(SlopeOf(x, y), Sxy(x, y)) == 0.0 <==> Sxy(x, y) == 0.0
  {
    hide Sxx, Sxy;
    SlopeTimesSpread(x, y);
    var s, c := SlopeOf(x, y), Sxy(x, y);
    if c != 0.0 {
      assert s != 0.0;
    }
  }

  /** R squared measures the fit. */
  lemma RSquaredMeasuresFit(x: seq<real>, y: seq<real>)
    requires Data(x, y)
    ensures MeasuresFit(x, y, SlopeOf(x, y), InterceptOf(x, y), RSquaredOf(x, y))
  {
    var s, b, t := SlopeOf(x, y), InterceptOf(x, y), Syy(x, y);
    var e := SquaredError(x, y, s, b);
    assert SquaredError(x, y, 0.0, Mean(y)) == t;
    hide Mean, Sxx, Syy, Sxy, SquaredError, SlopeOf, Square, InterceptOf, OnLine, Prod;
    FitError(x, y);
    NoErrorIff(x, y, s, b);
    NoCovarianceNoSlope(x, y);
    if t != 0.0 {
      ShareOf(t, e);
    } else {
      assert Prod(0.0, t) == 0.0 by { ProdSwap(0.0, t); NothingTimes(t); }
    }
  }

  lemma NothingTimes(t: real)
    ensures Prod(0.0, t) == 0.0
  {
  }

  lemma ScaledSquare(s: real, d: real)
    requires d >= 0.0
    ensures Prod(Square(s), d) >= 0.0
  {
  }

  lemma UnitQuotient(e: real, t: real)
    requires 0.0 <= e <= t && t > 0.0
    ensures 0.0 <= e / t <= 1.0
  {
  }

  // ----- the second implementation -----

  /** x = 0, 1, ..., m - 1. */
  function Ramp(m: nat): (x: seq<real>)
    ensures |x| == m
  {
    seq(m, i => i as real)
  }

  function Tail(closes: seq<real>, maxPoints: int): seq<real> {
    var n := Min(maxPoints, |closes|);
    if n <= 0 then [] else closes[|closes| - n..]
  }

  function Clamp(v: real, lo: real, hi: real): real { MinReal(hi, MaxReal(lo, v)) }

  lemma MeanIsQuotient(v: seq<real>)
    requires v != []
    ensures Mean(v) == Sum(v, |v|) / |v| as real
  {
    assert v[..|v|] == v;
  }

  /** The raw-moment numerator and denominator are n times the centred ones. */
  lemma MomentForms(x: seq<real>, y: seq<real>)
    requires Data(x, y)
    ensures Prod(|x| as real, Dot(x, x, |x|)) - Prod(Sum(x, |x|), Sum(x, |x|)) == Prod(|x| as real, Sxx(x, y))
    ensures Prod(|x| as real, Dot(x, y, |x|)) - Prod(Sum(x, |x|), Sum(y, |x|)) == Prod(|x| as real, Sxy(x, y))
  {
    hide Mean, Sxx, Sxy, Syy, Prod, Square;
    CentredSpreads(x, y);
    CentredCovariance(x, y);
    SumIsMean(x);
    SumIsMean(y);
    SquareIsProd(Mean(x));
    Regroup(|x| as real, Mean(x), Mean(x), Dot(x, x, |x|));
    Regroup(|x| as real, Mean(x), Mean(y), Dot(x, y, |x|));
  }

  lemma SquareIsProd(a: real)
    ensures Square(a) == Prod(a, a)
  {
  }

  lemma Regroup(n: real, a: real, b: real, d: real)
    ensures Prod(n, d - Prod(n, Prod(a, b))) == Prod(n, d) - Prod(Prod(n, a), Prod(n, b))
  {
    assert n * (n * (a * b)) == (n * a) * (n * b);
  }

  lemma {:induction false} SquaresGrow(x: seq<real>, y: seq<real>, p: real, q: real, r: real, k: nat, n: nat)
    requires k <= n <= |x| && n <= |y|
    ensures Squares(x, y, p, q, r, k) <= Squares(x, y, p, q, r, n)
  {
    if k == n {
    } else {
      hide Affine;
      SquaresGrow(x, y, p, q, r, k, n - 1);
    }
  }

  /** Two different abscissae are enough for a positive spread, hence a positive denominator. */
  lemma RampSpread(y: seq<real>)
    requires |y| >= 2
    ensures Sxx(Ramp(|y|), y) > 0.0
  {
    var x, mx := Ramp(|y|), Mean(Ramp(|y|));
    SquaresGrow(x, y, 0.0, 1.0, -mx, 2, |y|);
    FirstTwo(x, y, -mx);
    assert Square(0.0 - mx) + Square(1.0 - mx) > 0.0;
  }

  lemma FirstTwo(x: seq<real>, y: seq<real>, r: real)
    requires |x| == |y| >= 2 && x[0] == 0.0 && x[1] == 1.0
    ensures Squares(x, y, 0.0, 1.0, r, 2) == Square(0.0 + r) + Square(1.0 + r)
  {
    hide Square;
    assert Squares(x, y, 0.0, 1.0, r, 1) == Square(Affine(0.0, 1.0, r, x[0], y[0]));
    assert Affine(0.0, 1.0, r, x[0], y[0]) == 0.0 + r;
    assert Affine(0.0, 1.0, r, x[1], y[1]) == 1.0 + r;
  }

  function Denominator(x: seq<real>): real {
    Prod(|x| as real, Dot(x, x, |x|)) - Prod(Sum(x, |x|), Sum(x, |x|))
  }

  lemma DenominatorIsPositive(y: seq<real>)
    ensures |y| >= 2 ==> Denominator(Ramp(|y|)) > 0.0
    ensures |y| < 2 ==> Denominator(Ramp(|y|)) == 0.0
  {
    var x := Ramp(|y|);
    if |y| >= 2 {
      hide Sxx, Prod;
      MomentForms(x, y);
      RampSpread(y);
      CommonFactor(|y| as real, 0.0, Sxx(x, y));
    } else if |y| == 1 {
      SumStep(x, 0);
      assert x[0] == 0.0 && Sum(x, 1) == 0.0 && Dot(x, x, 1) == 0.0;
    }
  }

  lemma CommonFactor(n: real, c: real, d: real)
    requires n > 0.0 && d > 0.0
    ensures Prod(n, d) > 0.0 && Prod(n, c) / Prod(n, d) == c / d
  {
    var q := c / d;
    assert q * d == c;
    assert q * (n * d) == n * c;
  }

  lemma SlopeFromMoments(y: seq<real>)
    requires |y| >= 2
    ensures var x, n := Ramp(|y|), |y|;
      Denominator(x) != 0.0
      && SlopeOf(x, y) == (Prod(n as real, Dot(x, y, n)) - Prod(Sum(x, n), Sum(y, n))) / Denominator(x)
  {
    hide Sxx, Sxy, Prod;
    DenominatorIsPositive(y);
    MomentForms(Ramp(|y|), y);
    RampSpread(y);
    CommonFactor(|y| as real, Sxy(Ramp(|y|), y), Sxx(Ramp(|y|), y));
  }

  lemma ProductOverN(s: real, t: real, n: real)
    requires n != 0.0
    ensures Prod(s, t) / n == Prod(s, t / n)
  {
    var q := t / n;
    assert q * n == t;
    assert s * t == (s * q) * n;
  }

  /**
   * Refuses short inputs and windows of fewer than two points; otherwise its slope and R squared are those
   * of `LinearRegression` on the ramp, although computed from raw moments and clamped.
   */
  method ComputeRegression(closes: seq<real>, maxPoints: int) returns (fit: Option<(real, real)>)
    ensures fit == None <==> |closes| < 8 || maxPoints < 2
    ensures fit.Some? ==>
      var y := Tail(closes, maxPoints);
      |y| >= 2 && fit.value == (SlopeOf(Ramp(|y|), y), RSquaredOf(Ramp(|y|), y))
      && |y| == Min(maxPoints, |closes|) && y == closes[|closes| - |y|..]
      && MeasuresFit(Ramp(|y|), y, fit.value.0, InterceptOf(Ramp(|y|), y), fit.value.1)
  {
    if |closes| < 8 {
      return None;
    }
    hide Prod, Square, SlopeOf, Mean, SquaredError, Sxx, Sxy, Syy;
    var y := Tail(closes, maxPoints);
    var m := |y|;
    var x := Ramp(m);
    var sumX, sumY, sumXY, sumXX := 0.0, 0.0, 0.0, 0.0;
    for i := 0 to m
      invariant sumX == Sum(x, i) && sumY == Sum(y, i) && sumXY == Dot(x, y, i) && sumXX == Dot(x, x, i)
    {
      SumStep(x, i);
      SumStep(y, i);
      sumX, sumY := sumX + i as real, sumY + y[i];
      sumXY, sumXX := sumXY + Prod(i as real, y[i]), sumXX + Prod(i as real, i as real);
    }
    var denom := Prod(m as real, sumXX) - Prod(sumX, sumX);
    DenominatorIsPositive(y);
    if denom == 0.0 {
      return None;
    }
    SlopeFromMoments(y);
    var slope := (Prod(m as real, sumXY) - Prod(sumX, sumY)) / denom;
    var meanY := sumY / m as real;
    var intercept := meanY - Prod(slope, sumX) / m as real;
    MeanIsQuotient(x);
    MeanIsQuotient(y);
    ProductOverN(slope, sumX, m as real);
    assert intercept == InterceptOf(x, y);
    var ssTot, ssRes := Deviations(x, y, slope, intercept, meanY);
    assert ssTot == Syy(x, y);
    SpreadNonNegative(x, y);
    RSquaredInUnit(x, y);
    RSquaredMeasuresFit(x, y);
    hide MeasuresFit;
    var r2 := if ssTot > 0.0 then Clamp(1.0 - ssRes / ssTot, 0.0, 1.0) else 0.0;
    fit := Some((slope, r2));
  }
}
