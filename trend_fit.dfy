/**
 * The trend fitter: an ordinary least-squares line of a price against the
 * date-ordinal axis, and the evaluation of such a line.
 *
 * The fit is the closed form of simple linear regression over the reals:
 * the slope is (n*Sxy - Sx*Sy) / (n*Sxx - Sx^2) and the intercept puts the
 * line through the centroid (mean x, mean y). When every ordinal is the same
 * (in particular for a single bar) the denominator is zero; the fitter then
 * returns slope 0 with the same centring intercept, the flat line through
 * the mean price, which is what a centred least-squares solver returns for a
 * column of identical inputs.
 *
 * Sums are taken over the first n entries of a vector, so that the proofs
 * proceed by induction on n without cutting sequences. Every vector that is
 * summed is a comprehension over the observations.
 */
module TrendFit {

  import opened RealAlgebra

  /** A fitted line: the predicted value at ordinal x is slope * x + intercept. */
  datatype LinearModel = LinearModel(slope: real, intercept: real)

  /** The line's value at axis value x. */
  function Eval(m: LinearModel, x: real): real
  {
    m.slope * x + m.intercept
  }

  /** A line rises with x when its slope is positive, falls when negative, and is flat at slope 0. */
  lemma EvalMonotone(m: LinearModel, x: real, y: real)
    requires x < y
    ensures m.slope > 0.0 ==> Eval(m, x) < Eval(m, y)
    ensures m.slope < 0.0 ==> Eval(m, x) > Eval(m, y)
    ensures m.slope == 0.0 ==> Eval(m, x) == Eval(m, y)
  {
    ScaleOrder(m.slope, x, y, m.slope * x, m.slope * y);
  }

  // ---------------------------------------------------------------------
  // Vectors and their sums
  // ---------------------------------------------------------------------

  /** The sum of the first n entries of vs. */
  function Sum(vs: seq<real>, n: nat): real
    requires n <= |vs|
  {
    if n == 0 then 0.0 else Sum(vs, n - 1) + vs[n - 1]
  }

  function Ones(n: nat): (r: seq<real>)
    ensures |r| == n
    ensures forall i {:trigger r[i]} :: 0 <= i < n ==> r[i] == 1.0
  {
    seq(n, i => 1.0)
  }

  /** The entrywise product of u and v. */
  function Product(u: seq<real>, v: seq<real>): (r: seq<real>)
    requires |u| == |v|
    ensures |r| == |u|
    ensures forall i {:trigger r[i]} :: 0 <= i < |u| ==> r[i] == u[i] * v[i]
  {
    seq(|u|, i requires 0 <= i < |u| => u[i] * v[i])
  }

  function SumX(xs: seq<real>): real
  {
    Sum(xs, |xs|)
  }

  function SumXX(xs: seq<real>): real
  {
    Sum(Product(xs, xs), |xs|)
  }

  function SumY(ys: seq<real>): real
  {
    Sum(ys, |ys|)
  }

  function SumXY(xs: seq<real>, ys: seq<real>): real
    requires |xs| == |ys|
  {
    Sum(Product(xs, ys), |xs|)
  }

  /** n * sum(x^2) - (sum x)^2, the denominator of the closed-form slope. */
  function Denominator(xs: seq<real>): real
  {
    Spread(|xs| as real, SumX(xs), SumXX(xs))
  }

  /** All ordinals are the same. */
  predicate Constant(xs: seq<real>)
  {
    forall i :: 0 <= i < |xs| ==> xs[i] == xs[0]
  }

  // ---------------------------------------------------------------------
  // The fit
  // ---------------------------------------------------------------------

  /** The fitted slope: the closed form, or 0 when the denominator is zero. */
  function FitSlope(xs: seq<real>, ys: seq<real>): real
    requires |xs| == |ys|
  {
    if Denominator(xs) == 0.0 then 0.0
    else SlopeOf(|xs| as real, SumX(xs), SumY(ys), SumXX(xs), SumXY(xs, ys))
  }

  /** Least-squares line of ys against xs; it passes through the centroid (mean x, mean y). */
  function Fit(xs: seq<real>, ys: seq<real>): (r: LinearModel)
    requires |xs| == |ys| > 0
    ensures Eval(r, MeanOf(|xs| as real, SumX(xs))) == MeanOf(|xs| as real, SumY(ys))
  {
    LinearModel(FitSlope(xs, ys), InterceptOf(|xs| as real, SumX(xs), SumY(ys), FitSlope(xs, ys)))
  }

  // ---------------------------------------------------------------------
  // Residuals
  // ---------------------------------------------------------------------

  /** How far the observation y at ordinal x lies above line m. */
  function Residual(m: LinearModel, x: real, y: real): real
  {
    y - Eval(m, x)
  }

  function Residuals(xs: seq<real>, ys: seq<real>, m: LinearModel): (r: seq<real>)
    requires |xs| == |ys|
    ensures |r| == |xs|
    ensures forall i {:trigger r[i]} :: 0 <= i < |xs| ==> r[i] == Residual(m, xs[i], ys[i])
  {
    seq(|xs|, i requires 0 <= i < |xs| => Residual(m, xs[i], ys[i]))
  }

  /** xs[i] minus c, in order. */
  function Deviations(xs: seq<real>, c: real): (r: seq<real>)
    ensures |r| == |xs|
    ensures forall i {:trigger r[i]} :: 0 <= i < |xs| ==> r[i] == xs[i] - c
  {
    seq(|xs|, i requires 0 <= i < |xs| => xs[i] - c)
  }

  /** The differences between lines f and a at each ordinal. */
  function Gaps(xs: seq<real>, f: LinearModel, a: LinearModel): (r: seq<real>)
    ensures |r| == |xs|
    ensures forall i {:trigger r[i]} :: 0 <= i < |xs| ==> r[i] == Eval(f, xs[i]) - Eval(a, xs[i])
  {
    seq(|xs|, i requires 0 <= i < |xs| => Eval(f, xs[i]) - Eval(a, xs[i]))
  }

  /** The residual sum of squares of line m over the observations. */
  function SquaredError(xs: seq<real>, ys: seq<real>, m: LinearModel): real
    requires |xs| == |ys|
  {
    Sum(Product(Residuals(xs, ys, m), Residuals(xs, ys, m)), |xs|)
  }

  /**
   * The normal equations of least squares: the residuals sum to zero and
   * are uncorrelated with the ordinals.
   */
  predicate NormalEquations(xs: seq<real>, ys: seq<real>, m: LinearModel)
    requires |xs| == |ys|
  {
    Sum(Residuals(xs, ys, m), |xs|) == 0.0 && Sum(Product(xs, Residuals(xs, ys, m)), |xs|) == 0.0
  }

  // ---------------------------------------------------------------------
  // Sums of combinations
  // ---------------------------------------------------------------------

  /** Each of the first n entries of w is a * p + b * q + c * u + d * v at that index. */
  predicate Combines(w: seq<real>, p: seq<real>, q: seq<real>, u: seq<real>, v: seq<real>,
                     a: real, b: real, c: real, d: real, n: nat)
  {
    n <= |w| && n <= |p| && n <= |q| && n <= |u| && n <= |v| &&
    forall i :: 0 <= i < n ==> w[i] == Combine(a, b, c, d, p[i], q[i], u[i], v[i])
  }

  /** Summation is linear: the sum of a combination of four vectors is that combination of their sums. */
  lemma {:induction false} SumCombination(w: seq<real>, p: seq<real>, q: seq<real>, u: seq<real>, v: seq<real>,
                                          a: real, b: real, c: real, d: real, n: nat)
    requires Combines(w, p, q, u, v, a, b, c, d, n)
    ensures Sum(w, n) == Combine(a, b, c, d, Sum(p, n), Sum(q, n), Sum(u, n), Sum(v, n))
  {
    if n > 0 {
      SumCombination(w, p, q, u, v, a, b, c, d, n - 1);
      CombinationStep(a, b, c, d,
                      Sum(p, n - 1), Sum(q, n - 1), Sum(u, n - 1), Sum(v, n - 1), Sum(w, n - 1),
                      p[n - 1], q[n - 1], u[n - 1], v[n - 1], w[n - 1],
                      Sum(p, n), Sum(q, n), Sum(u, n), Sum(v, n), Sum(w, n));
    }
  }

  /** The first n entries of vs are zero. */
  predicate AllZero(vs: seq<real>, n: nat)
    requires n <= |vs|
  {
    forall i :: 0 <= i < n ==> vs[i] == 0.0
  }

  /** A sum of squares is non-negative. */
  lemma {:induction false} SumSquaresNonNegative(vs: seq<real>, n: nat)
    requires n <= |vs|
    ensures Sum(Product(vs, vs), n) >= 0.0
  {
    if n > 0 {
      SumSquaresNonNegative(vs, n - 1);
      SquareSign(vs[n - 1], Product(vs, vs)[n - 1]);
    }
  }

  /** A sum of squares is zero exactly when every entry is zero. */
  lemma {:induction false} SumSquaresZero(vs: seq<real>, n: nat)
    requires n <= |vs|
    ensures Sum(Product(vs, vs), n) == 0.0 <==> AllZero(vs, n)
  {
    if n > 0 {
      SumSquaresZero(vs, n - 1);
      SumSquaresNonNegative(vs, n - 1);
      SquareSign(vs[n - 1], Product(vs, vs)[n - 1]);
      if Sum(Product(vs, vs), n) == 0.0 {
        assert vs[n - 1] == 0.0;
        forall i | 0 <= i < n
          ensures vs[i] == 0.0
        {
          if i < n - 1 {
            assert Sum(Product(vs, vs), n - 1) == 0.0;
          }
        }
      }
      if forall i :: 0 <= i < n ==> vs[i] == 0.0 {
        assert vs[n - 1] == 0.0;
        assert forall i :: 0 <= i < n - 1 ==> vs[i] == 0.0;
      }
    }
  }

  /** A constant vector sums to its length times the constant. */
  lemma {:induction false} SumConstant(vs: seq<real>, c: real, n: nat)
    requires n <= |vs|
    requires forall i :: 0 <= i < n ==> vs[i] == c
    ensures Sum(vs, n) == n as real * c
  {
    if n > 0 {
      SumConstant(vs, c, n - 1);
    }
  }

  /** n ones sum to n. */
  lemma {:induction false} SumOnes(n: nat)
    ensures Sum(Ones(n), n) == n as real
  {
    SumOnesPrefix(Ones(n), n);
  }

  lemma {:induction false} SumOnesPrefix(vs: seq<real>, n: nat)
    requires n <= |vs|
    requires forall i :: 0 <= i < n ==> vs[i] == 1.0
    ensures Sum(vs, n) == n as real
  {
    if n > 0 {
      SumOnesPrefix(vs, n - 1);
    }
  }

  /** A vector of zeros sums to zero. */
  lemma {:induction false} SumZeros(vs: seq<real>, n: nat)
    requires n <= |vs|
    requires AllZero(vs, n)
    ensures Sum(vs, n) == 0.0
  {
    if n > 0 {
      SumZeros(vs, n - 1);
    }
  }

  // ---------------------------------------------------------------------
  // Closed forms of the sums in terms of Sx, Sy, Sxx and Sxy
  // ---------------------------------------------------------------------

  lemma ResidualCombines(xs: seq<real>, ys: seq<real>, m: LinearModel)
    requires |xs| == |ys|
    ensures Combines(Residuals(xs, ys, m), ys, xs, Ones(|xs|), Ones(|xs|), 1.0, -m.slope, -m.intercept, 0.0, |xs|)
  {
  }

  /** The residuals of m sum to Sy - slope * Sx - intercept * n. */
  lemma ResidualSumClosedForm(xs: seq<real>, ys: seq<real>, m: LinearModel)
    requires |xs| == |ys|
    ensures Sum(Residuals(xs, ys, m), |xs|)
            == Combine(1.0, -m.slope, -m.intercept, 0.0, SumY(ys), SumX(xs), |xs| as real, |xs| as real)
  {
    ResidualCombines(xs, ys, m);
    SumCombination(Residuals(xs, ys, m), ys, xs, Ones(|xs|), Ones(|xs|), 1.0, -m.slope, -m.intercept, 0.0, |xs|);
    SumOnes(|xs|);
  }

  lemma MomentCombines(xs: seq<real>, ys: seq<real>, m: LinearModel)
    requires |xs| == |ys|
    ensures Combines(Product(xs, Residuals(xs, ys, m)), Product(xs, ys), Product(xs, xs), xs, xs,
                     1.0, -m.slope, -m.intercept, 0.0, |xs|)
  {
    forall i | 0 <= i < |xs|
      ensures Product(xs, Residuals(xs, ys, m))[i]
              == Combine(1.0, -m.slope, -m.intercept, 0.0, Product(xs, ys)[i], Product(xs, xs)[i], xs[i], xs[i])
    {
      MomentTerm(xs[i], ys[i], Residuals(xs, ys, m)[i], m.slope, m.intercept,
                 Product(xs, Residuals(xs, ys, m))[i], Product(xs, ys)[i], Product(xs, xs)[i]);
    }
  }

  /** The residuals of m, weighted by the ordinals, sum to Sxy - slope * Sxx - intercept * Sx. */
  lemma ResidualMomentClosedForm(xs: seq<real>, ys: seq<real>, m: LinearModel)
    requires |xs| == |ys|
    ensures Sum(Product(xs, Residuals(xs, ys, m)), |xs|)
            == Combine(1.0, -m.slope, -m.intercept, 0.0, SumXY(xs, ys), SumXX(xs), SumX(xs), SumX(xs))
  {
    MomentCombines(xs, ys, m);
    SumCombination(Product(xs, Residuals(xs, ys, m)), Product(xs, ys), Product(xs, xs), xs, xs,
                   1.0, -m.slope, -m.intercept, 0.0, |xs|);
  }

  lemma DeviationCombines(xs: seq<real>, c: real, k: real)
    requires k == -(2.0 * c)
    ensures Combines(Product(Deviations(xs, c), Deviations(xs, c)), Product(xs, xs), xs, Ones(|xs|), Ones(|xs|),
                     1.0, k, Sq(c), 0.0, |xs|)
  {
    forall i | 0 <= i < |xs|
      ensures Product(Deviations(xs, c), Deviations(xs, c))[i]
              == Combine(1.0, k, Sq(c), 0.0, Product(xs, xs)[i], xs[i], Ones(|xs|)[i], Ones(|xs|)[i])
    {
      DeviationTerm(xs[i], c, Deviations(xs, c)[i], Product(Deviations(xs, c), Deviations(xs, c))[i],
                    Product(xs, xs)[i], Ones(|xs|)[i]);
    }
  }

  /** The squared deviations from c sum to Sxx - 2c * Sx + c^2 * n, where k = -2c. */
  lemma DeviationSquaresClosedForm(xs: seq<real>, c: real, k: real)
    requires k == -(2.0 * c)
    ensures Sum(Product(Deviations(xs, c), Deviations(xs, c)), |xs|)
            == Combine(1.0, k, Sq(c), 0.0, SumXX(xs), SumX(xs), |xs| as real, |xs| as real)
  {
    DeviationCombines(xs, c, k);
    SumCombination(Product(Deviations(xs, c), Deviations(xs, c)), Product(xs, xs), xs, Ones(|xs|), Ones(|xs|),
                   1.0, k, Sq(c), 0.0, |xs|);
    SumOnes(|xs|);
  }

  lemma SplitCombines(xs: seq<real>, ys: seq<real>, f: LinearModel, a: LinearModel)
    requires |xs| == |ys|
    ensures Combines(Product(Residuals(xs, ys, a), Residuals(xs, ys, a)),
                     Product(Residuals(xs, ys, f), Residuals(xs, ys, f)),
                     Product(Residuals(xs, ys, f), Gaps(xs, f, a)),
                     Product(Gaps(xs, f, a), Gaps(xs, f, a)), Gaps(xs, f, a),
                     1.0, 2.0, 1.0, 0.0, |xs|)
  {
    forall i | 0 <= i < |xs|
      ensures Product(Residuals(xs, ys, a), Residuals(xs, ys, a))[i]
              == Combine(1.0, 2.0, 1.0, 0.0, Product(Residuals(xs, ys, f), Residuals(xs, ys, f))[i],
                         Product(Residuals(xs, ys, f), Gaps(xs, f, a))[i],
                         Product(Gaps(xs, f, a), Gaps(xs, f, a))[i], Gaps(xs, f, a)[i])
    {
      SplitTerm(Residuals(xs, ys, a)[i], Residuals(xs, ys, f)[i], Gaps(xs, f, a)[i],
                Product(Residuals(xs, ys, a), Residuals(xs, ys, a))[i],
                Product(Residuals(xs, ys, f), Residuals(xs, ys, f))[i],
                Product(Residuals(xs, ys, f), Gaps(xs, f, a))[i],
                Product(Gaps(xs, f, a), Gaps(xs, f, a))[i]);
    }
  }

  /**
   * The squared error of any line a, split around another line f:
   * SSE(a) = SSE(f) + 2 * sum(residual of f * gap) + sum(gap^2), the gap being f minus a.
   */
  lemma SquaredErrorSplit(xs: seq<real>, ys: seq<real>, f: LinearModel, a: LinearModel)
    requires |xs| == |ys|
    ensures SquaredError(xs, ys, a)
            == Combine(1.0, 2.0, 1.0, 0.0, SquaredError(xs, ys, f), Sum(Product(Residuals(xs, ys, f), Gaps(xs, f, a)), |xs|),
                       Sum(Product(Gaps(xs, f, a), Gaps(xs, f, a)), |xs|), Sum(Gaps(xs, f, a), |xs|))
  {
    SplitCombines(xs, ys, f, a);
    SumCombination(Product(Residuals(xs, ys, a), Residuals(xs, ys, a)),
                   Product(Residuals(xs, ys, f), Residuals(xs, ys, f)),
                   Product(Residuals(xs, ys, f), Gaps(xs, f, a)),
                   Product(Gaps(xs, f, a), Gaps(xs, f, a)), Gaps(xs, f, a),
                   1.0, 2.0, 1.0, 0.0, |xs|);
  }

  lemma CrossCombines(xs: seq<real>, ys: seq<real>, f: LinearModel, a: LinearModel, ds: real, di: real)
    requires |xs| == |ys|
    requires ds == f.slope - a.slope && di == f.intercept - a.intercept
    ensures Combines(Product(Residuals(xs, ys, f), Gaps(xs, f, a)),
                     Product(xs, Residuals(xs, ys, f)), Residuals(xs, ys, f), Gaps(xs, f, a), Gaps(xs, f, a),
                     ds, di, 0.0, 0.0, |xs|)
  {
    forall i | 0 <= i < |xs|
      ensures Product(Residuals(xs, ys, f), Gaps(xs, f, a))[i]
              == Combine(ds, di, 0.0, 0.0, Product(xs, Residuals(xs, ys, f))[i], Residuals(xs, ys, f)[i],
                         Gaps(xs, f, a)[i], Gaps(xs, f, a)[i])
    {
      CrossTerm(xs[i], Residuals(xs, ys, f)[i], Gaps(xs, f, a)[i], ds, di,
                Product(Residuals(xs, ys, f), Gaps(xs, f, a))[i], Product(xs, Residuals(xs, ys, f))[i]);
    }
  }

  /**
   * The cross term of the split is a combination of the two sums of the
   * normal equations of f, weighted by how far the coefficients of a and f differ.
   */
  lemma CrossClosedForm(xs: seq<real>, ys: seq<real>, f: LinearModel, a: LinearModel, ds: real, di: real)
    requires |xs| == |ys|
    requires ds == f.slope - a.slope && di == f.intercept - a.intercept
    ensures Sum(Product(Residuals(xs, ys, f), Gaps(xs, f, a)), |xs|)
            == Combine(ds, di, 0.0, 0.0, Sum(Product(xs, Residuals(xs, ys, f)), |xs|), Sum(Residuals(xs, ys, f), |xs|),
                       Sum(Gaps(xs, f, a), |xs|), Sum(Gaps(xs, f, a), |xs|))
  {
    CrossCombines(xs, ys, f, a, ds, di);
    SumCombination(Product(Residuals(xs, ys, f), Gaps(xs, f, a)),
                   Product(xs, Residuals(xs, ys, f)), Residuals(xs, ys, f), Gaps(xs, f, a), Gaps(xs, f, a),
                   ds, di, 0.0, 0.0, |xs|);
  }

  // ---------------------------------------------------------------------
  // Properties of the fit
  // ---------------------------------------------------------------------

  /** The deviations from the mean ordinal all vanish exactly when the denominator does. */
  lemma DegenerateIffFlatDeviations(xs: seq<real>)
    requires |xs| > 0
    ensures Denominator(xs) == 0.0 <==> AllZero(Deviations(xs, MeanOf(|xs| as real, SumX(xs))), |xs|)
  {
    DeviationSquaresClosedForm(xs, MeanOf(|xs| as real, SumX(xs)), -(2.0 * MeanOf(|xs| as real, SumX(xs))));
    SpreadZeroIff(|xs| as real, SumX(xs), SumXX(xs),
                  Sum(Product(Deviations(xs, MeanOf(|xs| as real, SumX(xs))), Deviations(xs, MeanOf(|xs| as real, SumX(xs)))), |xs|));
    SumSquaresZero(Deviations(xs, MeanOf(|xs| as real, SumX(xs))), |xs|);
  }

  /** The closed form degenerates exactly when every ordinal is the same. */
  lemma DegenerateIffConstant(xs: seq<real>)
    requires |xs| > 0
    ensures Denominator(xs) == 0.0 <==> Constant(xs)
  {
    DegenerateIffFlatDeviations(xs);
    if Constant(xs) {
      SumConstant(xs, xs[0], |xs|);
      MeanOfCopies(|xs| as real, xs[0], SumX(xs));
      assert AllZero(Deviations(xs, MeanOf(|xs| as real, SumX(xs))), |xs|);
    }
    if AllZero(Deviations(xs, MeanOf(|xs| as real, SumX(xs))), |xs|) {
      assert Deviations(xs, MeanOf(|xs| as real, SumX(xs)))[0] == 0.0;
      forall i | 0 <= i < |xs|
        ensures xs[i] == xs[0]
      {
        assert Deviations(xs, MeanOf(|xs| as real, SumX(xs)))[i] == 0.0;
      }
    }
  }

  /**
   * A history whose ordinals are all the same (a single bar, in
   * particular) is fitted by the flat line at the mean price.
   */
  lemma ConstantAxisFitIsMean(xs: seq<real>, ys: seq<real>)
    requires |xs| == |ys| > 0 && Constant(xs)
    ensures Fit(xs, ys).slope == 0.0
    ensures Fit(xs, ys).intercept * (|xs| as real) == SumY(ys)
  {
    DegenerateIffConstant(xs);
  }

  /** The fitted line satisfies the normal equations, degenerate or not. */
  lemma FitSolvesNormalEquations(xs: seq<real>, ys: seq<real>)
    requires |xs| == |ys| > 0
    ensures NormalEquations(xs, ys, Fit(xs, ys))
  {
    ResidualSumClosedForm(xs, ys, Fit(xs, ys));
    InterceptSolves(|xs| as real, SumX(xs), SumY(ys), FitSlope(xs, ys));
    ResidualMomentClosedForm(xs, ys, Fit(xs, ys));
    if Denominator(xs) == 0.0 {
      FlatFitSolvesMoment(xs, ys);
    } else {
      SlopeSolves(|xs| as real, SumX(xs), SumY(ys), SumXX(xs), SumXY(xs, ys));
    }
  }

  /** With identical ordinals x0, Sx = n * x0 and Sxy = x0 * Sy, so the flat line solves the second equation. */
  lemma FlatFitSolvesMoment(xs: seq<real>, ys: seq<real>)
    requires |xs| == |ys| > 0 && Denominator(xs) == 0.0
    ensures Combine(1.0, 0.0, -InterceptOf(|xs| as real, SumX(xs), SumY(ys), 0.0), 0.0,
                    SumXY(xs, ys), SumXX(xs), SumX(xs), SumX(xs)) == 0.0
  {
    DegenerateIffConstant(xs);
    SumConstant(xs, xs[0], |xs|);
    forall i | 0 <= i < |xs|
      ensures Product(xs, ys)[i] == Combine(xs[0], 0.0, 0.0, 0.0, ys[i], ys[i], ys[i], ys[i])
    {
      ScaleEq(ys[i], xs[i], xs[0]);
    }
    assert Combines(Product(xs, ys), ys, ys, ys, ys, xs[0], 0.0, 0.0, 0.0, |xs|);
    SumCombination(Product(xs, ys), ys, ys, ys, ys, xs[0], 0.0, 0.0, 0.0, |xs|);
    FlatSolves(|xs| as real, xs[0], SumX(xs), SumY(ys), SumXX(xs), SumXY(xs, ys));
  }

  /**
   * When the ordinals are not all equal, the normal equations have exactly
   * one solution, the fitted line.
   */
  lemma FitCharacterized(xs: seq<real>, ys: seq<real>, m: LinearModel)
    requires |xs| == |ys| > 0 && !Constant(xs)
    ensures m == Fit(xs, ys) <==> NormalEquations(xs, ys, m)
  {
    FitSolvesNormalEquations(xs, ys);
    if NormalEquations(xs, ys, m) {
      DegenerateIffConstant(xs);
      ResidualSumClosedForm(xs, ys, m);
      ResidualMomentClosedForm(xs, ys, m);
      ClosedFormUnique(|xs| as real, SumX(xs), SumY(ys), SumXX(xs), SumXY(xs, ys), m.slope, m.intercept);
    }
  }

  /** Least squares: no line has a smaller squared error than the fitted one. */
  lemma FitMinimizesSquaredError(xs: seq<real>, ys: seq<real>, a: LinearModel)
    requires |xs| == |ys| > 0
    ensures SquaredError(xs, ys, Fit(xs, ys)) <= SquaredError(xs, ys, a)
  {
    FitSolvesNormalEquations(xs, ys);
    SquaredErrorSplit(xs, ys, Fit(xs, ys), a);
    CrossClosedForm(xs, ys, Fit(xs, ys), a, Fit(xs, ys).slope - a.slope, Fit(xs, ys).intercept - a.intercept);
    SumSquaresNonNegative(Gaps(xs, Fit(xs, ys), a), |xs|);
    SplitBound(SquaredError(xs, ys, a), SquaredError(xs, ys, Fit(xs, ys)),
               Sum(Product(Residuals(xs, ys, Fit(xs, ys)), Gaps(xs, Fit(xs, ys), a)), |xs|),
               Sum(Product(Gaps(xs, Fit(xs, ys), a), Gaps(xs, Fit(xs, ys), a)), |xs|),
               Sum(Gaps(xs, Fit(xs, ys), a), |xs|),
               Fit(xs, ys).slope - a.slope, Fit(xs, ys).intercept - a.intercept,
               Sum(Product(xs, Residuals(xs, ys, Fit(xs, ys))), |xs|), Sum(Residuals(xs, ys, Fit(xs, ys)), |xs|));
  }

  /** A line through every observation satisfies the normal equations. */
  lemma ExactLineSolves(xs: seq<real>, ys: seq<real>, line: LinearModel)
    requires |xs| == |ys|
    requires AllZero(Residuals(xs, ys, line), |xs|)
    ensures NormalEquations(xs, ys, line)
  {
    SumZeros(Residuals(xs, ys, line), |xs|);
    forall i | 0 <= i < |xs|
      ensures Product(xs, Residuals(xs, ys, line))[i] == 0.0
    {
      ScaleEq(xs[i], Residuals(xs, ys, line)[i], 0.0);
    }
    SumZeros(Product(xs, Residuals(xs, ys, line)), |xs|);
  }

  /** When some line passes through every observation, so does the fitted one. */
  lemma ExactFitHasZeroResiduals(xs: seq<real>, ys: seq<real>, line: LinearModel)
    requires |xs| == |ys| > 0
    requires AllZero(Residuals(xs, ys, line), |xs|)
    ensures AllZero(Residuals(xs, ys, Fit(xs, ys)), |xs|)
  {
    SumSquaresZero(Residuals(xs, ys, line), |xs|);
    FitMinimizesSquaredError(xs, ys, line);
    SumSquaresNonNegative(Residuals(xs, ys, Fit(xs, ys)), |xs|);
    SumSquaresZero(Residuals(xs, ys, Fit(xs, ys)), |xs|);
  }

  /**
   * Observations lying exactly on a line are reproduced by the fit; when
   * the ordinals are not all equal the fitted line is that line.
   */
  lemma FitReproducesLine(xs: seq<real>, ys: seq<real>, line: LinearModel)
    requires |xs| == |ys| > 0
    requires forall i :: 0 <= i < |xs| ==> ys[i] == Eval(line, xs[i])
    ensures forall i :: 0 <= i < |xs| ==> Eval(Fit(xs, ys), xs[i]) == ys[i]
    ensures !Constant(xs) ==> Fit(xs, ys) == line
  {
    assert AllZero(Residuals(xs, ys, line), |xs|);
    ExactFitHasZeroResiduals(xs, ys, line);
    forall i | 0 <= i < |xs|
      ensures Eval(Fit(xs, ys), xs[i]) == ys[i]
    {
      assert Residuals(xs, ys, Fit(xs, ys))[i] == 0.0;
    }
    if !Constant(xs) {
      ExactLineSolves(xs, ys, line);
      FitCharacterized(xs, ys, line);
    }
  }
}
