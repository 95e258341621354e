/**
 * The arithmetic of simple linear regression over plain reals: the
 * closed-form coefficients as functions of the five sums n, Sx, Sy, Sxx and
 * Sxy, and the identities the least-squares proofs need about them. Every
 * lemma here is stated over plain variables, so that it is proved in a small
 * context and its callers only have to match function applications.
 */
module RealAlgebra {

  /** The linear combination a * p + b * q + c * u + d * v. */
  function Combine(a: real, b: real, c: real, d: real, p: real, q: real, u: real, v: real): real
  {
    a * p + b * q + c * u + d * v
  }

  /** The square of c. */
  function Sq(c: real): real
  {
    c * c
  }

  /** The mean s / n. */
  function MeanOf(n: real, s: real): real
    requires n > 0.0
  {
    s / n
  }

  /** n * Sxx - Sx^2: n^2 times the variance of the inputs, the denominator of the slope. */
  function Spread(n: real, sx: real, sxx: real): real
  {
    n * sxx - sx * sx
  }

  /** The closed-form slope (n * Sxy - Sx * Sy) / (n * Sxx - Sx^2). */
  function SlopeOf(n: real, sx: real, sy: real, sxx: real, sxy: real): real
    requires Spread(n, sx, sxx) != 0.0
  {
    (n * sxy - sx * sy) / Spread(n, sx, sxx)
  }

  /** The intercept mean(y) - s * mean(x) that puts the line of slope s through the centroid. */
  function InterceptOf(n: real, sx: real, sy: real, s: real): real
    requires n > 0.0
  {
    MeanOf(n, sy) - s * MeanOf(n, sx)
  }

  /** A product of two factors of the same strict sign is positive. */
  lemma ProductPositive(u: real, v: real, uv: real)
    requires uv == u * v
    requires (u > 0.0 && v > 0.0) || (u < 0.0 && v < 0.0)
    ensures uv > 0.0
  {
  }

  /**
   * A square vv = v * v is non-negative, and zero exactly when v is. The
   * square is passed as its own argument, so that callers state it about
   * their own term.
   */
  lemma SquareSign(v: real, vv: real)
    requires vv == v * v
    ensures vv >= 0.0
    ensures vv == 0.0 <==> v == 0.0
  {
    if v != 0.0 {
      ProductPositive(v, v, vv);
    }
  }

  /**
   * Scaling by s keeps the order of x < y when s > 0, reverses it when
   * s < 0 and collapses it when s = 0; sx and sy are the two products.
   */
  lemma ScaleOrder(s: real, x: real, y: real, sx: real, sy: real)
    requires x < y && sx == s * x && sy == s * y
    ensures s > 0.0 ==> sx < sy
    ensures s < 0.0 ==> sx > sy
    ensures s == 0.0 ==> sx == sy
  {
    var d := y - x;
    assert sy - sx == s * d;
    if s > 0.0 {
      ProductPositive(s, d, sy - sx);
    } else if s < 0.0 {
      var t := -s;
      assert sx - sy == t * d;
      ProductPositive(t, d, sx - sy);
    }
  }

  /** Multiplication distributes over addition. */
  lemma Distribute(a: real, b: real, c: real)
    ensures a * (b + c) == a * b + a * c
  {
  }

  /** Equal factors give equal products. */
  lemma ScaleEq(s: real, x: real, y: real)
    requires x == y
    ensures s * x == s * y
  {
  }

  /** One step of the sum of a * p + b * q + c * u + d * v. */
  lemma CombinationStep(a: real, b: real, c: real, d: real,
                        sp: real, sq: real, su: real, sv: real, sw: real,
                        p: real, q: real, u: real, v: real, w: real,
                        sp': real, sq': real, su': real, sv': real, sw': real)
    requires sw == Combine(a, b, c, d, sp, sq, su, sv)
    requires w == Combine(a, b, c, d, p, q, u, v)
    requires sp' == sp + p && sq' == sq + q && su' == su + u && sv' == sv + v && sw' == sw + w
    ensures sw' == Combine(a, b, c, d, sp', sq', su', sv')
  {
    Distribute(a, sp, p);
    Distribute(b, sq, q);
    Distribute(c, su, u);
    Distribute(d, sv, v);
  }

  /** x * r expanded, where r = y - (s * x + b), xy = x * y and xx = x * x. */
  lemma MomentTerm(x: real, y: real, r: real, s: real, b: real, w: real, xy: real, xx: real)
    requires r == y - (s * x + b)
    requires w == x * r && xy == x * y && xx == x * x
    ensures w == Combine(1.0, -s, -b, 0.0, xy, xx, x, x)
  {
  }

  /** (x - c)^2 expanded, where ee = e * e for e = x - c, xx = x * x and one = 1. */
  lemma DeviationTerm(x: real, c: real, e: real, ee: real, xx: real, one: real)
    requires e == x - c && ee == e * e && xx == x * x && one == 1.0
    ensures ee == Combine(1.0, -(2.0 * c), Sq(c), 0.0, xx, x, one, one)
  {
  }

  /** (rf + g)^2 expanded, where aa, ff, fg and gg are the products of the named factors. */
  lemma SplitTerm(ra: real, rf: real, g: real, aa: real, ff: real, fg: real, gg: real)
    requires ra == rf + g && aa == ra * ra && ff == rf * rf && fg == rf * g && gg == g * g
    ensures aa == Combine(1.0, 2.0, 1.0, 0.0, ff, fg, gg, g)
  {
    Distribute(ra, rf, g);
    assert ra * rf == rf * rf + g * rf;
    assert ra * g == rf * g + g * g;
  }

  /** r * g for g = ds * x + di, where xr = x * r. */
  lemma CrossTerm(x: real, r: real, g: real, ds: real, di: real, rg: real, xr: real)
    requires g == ds * x + di && rg == r * g && xr == x * r
    ensures rg == Combine(ds, di, 0.0, 0.0, xr, r, g, g)
  {
    Distribute(r, ds * x, di);
  }

  /**
   * The spread n * Sxx - Sx^2 is n times the sum ss of squared deviations
   * from the mean, so for n > 0 it is zero exactly when ss is.
   */
  lemma SpreadZeroIff(n: real, sx: real, sxx: real, ss: real)
    requires n > 0.0
    requires ss == Combine(1.0, -(2.0 * MeanOf(n, sx)), Sq(MeanOf(n, sx)), 0.0, sxx, sx, n, n)
    ensures Spread(n, sx, sxx) == 0.0 <==> ss == 0.0
  {
    var c := MeanOf(n, sx);
    assert c * n == sx;
    assert n * (n * (c * c)) == (c * n) * (c * n);
    assert Spread(n, sx, sxx) == n * ss;
    if ss != 0.0 {
      assert n * ss != 0.0;
    }
  }

  /** The mean of n copies of x is x. */
  lemma MeanOfCopies(n: real, x: real, s: real)
    requires n > 0.0 && s == n * x
    ensures MeanOf(n, s) == x
  {
  }

  /** With the centring intercept, the residuals of any slope s sum to zero. */
  lemma InterceptSolves(n: real, sx: real, sy: real, s: real)
    requires n > 0.0
    ensures Combine(1.0, -s, -InterceptOf(n, sx, sy, s), 0.0, sy, sx, n, n) == 0.0
  {
    assert MeanOf(n, sy) * n == sy;
    assert MeanOf(n, sx) * n == sx;
  }

  /** The closed-form slope with its intercept also solves the second normal equation. */
  lemma SlopeSolves(n: real, sx: real, sy: real, sxx: real, sxy: real)
    requires n > 0.0 && Spread(n, sx, sxx) != 0.0
    ensures Combine(1.0, -SlopeOf(n, sx, sy, sxx, sxy), -InterceptOf(n, sx, sy, SlopeOf(n, sx, sy, sxx, sxy)), 0.0,
                    sxy, sxx, sx, sx) == 0.0
  {
    var d := Spread(n, sx, sxx);
    var s := SlopeOf(n, sx, sy, sxx, sxy);
    var b := InterceptOf(n, sx, sy, s);
    assert s * d == n * sxy - sx * sy;
    assert n * b == sy - s * sx;
    assert n * (sxy - s * sxx - b * sx) == n * sxy - s * (n * sxx) - (n * b) * sx;
    assert n * (sxy - s * sxx - b * sx) == n * sxy - sx * sy - s * d;
  }

  /**
   * When all n inputs equal x0 (so Sx = n * x0 and Sxy = x0 * Sy), slope 0
   * with its intercept solves the second normal equation.
   */
  lemma FlatSolves(n: real, x0: real, sx: real, sy: real, sxx: real, sxy: real)
    requires n > 0.0 && sx == n * x0 && sxy == x0 * sy
    ensures Combine(1.0, 0.0, -InterceptOf(n, sx, sy, 0.0), 0.0, sxy, sxx, sx, sx) == 0.0
  {
    var b := InterceptOf(n, sx, sy, 0.0);
    assert n * b == sy;
    assert b * (n * x0) == x0 * (n * b);
  }

  /** The normal equations have no other solution than the closed form. */
  lemma ClosedFormUnique(n: real, sx: real, sy: real, sxx: real, sxy: real, s: real, b: real)
    requires n > 0.0 && Spread(n, sx, sxx) != 0.0
    requires Combine(1.0, -s, -b, 0.0, sy, sx, n, n) == 0.0
    requires Combine(1.0, -s, -b, 0.0, sxy, sxx, sx, sx) == 0.0
    ensures s == SlopeOf(n, sx, sy, sxx, sxy)
    ensures b == InterceptOf(n, sx, sy, s)
  {
    var d := Spread(n, sx, sxx);
    assert n * b == sy - s * sx;
    assert n * (sxy - s * sxx - b * sx) == 0.0;
    assert n * sxy - s * (n * sxx) - (n * b) * sx == 0.0;
    assert s * d == n * sxy - sx * sy;
    assert b == (sy - s * sx) / n;
  }

  /**
   * The squared error sa of another line is that of the fitted line sf
   * plus twice a cross term that the normal equations make zero, plus a
   * sum of squares gg: so it is at least sf.
   */
  lemma SplitBound(sa: real, sf: real, cross: real, gg: real, z: real, ds: real, di: real, mx: real, mr: real)
    requires sa == Combine(1.0, 2.0, 1.0, 0.0, sf, cross, gg, z)
    requires cross == Combine(ds, di, 0.0, 0.0, mx, mr, z, z)
    requires mx == 0.0 && mr == 0.0 && gg >= 0.0
    ensures sf <= sa
  {
  }
}
