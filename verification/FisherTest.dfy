/**
  The hand-written one-tailed Fisher exact test, over exact rationals.

  A table is `a`/`b` baseline passes/failures and `c`/`d` feature passes/failures.
  With the margins fixed, the number of feature passes is hypergeometric; `Weight`
  is the count of outcomes with exactly `k` feature passes and `Tail` the count
  with at least `k`.
 */
module FisherTest {
  import opened Binomial

  function Weight(r0: nat, r1: nat, passes: nat, k: int): nat {
    Choose(r1, k) * Choose(r0, passes - k)
  }

  function Tail(r0: nat, r1: nat, passes: nat, k: int): nat
    decreases passes - k + 1
  {
    if k > passes then 0 else Weight(r0, r1, passes, k) + Tail(r0, r1, passes, k + 1)
  }

  /** The probability of a table at least as extreme as the one observed, with no special cases. */
  function PValue(a: nat, b: nat, c: nat, d: nat): (p: real) {
    Positive(a + b + c + d, a + c);
    Tail(a + b, c + d, a + c, c) as real / Choose(a + b + c + d, a + c) as real
  }

  // ---- the counting identity everything follows from ------------------------

  lemma WeightStep(r0: nat, r1: nat, passes: nat, k: int)
    ensures (passes + 1) * Weight(r0, r1, passes + 1, k + 1)
         == (r1 - k) * Weight(r0, r1, passes, k) + (r0 - passes + k + 1) * Weight(r0, r1, passes, k + 1)
  {
    Absorb(r1, k);
    Absorb(r0, passes - k - 1);
    WeightStepArith(passes, k, r1 - k, r0 - passes + k + 1,
                    Choose(r1, k + 1), Choose(r0, passes - k), Choose(r1, k), Choose(r0, passes - k - 1));
  }

  lemma WeightStepArith(p: int, k: int, u: int, v: int, x: int, y: int, x': int, y': int)
    requires (k + 1) * x == u * x'
    requires (p - k) * y == v * y'
    ensures (p + 1) * (x * y) == u * (x' * y) + v * (x * y')
  {
    assert (p + 1) * (x * y) == ((k + 1) * x) * y + ((p - k) * y) * x;
    assert (u * x') * y == u * (x' * y);
    assert (v * y') * x == v * (x * y');
  }

  /**
    Counting pairs "a choice of `passes` attempts, and one more attempt added to it":
    the pairs whose larger choice has more than `k` feature passes are those whose
    smaller choice already had, plus those pushed over by the added attempt.
   */
  lemma {:induction false} TailStep(r0: nat, r1: nat, passes: nat, k: int)
    requires -1 <= k <= passes
    ensures (passes + 1) * Tail(r0, r1, passes + 1, k + 1)
         == (r0 + r1 - passes) * Tail(r0, r1, passes, k + 1) + (r1 - k) * Weight(r0, r1, passes, k)
    decreases passes - k
  {
    WeightStep(r0, r1, passes, k);
    if k < passes {
      TailStep(r0, r1, passes, k + 1);
      assert Tail(r0, r1, passes + 1, k + 1) == Weight(r0, r1, passes + 1, k + 1) + Tail(r0, r1, passes + 1, k + 2);
      assert Tail(r0, r1, passes, k + 1) == Weight(r0, r1, passes, k + 1) + Tail(r0, r1, passes, k + 2);
      TailStepArith(passes + 1, r0 + r1 - passes, r1 - k, r0 - passes + k + 1,
                    Weight(r0, r1, passes + 1, k + 1), Tail(r0, r1, passes + 1, k + 2),
                    Weight(r0, r1, passes, k), Weight(r0, r1, passes, k + 1), Tail(r0, r1, passes, k + 2));
    } else {
      assert Tail(r0, r1, passes + 1, k + 1) == Weight(r0, r1, passes + 1, k + 1) + Tail(r0, r1, passes + 1, k + 2);
      assert Weight(r0, r1, passes, k + 1) == 0;
    }
  }

  lemma TailStepArith(p: int, n: int, u: int, v: int, w1: int, t1: int, w0: int, w0': int, t0: int)
    requires n == u + v - 1
    requires p * w1 == u * w0 + v * w0'
    requires p * t1 == n * t0 + (u - 1) * w0'
    ensures p * (w1 + t1) == n * (w0' + t0) + u * w0
  {
    assert p * (w1 + t1) == p * w1 + p * t1;
    assert v * w0' + (u - 1) * w0' == n * w0';
    assert n * (w0' + t0) == n * w0' + n * t0;
  }

  /** Vandermonde's identity: the weights of all tables with these margins add up to the denominator. */
  lemma {:induction false} Vandermonde(r0: nat, r1: nat, passes: nat)
    ensures Tail(r0, r1, passes, 0) == Choose(r0 + r1, passes)
  {
    if passes == 0 {
      Ends(r0);
      Ends(r1);
      Ends(r0 + r1);
      assert Tail(r0, r1, 0, 0) == Weight(r0, r1, 0, 0) + Tail(r0, r1, 0, 1);
    } else {
      Vandermonde(r0, r1, passes - 1);
      VandermondeStep(r0, r1, passes - 1);
    }
  }

  lemma VandermondeStep(r0: nat, r1: nat, passes: nat)
    requires Tail(r0, r1, passes, 0) == Choose(r0 + r1, passes)
    ensures Tail(r0, r1, passes + 1, 0) == Choose(r0 + r1, passes + 1)
  {
    var x, y, z := Tail(r0, r1, passes + 1, 0), Choose(r0 + r1, passes + 1), Choose(r0 + r1, passes);
    var w := Weight(r0, r1, passes, -1);
    assert (passes + 1) * x == (r0 + r1 - passes) * z + (r1 + 1) * w by { TailStep(r0, r1, passes, -1); }
    assert (passes + 1) * y == (r0 + r1 - passes) * z by { Absorb(r0 + r1, passes); }
    Cancel(passes + 1, r0 + r1 - passes, r1 + 1, x, y, z, w);
  }

  lemma Cancel(p: int, n: int, u: int, x: int, y: int, z: int, w: int)
    requires p > 0 && w == 0 && p * x == n * z + u * w && p * y == n * z
    ensures x == y
  {
    assert u * w == 0;
    assert p * (x - y) == 0;
  }

  // ---- where the tail is everything, and where it is nothing -----------------

  lemma {:induction false} TailAboveRow(r0: nat, r1: nat, passes: nat, k: int)
    requires k > r1
    ensures Tail(r0, r1, passes, k) == 0
    decreases passes - k + 1
  {
    if k <= passes {
      TailAboveRow(r0, r1, passes, k + 1);
    }
  }

  /** Below the window of possible tables, the tail does not shrink. */
  lemma {:induction false} TailBelowWindow(r0: nat, r1: nat, passes: nat, k: nat)
    requires k == 0 || k <= passes - r0
    ensures Tail(r0, r1, passes, k) == Tail(r0, r1, passes, 0)
  {
    if k > 0 {
      TailBelowWindow(r0, r1, passes, k - 1);
    }
  }

  lemma {:induction false} TailSplit(r0: nat, r1: nat, passes: nat, k: nat)
    requires k <= passes + 1
    ensures Tail(r0, r1, passes, k) <= Tail(r0, r1, passes, 0)
    ensures k > 0 ==> Tail(r0, r1, passes, k) + Weight(r0, r1, passes, k - 1) <= Tail(r0, r1, passes, 0)
  {
    if k > 0 {
      TailSplit(r0, r1, passes, k - 1);
    }
  }

  /** The sum never exceeds the denominator, so clipping the quotient at one never does anything. */
  lemma TailBounded(a: nat, b: nat, c: nat, d: nat)
    ensures Tail(a + b, c + d, a + c, c) <= Choose(a + b + c + d, a + c)
    ensures 0.0 <= PValue(a, b, c, d) <= 1.0
  {
    Vandermonde(a + b, c + d, a + c);
    TailSplit(a + b, c + d, a + c, c);
    Positive(a + b + c + d, a + c);
    QuotientAtMostOne(Tail(a + b, c + d, a + c, c), Choose(a + b + c + d, a + c));
  }

  lemma QuotientAtMostOne(x: nat, y: nat)
    requires x <= y && y > 0
    ensures 0.0 <= x as real / y as real <= 1.0
    ensures x as real / y as real == 1.0 <==> x == y
  {
  }

  /** The p-value is one exactly for tables at the near end of their window: no feature pass, or no baseline failure. */
  lemma CertainExactly(a: nat, b: nat, c: nat, d: nat)
    ensures PValue(a, b, c, d) == 1.0 <==> c == 0 || b == 0
  {
    TailBounded(a, b, c, d);
    Positive(a + b + c + d, a + c);
    Vandermonde(a + b, c + d, a + c);
    if c == 0 || b == 0 {
      TailBelowWindow(a + b, c + d, a + c, c);
    } else {
      TailSplit(a + b, c + d, a + c, c);
      Positive(c + d, c - 1);
      Positive(a + b, a + 1);
      PositiveProduct(Choose(c + d, c - 1), Choose(a + b, a + 1));
    }
    QuotientAtMostOne(Tail(a + b, c + d, a + c, c), Choose(a + b + c + d, a + c));
  }

  lemma PositiveProduct(x: int, y: int)
    requires x > 0 && y > 0
    ensures x * y > 0
  {
  }

  // ---- monotonicity -----------------------------------------------------------

  /** One more feature pass, at the same number of runs, never raises the p-value. */
  lemma MoreFeaturePasses(a: nat, b: nat, c: nat, d: nat)
    requires d > 0
    ensures PValue(a, b, c + 1, d - 1) <= PValue(a, b, c, d)
  {
    var r0, r1, n, p := a + b, c + d, a + b + c + d, a + c;
    TailStep(r0, r1, p, c);
    Absorb(n, p);
    Positive(n, p);
    Positive(n, p + 1);
    var t, w := Tail(r0, r1, p, c + 1), Weight(r0, r1, p, c);
    assert Tail(r0, r1, p, c) == w + t;
    Absorbed(n - p, t, d, w);
    RatioLe(p + 1, n - p, Tail(r0, r1, p + 1, c + 1), Choose(n, p + 1), w + t, Choose(n, p));
  }

  lemma Absorbed(n: int, t: nat, d: int, w: nat)
    requires d <= n
    ensures n * t + d * w <= n * (w + t)
  {
    ScaleLe(d, n, w);
    assert n * (w + t) == n * w + n * t;
  }

  /** One fewer baseline pass, at the same number of runs, never raises the p-value. */
  lemma FewerBaselinePasses(a: nat, b: nat, c: nat, d: nat)
    requires a > 0
    ensures PValue(a - 1, b + 1, c, d) <= PValue(a, b, c, d)
  {
    var r0, r1, n, p := a + b, c + d, a + b + c + d, a + c;
    TailStep(r0, r1, p - 1, c - 1);
    Absorb(n, p - 1);
    Positive(n, p);
    Positive(n, p - 1);
    var w := Weight(r0, r1, p - 1, c - 1);
    assert 0 <= (d + 1) * w by { ScaleLe(0, d + 1, w); }
    RatioLe'(p, n - p + 1, Tail(r0, r1, p, c), Choose(n, p), Tail(r0, r1, p - 1, c), Choose(n, p - 1));
  }

  lemma ScaleLe(x: int, y: int, w: nat)
    requires x <= y
    ensures x * w <= y * w
  {
  }

  lemma RatioLe(u: int, v: int, x: nat, dx: nat, y: nat, dy: nat)
    requires u > 0 && v > 0 && dx > 0 && dy > 0
    requires u * x <= v * y
    requires u * dx == v * dy
    ensures x as real / dx as real <= y as real / dy as real
  {
    assert (u * x) * dy <= (v * y) * dy by { ScaleLe(u * x, v * y, dy); }
    assert (v * y) * dy == (u * dx) * y by { assert (v * y) * dy == (v * dy) * y; }
    assert u * (x * dy) <= u * (dx * y);
    assert x * dy <= dx * y;
    CrossLe(x, dx, y, dy);
  }

  lemma RatioLe'(u: int, v: int, x: nat, dx: nat, y: nat, dy: nat)
    requires u > 0 && v > 0 && dx > 0 && dy > 0
    requires u * x >= v * y
    requires u * dx == v * dy
    ensures y as real / dy as real <= x as real / dx as real
  {
    RatioLe(v, u, y, dy, x, dx);
  }

  lemma CrossLe(x: nat, dx: nat, y: nat, dy: nat)
    requires dx > 0 && dy > 0 && x * dy <= dx * y
    ensures x as real / dx as real <= y as real / dy as real
  {
    var p, q := x as real / dx as real, y as real / dy as real;
    assert p * dx as real == x as real;
    assert q * dy as real == y as real;
    assert (x * dy) as real <= (dx * y) as real;
    assert p * (dx as real * dy as real) <= q * (dx as real * dy as real);
    assert dx as real * dy as real > 0.0;
  }

  /** The p-value over whole ranges: more feature passes and fewer baseline passes, at the same runs. */
  lemma {:induction false} MoreExtreme(a: nat, n: nat, c: nat, m: nat, a': nat, c': nat)
    requires a' <= a <= n && c <= c' <= m
    ensures PValue(a', n - a', c', m - c') <= PValue(a, n - a, c, m - c)
    decreases a - a' + c' - c
  {
    if c < c' {
      MoreExtreme(a, n, c + 1, m, a', c');
      MoreFeaturePasses(a, n - a, c, m - c);
    } else if a' < a {
      MoreExtreme(a - 1, n, c, m, a', c');
      FewerBaselinePasses(a, n - a, c, m - c);
    }
  }

  // ---- the two directions ----------------------------------------------------

  /** Reading the same outcomes from the other row: its tail from `passes - k` is everything up to `k`. */
  lemma {:induction false} Reindex(r0: nat, r1: nat, passes: nat, k: int)
    requires -1 <= k <= passes
    ensures Tail(r1, r0, passes, passes - k) + Tail(r0, r1, passes, k + 1) == Tail(r0, r1, passes, 0)
    decreases k + 1
  {
    if k >= 0 {
      Reindex(r0, r1, passes, k - 1);
      WeightFromOtherRow(r0, r1, passes, k);
      assert Tail(r0, r1, passes, k) == Weight(r0, r1, passes, k) + Tail(r0, r1, passes, k + 1);
      assert Tail(r1, r0, passes, passes - k)
          == Weight(r1, r0, passes, passes - k) + Tail(r1, r0, passes, passes - k + 1);
    } else {
      assert Tail(r1, r0, passes, passes + 1) == 0;
    }
  }

  lemma WeightFromOtherRow(r0: nat, r1: nat, passes: nat, k: int)
    ensures Weight(r1, r0, passes, passes - k) == Weight(r0, r1, passes, k)
  {
    assert passes - (passes - k) == k;
    Commute(Choose(r0, passes - k), Choose(r1, k));
  }

  lemma Commute(x: int, y: int)
    ensures x * y == y * x
  {
  }

  /** The two directions share exactly the observed table. */
  lemma Complement(a: nat, b: nat, c: nat, d: nat)
    ensures Tail(a + b, c + d, a + c, c) + Tail(c + d, a + b, a + c, a)
         == Choose(a + b + c + d, a + c) + Weight(a + b, c + d, a + c, c)
  {
    var r0, r1, p := a + b, c + d, a + c;
    Reindex(r0, r1, p, c);
    assert p - c == a;
    Vandermonde(r0, r1, p);
    assert r0 + r1 == a + b + c + d;
    assert Tail(r0, r1, p, c) == Weight(r0, r1, p, c) + Tail(r0, r1, p, c + 1);
  }

  /** So the two p-values exceed one between them. */
  lemma BothDirectionsExceedOne(a: nat, b: nat, c: nat, d: nat)
    ensures PValue(a, b, c, d) + PValue(c, d, a, b) > 1.0
  {
    var r0, r1, p, n := a + b, c + d, a + c, a + b + c + d;
    Complement(a, b, c, d);
    Positive(r1, c);
    Positive(r0, a);
    PositiveProduct(Choose(r1, c), Choose(r0, p - c));
    Positive(n, p);
    SumAboveOne(Tail(r0, r1, p, c), Tail(r1, r0, p, a), Choose(n, p));
    assert c + d + a + b == n && c + a == p;
  }

  lemma SumAboveOne(x: nat, y: nat, d: nat)
    requires d > 0 && x + y > d
    ensures x as real / d as real + y as real / d as real > 1.0
  {
    var u, v, e := x as real, y as real, d as real;
    assert u + v > e;
    RealSumAboveOne(u, v, e);
  }

  lemma RealSumAboveOne(u: real, v: real, e: real)
    requires e > 0.0 && u + v > e
    ensures u / e + v / e > 1.0
  {
    var p, q := u / e, v / e;
    assert p * e == u && q * e == v;
    assert (p + q) * e == p * e + q * e;
    if p + q <= 1.0 {
      ScaleRealLe(p + q, 1.0, e);
    }
  }

  lemma ScaleRealLe(x: real, y: real, w: real)
    requires x <= y && w >= 0.0
    ensures x * w <= y * w
  {
  }

  // ---- the test itself -------------------------------------------------------

  /** One-tailed p by direct enumeration: three shortcuts, a summing loop, a clip at one. */
  method FisherExactGreater(a: nat, b: nat, c: nat, d: nat) returns (p: real)
    ensures p == PValue(a, b, c, d)
  {
    var r0, r1 := a + b, c + d;
    var passes := a + c;
    var total := a + b + c + d;
    if r0 == 0 || r1 == 0 || passes == 0 || passes == total {
      CertainExactly(a, b, c, d);
      return 1.0;
    }
    var denominator := Choose(total, passes);
    var observed := c;
    var tail := 0;
    var last := if r1 < passes then r1 else passes;
    for k := observed to last + 1
      invariant tail + Tail(r0, r1, passes, k) == Tail(r0, r1, passes, observed)
    {
      tail := tail + Choose(r1, k) * Choose(r0, passes - k);
    }
    assert Tail(r0, r1, passes, last + 1) == 0 by {
      if r1 < passes {
        TailAboveRow(r0, r1, passes, last + 1);
      }
    }
    TailBounded(a, b, c, d);
    Positive(total, passes);
    p := tail as real / denominator as real;
    p := if p < 1.0 then p else 1.0;
  }

  const SIGNIFICANCE := 0.05

  /** At the 5% level, stated in whole numbers. */
  lemma SignificanceInIntegers(a: nat, b: nat, c: nat, d: nat)
    ensures PValue(a, b, c, d) <= SIGNIFICANCE
       <==> 20 * Tail(a + b, c + d, a + c, c) <= Choose(a + b + c + d, a + c)
  {
    Positive(a + b + c + d, a + c);
    TwentiethOf(Tail(a + b, c + d, a + c, c), Choose(a + b + c + d, a + c));
  }

  lemma TwentiethOf(x: nat, y: nat)
    requires y > 0
    ensures x as real / y as real <= 0.05 <==> 20 * x <= y
  {
    var p := x as real / y as real;
    assert p * y as real == x as real;
    if p <= 0.05 {
      ScaleRealLe(p, 0.05, y as real);
    } else {
      assert (p - 0.05) * y as real > 0.0;
    }
  }

  /**
    Four passes of seven against seven of seven: the one-tailed value is 35/364, not
    significant.  (About half the 0.19 that the comments beside the code give for it.)
   */
  lemma FourOfSevenToSevenOfSeven()
    ensures Tail(7, 7, 11, 7) == 35 && Choose(14, 11) == 364
    ensures PValue(4, 3, 7, 0) > SIGNIFICANCE
  {
    hide Choose, PValue;
    SmallRows();
    TailAboveRow(7, 7, 11, 8);
    SignificanceInIntegers(4, 3, 7, 0);
  }

  lemma SmallRows()
    ensures Choose(7, 7) == 1 && Choose(7, 4) == 35 && Choose(14, 11) == 364
  {
    hide Choose;
    Ends(7);
    Ends(14);
    Absorb(7, 0);
    Absorb(7, 1);
    Absorb(7, 2);
    Absorb(7, 3);
    Absorb(14, 13);
    Absorb(14, 12);
    Absorb(14, 11);
  }

  /** One pass of `n` against `n` of `n`: `n` ways out of so many that they are rare from eleven on. */
  lemma OneToAll(n: nat)
    requires n >= 11
    ensures Tail(n, n, n + 1, n) == n && 20 * n <= Choose(n + n, n + 1)
  {
    hide Choose;
    Ends(n);
    Absorb(n, 0);
    TailAboveRow(n, n, n + 1, n + 1);
    assert Tail(n, n, n + 1, n) == Weight(n, n, n + 1, n) + Tail(n, n, n + 1, n + 1);
    PairsAtLeast(n + n, n + 1);
    ManyPairs(n);
  }

  lemma ManyPairs(n: nat)
    requires n >= 11
    ensures 2 * (20 * n) <= (n + n) * (n + n - 1)
  {
    assert (n + n) * (n + n - 1) == 2 * (n * (n + n - 1));
    ScaleLe(20, n + n - 1, n);
    Commute(n, n + n - 1);
  }

  /** Away from the ends a coefficient is at least the number of pairs. */
  lemma {:induction false} PairsAtLeast(n: nat, k: nat)
    requires 2 <= k <= n - 2
    ensures 2 * Choose(n, k) >= n * (n - 1)
  {
    hide Choose;
    Pascal(n, k);
    if k == 2 {
      Ends(n);
      Absorb(n, 0);
      Absorb(n, 1);
    } else if k == n - 2 {
      Ends(n);
      Absorb(n, n - 1);
      Absorb(n, n - 2);
    } else {
      PairsAtLeast(n - 1, k);
      AtLeastRow(n - 1, k - 1);
    }
  }

  lemma Pascal(n: nat, k: nat)
    requires 0 < k < n
    ensures Choose(n, k) == Choose(n - 1, k - 1) + Choose(n - 1, k)
  {
  }

  lemma {:induction false} AtLeastRow(n: nat, k: nat)
    requires 1 <= k <= n - 1
    ensures Choose(n, k) >= n
  {
    hide Choose;
    Pascal(n, k);
    if k == 1 {
      Ends(n);
      Absorb(n, 0);
    } else if k == n - 1 {
      Ends(n);
      Absorb(n, n - 1);
    } else {
      AtLeastRow(n - 1, k);
      Positive(n - 1, k - 1);
    }
  }

  /** Both directions of one movement can never be significant together. */
  lemma NotBothDirections(a: nat, b: nat, c: nat, d: nat)
    ensures !(PValue(a, b, c, d) <= SIGNIFICANCE && PValue(c, d, a, b) <= SIGNIFICANCE)
  {
    BothDirectionsExceedOne(a, b, c, d);
  }
}
