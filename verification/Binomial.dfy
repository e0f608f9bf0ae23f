/**
  Binomial coefficients, as `math.comb` gives them, and the identities the exact
  test rests on.  `Choose` is total in its second argument (zero outside `0..n`),
  which lets sums over a window be written without edge cases.
 */
module Binomial {

  function Choose(n: nat, k: int): nat
    decreases n
  {
    if k < 0 || k > n then 0
    else if n == 0 then 1
    else Choose(n - 1, k - 1) + Choose(n - 1, k)
  }

  function Factorial(n: nat): nat {
    if n == 0 then 1 else n * Factorial(n - 1)
  }

  lemma {:induction false} Ends(n: nat)
    ensures Choose(n, 0) == 1 && Choose(n, n) == 1
  {
    if n > 0 {
      Ends(n - 1);
    }
  }

  /** Inside its window a coefficient is never zero. */
  lemma {:induction false} Positive(n: nat, k: int)
    requires 0 <= k <= n
    ensures Choose(n, k) > 0
  {
    if n > 0 {
      if k == n {
        Positive(n - 1, k - 1);
      } else {
        Positive(n - 1, k);
      }
    }
  }

  /** Moving from `k` to `k + 1` trades the factor `n - k` for `k + 1`, at every integer `k`. */
  lemma {:induction false} Absorb(n: nat, k: int)
    ensures (k + 1) * Choose(n, k + 1) == (n - k) * Choose(n, k)
    decreases n
  {
    if 0 <= k <= n && n > 0 {
      Absorb(n - 1, k);
      Absorb(n - 1, k - 1);
      AbsorbStep(n, k, Choose(n - 1, k - 1), Choose(n - 1, k), Choose(n - 1, k + 1));
    }
  }

  lemma AbsorbStep(n: int, k: int, x: int, y: int, z: int)
    requires (k + 1) * z == (n - 1 - k) * y
    requires k * y == (n - k) * x
    ensures (k + 1) * (y + z) == (n - k) * (x + y)
  {
    assert (k + 1) * (y + z) == (k + 1) * y + (n - 1 - k) * y;
    assert (k + 1) * y + (n - 1 - k) * y == n * y;
    assert (n - k) * (x + y) == k * y + (n - k) * y;
  }

  /** The recurrence agrees with the factorial formula. */
  lemma {:induction false} FactorialForm(n: nat, k: nat)
    requires k <= n
    ensures Choose(n, k) * (Factorial(k) * Factorial(n - k)) == Factorial(n)
    decreases k
  {
    if k == 0 {
      Ends(n);
    } else {
      FactorialForm(n, k - 1);
      Absorb(n, k - 1);
      FactorialStep(n, k, Choose(n, k), Choose(n, k - 1), Factorial(k - 1), Factorial(n - k));
    }
  }

  lemma FactorialStep(n: int, k: int, c: int, c': int, f: int, g: int)
    requires k * c == (n - k + 1) * c'
    ensures c * ((k * f) * g) == c' * (f * ((n - k + 1) * g))
  {
    var h := f * g;
    assert (k * f) * g == k * h;
    assert f * ((n - k + 1) * g) == (n - k + 1) * h;
    assert c * (k * h) == (k * c) * h;
    assert c' * ((n - k + 1) * h) == ((n - k + 1) * c') * h;
  }
}
