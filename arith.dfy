/** Facts about products and quotients of naturals the solver does not find
    by itself. */
module Arith {
  lemma {:induction false} MulAtLeast(k: nat, d: nat)
    requires k >= 1
    ensures k * d >= d
  {
    if k > 1 {
      MulAtLeast(k - 1, d);
      assert k * d == (k - 1) * d + d;
    }
  }

  /** One more factor adds `d` to the product. */
  lemma MulSucc(k: int, d: int)
    ensures (k + 1) * d == k * d + d
  {
  }

  /** A strictly smaller factor gives a product smaller by at least `d`. */
  lemma MulStep(x: int, y: int, d: nat)
    ensures x < y ==> x * d + d <= y * d
  {
    if x < y {
      var k := y - x;
      MulAtLeast(k, d);
      assert y * d == x * d + k * d;
    }
  }

  /** Dividing by `n` a value at most `q * n` gives at most `q`. */
  lemma DivAtMost(a: nat, n: nat, q: nat)
    requires n > 0 && a <= q * n
    ensures a / n <= q
  {
    assert a == a / n * n + a % n;
    MulStep(q, a / n, n);
  }

  /** Division by a positive `n` keeps the order of the dividends. */
  lemma DivMonotone(a: nat, b: nat, n: nat)
    requires n > 0 && a <= b
    ensures a / n <= b / n
  {
    assert a == a / n * n + a % n;
    assert b == b / n * n + b % n;
    MulStep(b / n, a / n, n);
  }

  /** The quotient of a natural by a positive `n` is the largest multiple of
      `n` at most the dividend. */
  lemma DivBounds(a: nat, n: nat)
    requires n > 0
    ensures 0 <= a / n * n <= a < a / n * n + n
  {
    assert a == a / n * n + a % n;
    if a / n >= 1 {
      MulAtLeast(a / n, n);
    }
  }
}
