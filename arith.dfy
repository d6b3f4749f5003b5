/** Small facts about integer multiplication and division that the solver
    does not find on its own; the grid arithmetic below rests on them. */
module Arith {

  function Min(a: int, b: int): int
  {
    if a <= b then a else b
  }

  /** Multiplying by a non-negative factor keeps the order. */
  lemma MulMonotone(a: int, b: int, t: int)
    requires a <= b && t >= 0
    ensures a * t <= b * t
  {
    assert b * t - a * t == (b - a) * t;
  }

  /** A positive factor can be cancelled. */
  lemma MulCancel(a: int, b: int, t: int)
    requires t > 0
    ensures a * t == b * t <==> a == b
  {
    if a < b {
      MulMonotone(a + 1, b, t);
    } else if b < a {
      MulMonotone(b + 1, a, t);
    }
  }

  /** Quotient and remainder are determined by any decomposition
      `c == q * t + r` with `0 <= r < t`. */
  lemma DivModUnique(c: int, t: int, q: int, r: int)
    requires t > 0 && 0 <= r < t && c == q * t + r
    ensures c / t == q && c % t == r
  {
    var q', r' := c / t, c % t;
    assert c == q' * t + r';
    if q' < q {
      MulMonotone(q' + 1, q, t);
    } else if q < q' {
      MulMonotone(q + 1, q', t);
    }
  }

  /** Dividing something below `b * c` by `b` gives something below `c`. */
  lemma DivBelow(a: int, b: int, c: int)
    requires b > 0 && 0 <= a < b * c
    ensures 0 <= a / b < c
  {
    if a / b >= c {
      MulMonotone(c, a / b, b);
    }
  }

  /** `p * t + x` stays below `g * t` when `p < g` and `x < t`. */
  lemma ScaledBelow(p: int, g: int, t: int, x: int)
    requires 0 <= p < g && t > 0 && 0 <= x < t
    ensures 0 <= p * t + x < g * t
  {
    MulMonotone(0, p, t);
    MulMonotone(p + 1, g, t);
  }

  /** Quotient and remainder recompose the dividend. */
  lemma DivModSplit(n: int, a: int)
    requires a > 0
    ensures n == a * (n / a) + n % a && 0 <= n % a < a
  {
  }

  /** The two low mixed-radix digits of `n` and its remaining quotient
      recompose `n`. */
  lemma DigitsRecompose(n: int, a: int, b: int)
    requires n >= 0 && a > 0 && b > 0
    ensures n == n % a + a * ((n / a) % b + b * (n / a / b))
  {
    var q := n / a;
    DivModSplit(n, a);
    DivModSplit(q, b);
  }

  /** The top digit of `n` is below `c` exactly when `n` is below `a * b * c`. */
  lemma TopDigitBelow(n: int, a: int, b: int, c: int)
    requires n >= 0 && a > 0 && b > 0 && c > 0
    ensures n < a * b * c <==> n / a / b < c
  {
    var q := n / a;
    DivModSplit(n, a);
    DivModSplit(q, b);
    assert a * b * c == a * (b * c);
    if n < a * (b * c) {
      DivBelow(n, a, b * c);
      DivBelow(q, b, c);
    } else if q / b < c {
      MulMonotone(q / b, c - 1, b);
      assert q <= b * c - 1;
      MulMonotone(q, b * c - 1, a);
      assert false;
    }
  }
}
