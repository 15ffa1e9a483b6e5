/** Facts about whole-number multiplication and division that the solver does not find on its own. */
module Arith {

  lemma MulMonotone(x: int, y: int, d: int)
    requires x <= y && d >= 0
    ensures x * d <= y * d
  {
    assert (y - x) * d >= 0;
  }

  /** From q * d below (k + 1) * d to q <= k. */
  lemma QuotientAtMost(q: int, k: int, d: int)
    requires d > 0 && q * d < (k + 1) * d
    ensures q <= k
  {
    if q > k {
      MulMonotone(k + 1, q, d);
    }
  }

  /** Floor division is the largest q with q * d <= a. */
  lemma QuotientBounds(a: int, d: int)
    requires d > 0
    ensures (a / d) * d <= a < (a / d + 1) * d
  {
    assert a == d * (a / d) + a % d;
  }

  /** The quotient of a by d is the one number q with q * d <= a < (q + 1) * d. */
  lemma QuotientUnique(a: int, d: int, q: int)
    requires d > 0 && q * d <= a < (q + 1) * d
    ensures a / d == q
  {
    QuotientBounds(a, d);
    QuotientAtMost(q, a / d, d);
    QuotientAtMost(a / d, q, d);
  }

  lemma DivMonotone(a: int, b: int, d: int)
    requires d > 0 && a <= b
    ensures a / d <= b / d
  {
    QuotientBounds(a, d);
    QuotientBounds(b, d);
    QuotientAtMost(a / d, b / d, d);
  }

  /** Dividing by something at least as large gives something no larger. */
  lemma DivAntitone(a: nat, d: nat, e: nat)
    requires 0 < d <= e
    ensures 0 <= a / e <= a / d
  {
    QuotientSign(a, e);
    var p, q := a / d, a / e;
    QuotientBounds(a, d);
    QuotientBounds(a, e);
    MulMonotone(d, e, p + 1);
    assert (p + 1) * d == d * (p + 1) && (p + 1) * e == e * (p + 1);
    QuotientAtMost(q, p, e);
  }

  lemma QuotientOfSum(q: int, d: int, r: int)
    requires 0 <= r < d
    ensures (q * d + r) / d == q
  {
    assert (q + 1) * d == q * d + d;
    QuotientUnique(q * d + r, d, q);
  }

  lemma QuotientSign(a: int, d: int)
    requires d > 0
    ensures a / d >= 0 <==> a >= 0
  {
    QuotientBounds(a, d);
    if a >= 0 {
      QuotientAtMost(0, a / d, d);
    } else {
      QuotientAtMost(a / d, -1, d);
    }
  }

  /** A common factor cancels. */
  lemma DivCancel(a: int, b: int, k: int)
    requires b > 0 && k > 0
    ensures k * b > 0 && (k * a) / (k * b) == a / b
  {
    QuotientBounds(a, b);
    var q := a / b;
    MulMonotone(1, b, k);
    MulMonotone(q * b, a, k);
    MulMonotone(a + 1, (q + 1) * b, k);
    assert q * (k * b) == (q * b) * k;
    assert (q + 1) * (k * b) == ((q + 1) * b) * k;
    QuotientUnique(k * a, k * b, q);
  }

  /** Whole multiples of the modulus do not matter. */
  lemma ModShift(a: int, k: int, m: int)
    requires m > 0
    ensures (a + k * m) % m == a % m
  {
    QuotientBounds(a, m);
    var q := a / m;
    assert (q + k) * m == q * m + k * m && (q + k + 1) * m == (q + 1) * m + k * m;
    QuotientUnique(a + k * m, m, q + k);
    assert a == m * q + a % m;
    assert a + k * m == m * (q + k) + (a + k * m) % m;
    assert m * (q + k) == m * q + k * m;
  }
}
