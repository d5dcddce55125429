/** Facts about floor division and products that the pricing formulas rest on. */
module Arithmetic {

  /** Floor division is the largest multiple that fits. */
  lemma Floor(a: int, c: int)
    requires c > 0
    ensures c * (a / c) <= a < c * (a / c) + c
  {
  }

  lemma MulMono(a: int, b: int, c: int)
    requires a <= b && c >= 0
    ensures a * c <= b * c && c * a <= c * b
  {
  }

  lemma MulPositive(a: int, b: int)
    requires a > 0 && b > 0
    ensures a * b > 0
  {
  }

  lemma Cancel(a: int, b: int, c: int)
    requires a * c <= b * c && c > 0
    ensures a <= b
  {
  }

  lemma CancelStrict(a: int, b: int, c: int)
    requires a * c < b * c && c > 0
    ensures a < b
  {
    if a >= b {
      MulMono(b, a, c);
    }
  }

  /** `a / c` is at least any `q` with `q * c <= a`. */
  lemma FloorAtLeast(q: int, a: int, c: int)
    requires c > 0 && q * c <= a
    ensures q <= a / c
  {
    Floor(a, c);
    if q >= a / c + 1 {
      MulMono(a / c + 1, q, c);
    }
  }

  /** `a / c` is at most any `q` with `a < (q + 1) * c`. */
  lemma FloorAtMost(q: int, a: int, c: int)
    requires c > 0 && a < (q + 1) * c
    ensures a / c <= q
  {
    Floor(a, c);
    if a / c >= q + 1 {
      MulMono(q + 1, a / c, c);
    }
  }

  lemma FloorNonNegative(a: int, c: int)
    requires a >= 0 && c > 0
    ensures a / c >= 0
  {
    FloorAtLeast(0, a, c);
  }

  /** Shares of a total: `part * value / whole` lies between 0 and `value`. */
  lemma FloorShare(part: int, value: int, whole: int)
    requires 0 <= part <= whole && value >= 0 && whole > 0
    ensures 0 <= part * value / whole <= value
  {
    MulMono(part, whole, value);
    MulMono(0, part, value);
    FloorNonNegative(part * value, whole);
    Floor(part * value, whole);
    FloorAtMost(value, part * value, whole);
  }

  lemma FloorMono(a: int, b: int, c: int)
    requires a <= b && c > 0
    ensures a / c <= b / c
  {
    Floor(a, c);
    FloorAtLeast(a / c, b, c);
  }

  /** Comparing fractions: `b/a <= d/c` and `d/c <= f/e` give `b/a <= f/e`. */
  lemma FractionTransitive(a: int, b: int, c: int, d: int, e: int, f: int)
    requires c > 0 && a >= 0 && e >= 0
    requires b * c <= d * a && d * e <= f * c
    ensures b * e <= f * a
  {
    calc {
      (b * e) * c;
    == (b * c) * e;
    <= { MulMono(b * c, d * a, e); }
      (d * a) * e;
    == (d * e) * a;
    <= { MulMono(d * e, f * c, a); }
      (f * c) * a;
    == (f * a) * c;
    }
    Cancel(b * e, f * a, c);
  }
}
