/** Shared vocabulary of the model: optional values, results with a typed
    error, and the integer-division facts that the step counters need. */
module Common {

  /** A Python value that may be `None`. */
  datatype Option<+T> = None | Some(value: T)

  /** The outcome of an operation that can raise: a value, or the error raised. */
  datatype Result<+T, +E> = Success(value: T) | Failure(error: E)

  /** Python's `min` of two integers. */
  function Min(a: int, b: int): int { if a <= b then a else b }

  /** Python's `max` of two integers. */
  function Max(a: int, b: int): int { if a >= b then a else b }

  /** The number of multiples of `d` in `[0, a)`, that is `ceil(a / d)`. */
  function CeilDiv(a: nat, d: nat): nat
    requires d > 0
  {
    (a + d - 1) / d
  }

  /** Division and remainder of `q * d + r` when `r` is a proper remainder. */
  lemma DivModOf(q: nat, d: nat, r: nat)
    requires d > 0 && r < d
    ensures (q * d + r) / d == q && (q * d + r) % d == r
  {
    var n := q * d + r;
    var q', r' := n / d, n % d;
    assert n == q' * d + r' && 0 <= r' < d;
    var e := q - q';
    assert e * d == q * d - q' * d;
    assert e * d == r' - r;
  }

  /** `CeilDiv(i, d)` counts the `k < i` with `k % d == 0`: it grows exactly at those `i`. */
  lemma CeilDivStep(i: nat, d: nat)
    requires d > 0
    ensures CeilDiv(i + 1, d) == CeilDiv(i, d) + (if i % d == 0 then 1 else 0)
  {
    var q, r := i / d, i % d;
    assert i == q * d + r;
    if r == 0 {
      DivModOf(q, d, d - 1);
      assert i + d - 1 == q * d + (d - 1);
      DivModOf(q + 1, d, 0);
      assert i + d == (q + 1) * d + 0;
    } else {
      DivModOf(q + 1, d, r - 1);
      assert i + d - 1 == (q + 1) * d + (r - 1);
      DivModOf(q + 1, d, r);
      assert i + d == (q + 1) * d + r;
    }
  }

  /** `(i + 1) / d` counts the `k <= i` with `k % d == d - 1`: it grows exactly at those `i`. */
  lemma FloorDivStep(i: nat, d: nat)
    requires d > 0
    ensures (i + 1) / d == i / d + (if i % d == d - 1 then 1 else 0)
  {
    var q, r := i / d, i % d;
    assert i == q * d + r;
    if r == d - 1 {
      DivModOf(q + 1, d, 0);
      assert i + 1 == (q + 1) * d + 0;
    } else {
      DivModOf(q, d, r + 1);
      assert i + 1 == q * d + (r + 1);
    }
  }

  /** For positive `i`, the predecessor of `i` closes a group of `d` exactly when `i` opens one. */
  lemma PrevRemainder(i: nat, d: nat)
    requires d > 0 && i > 0
    ensures (i - 1) % d == d - 1 <==> i % d == 0
  {
    FloorDivStep(i - 1, d);
    var q, r := (i - 1) / d, (i - 1) % d;
    assert i - 1 == q * d + r;
    if r == d - 1 {
      DivModOf(q + 1, d, 0);
      assert i == (q + 1) * d + 0;
    } else {
      DivModOf(q, d, r + 1);
      assert i == q * d + (r + 1);
    }
  }

  /** `k` is below `CeilDiv(a, d)` exactly when the multiple `k * d` is below `a`. */
  lemma CeilDivBelow(a: nat, d: nat, k: nat)
    requires d > 0
    ensures k < CeilDiv(a, d) <==> k * d < a
  {
    var c := CeilDiv(a, d);
    var r := (a + d - 1) % d;
    assert a + d - 1 == c * d + r && 0 <= r < d;
    if k < c {
      assert k * d <= (c - 1) * d;
    } else {
      assert k * d >= c * d;
    }
  }

  /** `ceil(a / d)` is positive exactly when `a` is, and never exceeds `a`. */
  lemma {:induction false} CeilDivRange(a: nat, d: nat)
    requires d > 0
    ensures CeilDiv(a, d) > 0 <==> a > 0
    ensures CeilDiv(a, d) <= a
  {
    if a == 0 {
      DivModOf(0, d, d - 1);
      assert 0 * d + (d - 1) == 0 + d - 1;
    } else {
      CeilDivRange(a - 1, d);
      CeilDivStep(a - 1, d);
      DivModOf(0, d, 0);
      assert 0 * d + 0 == 0;
    }
  }

  /** `a / d` is the floor of the quotient: its multiple lies in `(a - d, a]`. */
  lemma FloorDivBounds(a: nat, d: nat)
    requires d > 0
    ensures a == (a / d) * d + a % d
    ensures (a / d) * d <= a < (a / d + 1) * d
  {
    assert (a / d + 1) * d == (a / d) * d + d;
  }

  /** The floor quotient is positive exactly when the divisor fits in the dividend. */
  lemma PositiveQuotient(a: nat, d: nat)
    requires d > 0
    ensures a / d > 0 <==> d <= a
  {
    FloorDivBounds(a, d);
    if a / d > 0 {
      assert (a / d) * d >= 1 * d;
    }
  }

  /** Taking one divisor's worth off a positive dividend lowers the ceiling by one, down to zero. */
  lemma CeilDivPeel(m: nat, d: nat)
    requires d > 0 && m > 0
    ensures CeilDiv(m, d) == (if m > d then CeilDiv(m - d, d) else 0) + 1
  {
    if m > d {
      var x := m - 1;
      var q, r := x / d, x % d;
      assert x == q * d + r;
      assert (q + 1) * d == q * d + d;
      DivModOf(q + 1, d, r);
      assert m + d - 1 == (q + 1) * d + r;
      assert (m - d) + d - 1 == x;
    } else {
      DivModOf(1, d, m - 1);
      assert m + d - 1 == 1 * d + (m - 1);
    }
  }

  /** Multiplying by a non-negative factor preserves order. */
  lemma ScaleOrder(p: real, x: real, y: real)
    requires p >= 0.0 && x <= y
    ensures p * x <= p * y
  {
    assert p * y - p * x == p * (y - x);
  }

  /** The product of two positive reals is positive. */
  lemma PositiveProduct(x: real, y: real)
    requires x > 0.0 && y > 0.0
    ensures x * y > 0.0
  {
  }

  /** The ratio of two positive reals is positive. */
  lemma PositiveRatio(x: real, y: real)
    requires x > 0.0 && y > 0.0
    ensures x / y > 0.0
  {
    var q := x / y;
    assert q * y == x;
    if q <= 0.0 {
      ScaleOrder(y, q, 0.0);
    }
  }

  /** A positive factor can be cancelled from both sides of an inequality. */
  lemma CancelOrder(a: real, b: real, p: real)
    requires p > 0.0 && a * p <= b * p
    ensures a <= b
  {
    assert (a - b) * p == a * p - b * p;
    if a > b {
      PositiveProduct(a - b, p);
    }
  }

  /** Dividing by a positive real preserves order, and keeps `[0, span]` inside `[0, 1]`. */
  lemma RatioOrder(x: real, y: real, span: real)
    requires 0.0 <= x <= y <= span && span > 0.0
    ensures 0.0 <= x / span <= y / span <= 1.0
  {
    var qx, qy := x / span, y / span;
    assert qx * span == x;
    assert qy * span == y;
    assert 0.0 * span == 0.0 && 1.0 * span == span;
    CancelOrder(0.0, qx, span);
    CancelOrder(qx, qy, span);
    CancelOrder(qy, 1.0, span);
  }

  /** `a * b / c`, as Python evaluates it left to right, is `a` times the ratio `b / c`. */
  lemma MulDivAssoc(a: real, b: real, c: real)
    requires c != 0.0
    ensures a * b / c == a * (b / c)
  {
    var q := b / c;
    assert q * c == b;
    assert (a * q) * c == a * b;
  }

  /** The mean of a total between `k * lo` and `k * hi` lies in `[lo, hi]`. */
  lemma MeanBounds(total: real, k: real, lo: real, hi: real)
    requires k > 0.0 && k * lo <= total <= k * hi
    ensures lo <= total / k <= hi
  {
    var m := total / k;
    assert m * k == total;
    assert (lo - m) * k == lo * k - total;
    assert (m - hi) * k == total - hi * k;
    if m < lo {
      PositiveProduct(lo - m, k);
    }
    if m > hi {
      PositiveProduct(m - hi, k);
    }
  }
}
