// Small failure-carrying wrappers shared by the battle engine model.
module Common {

  datatype Option<T> = None | Some(value: T)

  /** A value, or the exception the Python code would raise instead. */
  datatype Result<T, E> = Ok(value: T) | Err(error: E)

  /** Success of a procedure that returns nothing, or the exception it raised. */
  datatype Outcome<E> = Pass | Fail(error: E)

  function Max(a: int, b: int): int { if a >= b then a else b }

  function Min(a: int, b: int): int { if a <= b then a else b }

  lemma MulMonotone(d: int, x: int, y: int)
    requires d >= 0
    ensures x <= y ==> d * x <= d * y
  {
    assert d * y - d * x == d * (y - x);
  }

  /** Floor division by a positive number is monotone in the dividend. */
  lemma DivMonotone(a: int, b: int, d: int)
    requires a <= b && d > 0
    ensures a / d <= b / d
  {
    var qa, qb := a / d, b / d;
    assert d * qa + a % d == a && 0 <= a % d;
    assert d * qb + b % d == b && b % d < d;
    MulMonotone(d, qb + 1, qa);
    assert d * (qb + 1) == d * qb + d;
  }

  /** Dividing a non-negative number by more never gives more. */
  lemma DivLargerDenominator(a: int, d: int)
    requires a >= 0 && d > 0
    ensures a / (d + 1) <= a / d
  {
    var q1, q0 := a / (d + 1), a / d;
    assert (d + 1) * q1 + a % (d + 1) == a && 0 <= a % (d + 1);
    assert d * q0 + a % d == a && a % d < d;
    assert q1 >= 0;
    assert (d + 1) * q1 == d * q1 + q1;
    MulMonotone(d, q0 + 1, q1);
    assert d * (q0 + 1) == d * q0 + d;
  }

  lemma MulDivCancel(v: int, k: int)
    requires k > 0
    ensures v * k / k == v
  {
    var q := v * k / k;
    assert k * q + (v * k) % k == v * k && 0 <= (v * k) % k < k;
    assert k * (v - q) == v * k - k * q;
    MulMonotone(k, 1, v - q);
    MulMonotone(k, v - q, -1);
  }

  lemma ConcatAssociative<T>(a: seq<T>, b: seq<T>, c: seq<T>)
    ensures (a + b) + c == a + (b + c)
  {
  }
}
