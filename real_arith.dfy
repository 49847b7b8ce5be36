/** Math.abs, Math.max and the few facts about products and quotients of reals that the
    scoring proofs use. Each product fact is stated for four (or three) separate factors,
    so that callers instantiate it without any further nonlinear reasoning. */
module RealArith {

  function Abs(x: real): (r: real)
    ensures 0.0 <= r && (r == x || r == -x)
  {
    if x < 0.0 then -x else x
  }

  function Max(a: real, b: real): (r: real)
    ensures a <= r && b <= r && (r == a || r == b)
  {
    if a < b then b else a
  }

  lemma MulLe(a: real, b: real, c: real, d: real)
    requires 0.0 <= a <= c && 0.0 <= b <= d
    ensures a * b <= c * d
  {
    assert a * b <= c * b;
    assert c * b <= c * d;
  }

  lemma MulLt(a: real, b: real, c: real, d: real)
    requires 0.0 <= a < c && 0.0 <= b < d
    ensures a * b < c * d
  {
    assert a * b <= c * b;
    assert c * b < c * d;
  }

  lemma MulLtScaled(a: real, c: real, b: real)
    requires a < c && 0.0 < b
    ensures a * b < c * b
  {
  }

  /** For a positive divisor, comparing the quotient with k is comparing the dividend
      with k times the divisor. */
  lemma QuotientAtLeast(x: real, y: real, k: real)
    requires 0.0 <= x && 0.0 < y && 0.0 <= k
    ensures x / y >= k <==> x >= k * y
  {
    var q := x / y;
    assert q * y == x;
    if q >= k {
      MulLe(k, y, q, y);
    } else {
      MulLtScaled(q, k, y);
    }
  }

  lemma QuotientAtMost(x: real, y: real, k: real)
    requires 0.0 <= x && 0.0 < y && 0.0 <= k
    ensures x / y <= k <==> x <= k * y
  {
    var q := x / y;
    assert q * y == x;
    if q <= k {
      MulLe(q, y, k, y);
    } else {
      MulLtScaled(k, q, y);
    }
  }

  lemma QuotientNonNegative(x: real, y: real)
    requires 0.0 <= x && 0.0 < y
    ensures 0.0 <= x / y
  {
  }

  lemma QuotientMonotone(x: real, z: real, y: real)
    requires x <= z && 0.0 < y
    ensures x / y <= z / y
  {
    var p, q := x / y, z / y;
    assert p * y == x;
    assert q * y == z;
    if q < p {
      MulLtScaled(q, p, y);
    }
  }
}
