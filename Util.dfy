/** Small shared definitions. */
module Util {

  /** A value that may be absent (a JavaScript variable holding null or undefined). */
  datatype Option<T> = None | Some(value: T)

  function Min(a: real, b: real): real { if a <= b then a else b }

  function Max(a: real, b: real): real { if a <= b then b else a }

  /** `x` lies between `a` and `b`, in whichever order they come. */
  predicate Between(a: real, x: real, b: real) {
    Min(a, b) <= x <= Max(a, b)
  }

  /** `x` is a whole number. */
  predicate IsWhole(x: real) {
    x.Floor as real == x
  }

  // ---------------------------------------------------------------------------
  // Small facts of real arithmetic, stated once so that larger proofs need not
  // rediscover them

  lemma MulMono(b: real, x: real, y: real)
    requires b >= 0.0 && x <= y
    ensures b * x <= b * y
  {
    var d := y - x;
    assert b * y - b * x == b * d;
    assert b * d >= 0.0;
  }

  lemma MulStrict(b: real, x: real, y: real)
    requires b > 0.0 && x < y
    ensures b * x < b * y
  {
    var d := y - x;
    assert b * y - b * x == b * d;
    assert b * d > 0.0;
  }

  lemma AtLeastOnce(b: real, k: real)
    requires b > 0.0 && k >= 1.0
    ensures b * k >= b
  {
    MulMono(b, 1.0, k);
  }

  lemma DivMul(x: real, b: real)
    requires b > 0.0
    ensures b * (x / b) == x
  {
  }

  lemma MulDiv(b: real, k: real)
    requires b > 0.0
    ensures (b * k) / b == k
  {
  }

  /** Division by a positive number distributes over a sum. */
  lemma DivAdd(x: real, y: real, b: real)
    requires b > 0.0
    ensures (x + y) / b == x / b + y / b
  {
    DivMul(x, b);
    DivMul(y, b);
    DivMul(x + y, b);
    assert b * (x / b + y / b) == b * (x / b) + b * (y / b);
    MulDiv(b, x / b + y / b);
  }

  /** Dividing by a positive number keeps the sign and the comparison with the divisor. */
  lemma DivFacts(x: real, b: real)
    requires b > 0.0
    ensures x / b >= 1.0 <==> x >= b
    ensures x >= 0.0 ==> x / b >= 0.0
  {
    var q := x / b;
    DivMul(x, b);
    assert b * q == x;
    assert b * 1.0 == b && b * 0.0 == 0.0;
    if q >= 1.0 {
      MulMono(b, 1.0, q);
      assert x >= b;
    }
    if x >= b {
      if q < 1.0 {
        MulStrict(b, q, 1.0);
        assert false;
      }
    }
    if x >= 0.0 {
      if q < 0.0 {
        MulStrict(b, q, 0.0);
        assert false;
      }
    }
  }
}
