/** Division by a positive real, one fact at a time. */
module RealArithmetic {

  function Abs(x: real): real { if x < 0.0 then -x else x }

  lemma DivideThenMultiply(x: real, c: real)
    requires c > 0.0
    ensures x / c * c == x
  {
  }

  lemma ScaleUp(x: real, y: real, c: real)
    requires c > 0.0
    ensures x <= y <==> x * c <= y * c
  {
    if x <= y {
      assert (y - x) * c >= 0.0;
    } else {
      assert (x - y) * c > 0.0;
    }
  }

  /** Clearing a positive denominator from either side of an inequality. */
  lemma ClearDenominator(x: real, e: real, c: real)
    requires c > 0.0
    ensures x / c <= e <==> x <= e * c
    ensures e <= x / c <==> e * c <= x
  {
    var q := x / c;
    DivideThenMultiply(x, c);
    ScaleUp(q, e, c);
    ScaleUp(e, q, c);
  }

  lemma DivideSum(x: real, y: real, c: real)
    requires c > 0.0
    ensures (x + y) / c == x / c + y / c && (x - y) / c == x / c - y / c
  {
  }

  lemma DivideAbs(x: real, c: real)
    requires c > 0.0
    ensures Abs(x / c) == Abs(x) / c
  {
    ClearDenominator(x, 0.0, c);
    if x < 0.0 {
      DivideSum(0.0, x, c);
    }
  }

  lemma CancelFactor(x: real, m: real, c: real)
    requires m > 0.0 && c > 0.0
    ensures m / c * (x / m) == x / c
  {
    var q := x / m;
    DivideThenMultiply(x, m);
    assert q * m == x;
    assert m / c * q == (q * m) / c;
  }

  lemma SquareMonotone(x: real, y: real)
    requires 0.0 <= x <= y
    ensures x * x <= y * y
  {
    assert y * y - x * x == (y - x) * (y + x);
  }
}
