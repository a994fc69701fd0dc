/**
 Small facts about products and squares of reals. Products are kept behind
 `Sq` and `Mul` so that the facts apply wherever the same terms occur.
 */
module RealArith {

  function Sq(a: real): real { a * a }

  function Mul(a: real, b: real): real { a * b }

  lemma MulPositive(a: real, b: real)
    requires a > 0.0 && b > 0.0
    ensures Mul(a, b) > 0.0
  {}

  lemma MulNonNegative(a: real, b: real)
    requires a >= 0.0 && b >= 0.0
    ensures Mul(a, b) >= 0.0
  {}

  lemma SquarePositive(a: real)
    requires a != 0.0
    ensures Sq(a) > 0.0
  {
    if a < 0.0 {
      MulPositive(-a, -a);
      assert Sq(a) == Mul(-a, -a);
    } else {
      MulPositive(a, a);
      assert Sq(a) == Mul(a, a);
    }
  }

  lemma SquareNonNegative(a: real)
    ensures Sq(a) >= 0.0
  {
    if a != 0.0 {
      SquarePositive(a);
    }
  }

  /** For non-negative values, comparing squares is comparing the values. */
  lemma SquareMonotone(a: real, b: real)
    requires a >= 0.0 && b >= 0.0
    ensures a > b <==> Sq(a) > Sq(b)
  {
    assert Sq(a) - Sq(b) == Mul(a - b, a + b);
    if a > b {
      MulPositive(a - b, a + b);
    } else {
      MulNonNegative(b - a, a + b);
      assert Mul(b - a, a + b) == -Mul(a - b, a + b);
    }
  }

  lemma SquareRootUnique(m: real, a: real)
    requires m >= 0.0 && a >= 0.0 && Sq(m) == Sq(a)
    ensures m == a
  {
    SquareMonotone(m, a);
    SquareMonotone(a, m);
  }

  lemma QuotientSquared(a: real, m: real)
    requires m != 0.0
    ensures Sq(m) != 0.0
    ensures Sq(a / m) == Sq(a) / Sq(m)
  {
    SquarePositive(m);
    assert (a / m) * m == a;
    assert Sq(a / m) * Sq(m) == ((a / m) * m) * ((a / m) * m);
  }

  lemma MulDivCancel(c: real, d: real)
    requires d != 0.0
    ensures Mul(c, d) / d == c
  {
    var q := Mul(c, d) / d;
    assert q * d == Mul(c, d);
    assert (q - c) * d == 0.0;
  }

  /** Dividing by `m`, scaling twice and multiplying back by `m` leaves the two scale factors on `a`. */
  lemma StepTimesLength(a: real, m: real, o: real, s: real)
    requires m != 0.0
    ensures Mul(Mul(Mul(a / m, o), s), m) == Mul(a, Mul(o, s))
  {
    assert (a / m) * m == a;
    assert Mul(Mul(Mul(a / m, o), s), m) == ((a / m) * m) * (o * s);
  }
}
