/** Signs and comparisons of products and quotients of reals. */
module Products {
  function Square(x: real): real {
    x * x
  }

  function Times(x: real, y: real): real {
    x * y
  }

  lemma Positive(x: real, y: real)
    requires x > 0.0 && y > 0.0
    ensures x * y > 0.0
  {
  }

  lemma Negatives(x: real, y: real)
    requires x < 0.0 && y < 0.0
    ensures x * y > 0.0
  {
  }

  lemma NonNegativeProduct(x: real, y: real)
    requires x >= 0.0 && y >= 0.0
    ensures x * y >= 0.0
  {
  }

  lemma Monotone(x: real, y: real, s: real)
    requires x >= y && s >= 0.0
    ensures x * s >= y * s
  {
    NonNegativeProduct(x - y, s);
  }

  lemma Quotient(p: real, d: real, x: real)
    requires d > 0.0
    ensures (p / d < x <==> p < x * d) && (p / d > x <==> p > x * d) && (p / d == x <==> p == x * d)
  {
    var y := p / d;
    assert p == y * d;
    if y < x {
      Positive(x - y, d);
    } else if y > x {
      Positive(y - x, d);
    }
  }

  lemma Scale(n: real, x: real, y: real)
    requires n > 0.0
    ensures (n * x < n * y <==> x < y) && (n * x > n * y <==> x > y)
  {
    if x < y {
      Positive(n, y - x);
    } else if x > y {
      Positive(n, x - y);
    }
  }

  lemma SquareVanishes(d: real)
    ensures Square(d) >= 0.0 && (d != 0.0 ==> Square(d) > 0.0) && (d == 0.0 ==> Square(d) == 0.0)
  {
    hide Square;
    if d == 0.0 {
      SquareOfZero();
    } else {
      SquareIsPositive(d);
    }
  }

  lemma SquareOfZero()
    ensures Square(0.0) == 0.0
  {
  }

  lemma SquareIsPositive(d: real)
    requires d != 0.0
    ensures Square(d) > 0.0
  {
    hide Square, Times;
    SquareIsTimes(d);
    if d > 0.0 {
      TimesIsPositive(d, d);
    } else {
      TimesOfNegatives(d, d);
    }
  }

  lemma SquareIsTimes(d: real)
    ensures Square(d) == Times(d, d)
  {
  }

  lemma TimesIsPositive(x: real, y: real)
    requires x > 0.0 && y > 0.0
    ensures Times(x, y) > 0.0
  {
  }

  lemma TimesOfNegatives(x: real, y: real)
    requires x < 0.0 && y < 0.0
    ensures Times(x, y) > 0.0
  {
  }

  /** The sign of a product of two sums. */
  lemma Signs(d: real, p: real, u: real, q: real, v: real)
    requires p > 0.0 && q >= 0.0 && ((d > 0.0 && u > 0.0 && v >= 0.0) || (d < 0.0 && u < 0.0 && v <= 0.0))
    ensures d * (p * u + q * v) > 0.0
  {
    if d > 0.0 {
      Positive(p, u);
      NonNegativeProduct(q, v);
      Positive(d, p * u + q * v);
    } else {
      Positive(p, -u);
      NonNegativeProduct(q, -v);
      assert p * u + q * v < 0.0;
      Negatives(d, p * u + q * v);
    }
  }

  lemma PositiveFactor(n: real, x: real)
    requires n > 0.0 && n * x > 0.0
    ensures x > 0.0
  {
  }

  lemma RealProduct(a: int, b: int)
    ensures (a * b) as real == (a as real) * (b as real)
  {
  }
}
