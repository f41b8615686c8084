/** Facts about products and quotients of real numbers. */
module RealFacts {

  lemma ProductPositive(a: real, b: real)
    requires a > 0.0 && b > 0.0
    ensures a * b > 0.0
  {
  }

  lemma ProductGrows(x: real, y: real, b: real)
    requires x <= y && b >= 0.0
    ensures x * b <= y * b
  {
  }

  lemma QuotientPositive(a: real, b: real)
    requires a >= 0.0 && b > 0.0
    ensures a / b >= 0.0
    ensures a > 0.0 ==> a / b > 0.0
  {
    assert (a / b) * b == a;
  }

  /** Multiplying compares with the factor as the multiplier compares with one. */
  lemma Scale(q: real, b: real)
    requires 0.0 < b
    ensures q < 0.0 ==> q * b < 0.0
    ensures q < 1.0 ==> q * b < b
    ensures q > 1.0 ==> q * b > b
    ensures q == 1.0 ==> q * b == b
  {
    if q < 0.0 {
      ProductPositive(-q, b);
    }
    if q < 1.0 {
      ProductPositive(1.0 - q, b);
    }
    if q > 1.0 {
      ProductPositive(q - 1.0, b);
    }
  }

  /** A quotient compares with one as its parts compare. */
  lemma QuotientBound(a: real, b: real)
    requires 0.0 <= a && 0.0 < b
    ensures a / b >= 0.0
    ensures a / b <= 1.0 <==> a <= b
    ensures a / b == 1.0 <==> a == b
  {
    var q := a / b;
    assert q * b == a;
    Scale(q, b);
  }

  lemma QuotientAdds(a: real, b: real, total: real)
    requires total > 0.0
    ensures a / total + b / total == (a + b) / total
  {
  }

  /** Of two reciprocals the one of the smaller number is larger. */
  lemma ReciprocalFalls(x: real, a: real, y: real, b: real)
    requires 0.0 < a < b && x > 0.0 && y > 0.0 && x * a == 1.0 && y * b == 1.0
    ensures x > y
  {
    ProductPositive(x, b - a);
    if x <= y {
      ProductGrows(x, y, b);
    }
  }

  lemma ScaleCompares(x: real, y: real, b: real)
    requires b > 0.0
    ensures x < y <==> x * b < y * b
    ensures x == y <==> x * b == y * b
  {
    if x < y {
      ProductPositive(y - x, b);
    } else if x > y {
      ProductPositive(x - y, b);
    }
  }

  /** Quotients compare as their cross products do. */
  lemma QuotientsCompare(a: real, x: real, b: real, y: real)
    requires x > 0.0 && y > 0.0
    ensures a / x < b / y <==> a * y < b * x
    ensures a / x == b / y <==> a * y == b * x
  {
    var p, q := a / x, b / y;
    ProductPositive(x, y);
    ScaleCompares(p, q, x * y);
    assert p * (x * y) == (p * x) * y == a * y;
    assert q * (x * y) == (q * y) * x == b * x;
  }

  lemma QuotientGrows(a: real, b: real, total: real)
    requires a < b && total > 0.0
    ensures a / total < b / total
  {
    ScaleCompares(a, b, total);
    QuotientsCompare(a, total, b, total);
  }

  /** A larger number has a larger logarithm. */
  ghost predicate LogarithmRises(log: real -> real) {
    forall a, b :: 1.0 <= a < b ==> log(a) < log(b)
  }

  /** The smoothed odds of missing fall with the number that match. */
  lemma OddsFall(n: real, a: real, b: real)
    requires 0.0 <= a < b <= n
    ensures (n - a + 0.5) / (a + 0.5) > (n - b + 0.5) / (b + 0.5) > 0.0
  {
    QuotientPositive(n - b + 0.5, b + 0.5);
    QuotientsCompare(n - b + 0.5, b + 0.5, n - a + 0.5, a + 0.5);
    ProductPositive(n + 1.0, b - a);
    assert (n - a + 0.5) * (b + 0.5) - (n - b + 0.5) * (a + 0.5) == (n + 1.0) * (b - a);
  }
}
