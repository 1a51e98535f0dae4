/** Powers, squares and maxima, as several components need them. */
module Arithmetic {
  function Pow(b: int, e: nat): int { if e == 0 then 1 else b * Pow(b, e - 1) }

  function Max(x: real, y: real): real { if x < y then y else x }

  lemma {:induction false} PowPositive(b: int, e: nat)
    requires b >= 1
    ensures Pow(b, e) >= 1
  {
    if e > 0 {
      PowPositive(b, e - 1);
    }
  }

  function Square(x: real): (r: real)
    ensures r >= 0.0
  {
    x * x
  }

  function Product(x: real, y: real): real {
    x * y
  }

  lemma SquareIsZero(x: real)
    ensures Square(x) == 0.0 <==> x == 0.0
  {
    if x != 0.0 {
      assert x * x / x == x;
    }
  }

  // m added up n times.
  function Multiple(n: nat, m: real): real {
    if n == 0 then 0.0 else m + Multiple(n - 1, m)
  }

  lemma {:induction false} MultipleIsProduct(n: nat, m: real)
    ensures Multiple(n, m) == n as real * m
  {
    if n > 0 {
      MultipleIsProduct(n - 1, m);
      var x := (n - 1) as real;
      assert n as real == x + 1.0;
      assert (x + 1.0) * m == x * m + m;
    }
  }

  lemma QuotientVersus(x: real, d: real, c: real)
    requires d > 0.0
    ensures x / d < c <==> x < c * d
    ensures x / d == c <==> x == c * d
  {
    var q := x / d;
    assert q * d == x;
    if q < c {
      ProductPositive(c - q, d);
      assert (c - q) * d == c * d - x;
    } else if q > c {
      ProductPositive(q - c, d);
      assert (q - c) * d == x - c * d;
    }
  }

  lemma ProductPositive(a: real, b: real)
    requires a > 0.0 && b > 0.0
    ensures a * b > 0.0
  {
  }
}
