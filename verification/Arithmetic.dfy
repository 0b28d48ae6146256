/** Products and quotients of integers, one small fact at a time. */
module Arithmetic {

  lemma PositiveProduct(a: int, d: int)
    requires d > 0
    ensures a > 0 ==> a * d > 0
    ensures a <= 0 ==> a * d <= 0
  {
  }

  lemma ProductOrder(a: int, b: int, d: int)
    requires d > 0
    ensures a * d < b * d <==> a < b
    ensures (a + 1) * d == a * d + d
  {
    PositiveProduct(b - a, d);
    assert (b - a) * d == b * d - a * d;
  }

  lemma FloorUnique(x: int, d: int, q: int)
    requires d > 0
    ensures x / d == q <==> q * d <= x < (q + 1) * d
  {
    var p := x / d;
    ProductOrder(p, q, d);
    ProductOrder(q, p, d);
    ProductOrder(p, q + 1, d);
    ProductOrder(q, p + 1, d);
    assert p * d <= x < p * d + d;
  }

  lemma DivideOrdered(a: int, b: int, d: int)
    requires d > 0 && a <= b
    ensures a / d <= b / d
  {
    FloorUnique(a, d, a / d);
    FloorUnique(b, d, b / d);
    ProductOrder(a / d, b / d + 1, d);
  }

  lemma DivideBelow(a: int, d: int, m: int)
    requires d > 0 && 0 <= a && a < m * d
    ensures 0 <= a / d < m
  {
    DivideOrdered(0, a, d);
    FloorUnique(a, d, a / d);
    ProductOrder(a / d, m, d);
  }

  lemma Scale(a: int, b: int, c: int)
    requires a >= 0 && b <= c
    ensures a * b <= a * c
  {
    assert a * (c - b) == a * c - a * b;
  }

  lemma ScaledQuotient(a: int, b: int, c: int, d: int)
    requires a >= 0 && b <= c && d > 0
    ensures (a * b) / d <= (a * c) / d
  {
    Scale(a, b, c);
    DivideOrdered(a * b, a * c, d);
  }
}
