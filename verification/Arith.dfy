/** Products and remainders, kept apart so that other proofs see few of them. */
module Arith {
  lemma Distribute(a: int, b: int, w: int)
    ensures (a + b) * w == a * w + b * w
  {
  }

  lemma ProductBelow(a: int, b: int, w: int)
    requires w > 0 && a < b
    ensures a * w < b * w
    ensures a * w <= b * w - w
  {
    Distribute(a, b - a - 1, w);
    Distribute(b - 1, 1, w);
    NonNegative(b - a - 1, w);
  }

  lemma NonNegative(a: int, b: int)
    requires a >= 0 && b >= 0
    ensures a * b >= 0
  {
  }

  lemma SameProduct(a: int, b: int, w: int)
    requires w > 0 && a * w == b * w
    ensures a == b
  {
    if a < b { ProductBelow(a, b, w); }
    if a > b { ProductBelow(b, a, w); }
  }

  lemma DivideExactly(x: int, w: int)
    requires w > 0 && x % w == 0
    ensures x == (x / w) * w
  {
  }

  lemma MultipleRemainder(k: int, w: int)
    requires w > 0
    ensures (k * w) % w == 0
  {
    var x := k * w;
    var q, r := x / w, x % w;
    assert x == q * w + r;
    Distribute(k - q, q, w);
    if k - q > 0 { ProductBelow(0, k - q, w); }
    if k - q < 0 { ProductBelow(k - q, 0, w); }
  }

  lemma MultipleAbove(x: int, k: int, w: int)
    requires w > 0 && x % w == 0 && x - k * w > -w
    ensures x - k * w >= 0
  {
    DivideExactly(x, w);
    var q := x / w;
    if q < k { ProductBelow(q, k, w); }
  }
}
