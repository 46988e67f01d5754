/**
 * Multiplication as an operation with named laws. Proofs that hide `Times` and call the laws are left
 * with linear arithmetic only.
 */
module Products {
  import opened Basics

  function Times(a: real, b: real): real {
    a * b
  }

  lemma Comm(a: real, b: real)
    ensures Times(a, b) == Times(b, a)
  {
  }

  lemma Distributes(a: real, b: real, c: real)
    ensures Times(a + b, c) == Times(a, c) + Times(b, c) && Times(c, a + b) == Times(c, a) + Times(c, b)
  {
  }

  lemma Subtract(a: real, b: real, c: real)
    ensures Times(a - b, c) == Times(a, c) - Times(b, c) && Times(c, a - b) == Times(c, a) - Times(c, b)
  {
  }

  lemma Assoc(a: real, b: real, c: real)
    ensures Times(Times(a, b), c) == Times(a, Times(b, c))
  {
  }

  lemma Unit(a: real)
    ensures Times(1.0, a) == a && Times(a, 1.0) == a && Times(0.0, a) == 0.0 && Times(a, 0.0) == 0.0
  {
  }

  lemma Negate(a: real, b: real)
    ensures Times(-a, b) == -Times(a, b) && Times(a, -b) == -Times(a, b)
  {
  }

  lemma Mono(a: real, b: real, c: real)
    requires a <= b && 0.0 <= c
    ensures Times(a, c) <= Times(b, c) && Times(c, a) <= Times(c, b)
  {
    MulLe(a, b, c);
  }

  lemma StrictMono(a: real, b: real, c: real)
    requires a < b && 0.0 < c
    ensures Times(a, c) < Times(b, c) && Times(c, a) < Times(c, b)
  {
    MulLt(a, b, c);
  }

  lemma NonNegative(a: real, b: real)
    requires a >= 0.0 && b >= 0.0
    ensures Times(a, b) >= 0.0
  {
    hide Times;
    Mono(0.0, a, b);
    Unit(b);
  }

  lemma Positive(a: real, b: real)
    requires a > 0.0 && b > 0.0
    ensures Times(a, b) > 0.0
  {
    hide Times;
    StrictMono(0.0, a, b);
    Unit(b);
  }

  lemma Divide(x: real, y: real)
    requires y != 0.0
    ensures Times(y, x / y) == x && Times(x / y, y) == x
  {
    DivMul(x, y);
  }

  lemma AbsProduct(x: real, y: real)
    ensures Abs(Times(x, y)) == Times(Abs(x), Abs(y))
  {
    hide Times;
    Negate(x, y);
    Negate(-x, y);
    if x >= 0.0 && y >= 0.0 { NonNegative(x, y); }
    if x >= 0.0 && y < 0.0 { NonNegative(x, -y); }
    if x < 0.0 && y >= 0.0 { NonNegative(-x, y); }
    if x < 0.0 && y < 0.0 { NonNegative(-x, -y); }
  }

  lemma AbsScaled(x: real, y: real, c: real)
    requires Abs(x) <= c && Abs(y) <= 1.0
    ensures Abs(Times(x, y)) <= c
  {
    hide Times;
    AbsProduct(x, y);
    Mono(Abs(y), 1.0, Abs(x));
    Unit(Abs(x));
  }

  lemma Square(d: real)
    ensures Times(d, d) == Times(Abs(d), Abs(d)) && Times(d, d) >= 0.0
  {
    hide Times;
    NonNegative(Abs(d), Abs(d));
    AbsProduct(d, d);
    Negate(d, d);
    Negate(-d, d);
  }
}
