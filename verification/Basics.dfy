/** Scalars shared by every other module: exact reals stand for the source's `f64`. */
module Basics {

  datatype Option<+T> = None | Some(value: T) {
    function GetOr(default: T): T {
      match this
      case None => default
      case Some(v) => v
    }
  }

  function Min(a: real, b: real): real {
    if a <= b then a else b
  }

  function Max(a: real, b: real): real {
    if a >= b then a else b
  }

  function Abs(a: real): real {
    if a >= 0.0 then a else -a
  }

  function Floor(x: real): real {
    x.Floor as real
  }

  function Ceil(x: real): real {
    -((-x).Floor as real)
  }

  /** Round half away from zero, as `f64::round` does. */
  function Round(x: real): real {
    if x >= 0.0 then Floor(x + 0.5) else -Floor(0.5 - x)
  }

  ghost predicate Whole(x: real) {
    x == Floor(x)
  }

  /** Dollars for `size` tokens at `price` each. */
  function Cost(size: real, price: real): real {
    size * price
  }

  lemma CostPositive(size: real, price: real)
    requires size > 0.0 && price > 0.0
    ensures Cost(size, price) > 0.0
  {
  }

  lemma CostMonotone(size: real, price: real, size': real, price': real)
    requires 0.0 <= size <= size' && 0.0 <= price <= price'
    ensures 0.0 <= Cost(size, price) <= Cost(size', price')
  {
    MulLe(size, size', price);
    MulLe(price, price', size');
  }

  lemma CostSplits(size: real, a: real, b: real)
    ensures Cost(size, a + b) == Cost(size, a) + Cost(size, b)
  {
  }

  const U64_MAX: nat := 0xFFFF_FFFF_FFFF_FFFF

  function SatAdd(a: nat, b: nat): nat {
    if a + b <= U64_MAX then a + b else U64_MAX
  }

  function SatSub(a: nat, b: nat): nat {
    if a >= b then a - b else 0
  }

  lemma MulLe(a: real, b: real, c: real)
    requires a <= b && 0.0 <= c
    ensures a * c <= b * c
  {
  }

  lemma MulLt(a: real, b: real, c: real)
    requires a < b && 0.0 < c
    ensures a * c < b * c
  {
  }

  lemma MulPos(a: real, b: real)
    requires 0.0 < a && 0.0 < b
    ensures 0.0 < a * b
  {
  }

  lemma MulSub(a: real, b: real, c: real)
    ensures (a - b) * c == a * c - b * c
  {
  }

  lemma DivMul(x: real, y: real)
    requires y != 0.0
    ensures x / y * y == x
  {
  }

  lemma FloorGreatest(x: real, k: int)
    requires k as real <= x
    ensures k as real <= Floor(x)
  {
    assert k < x.Floor + 1;
  }

  /** `Floor(budget / price)` is a whole count whose cost fits in the budget. */
  lemma FloorFits(budget: real, price: real)
    requires price > 0.0
    ensures Whole(Floor(budget / price))
    ensures Floor(budget / price) * price <= budget
  {
    var x := budget / price;
    DivMul(budget, price);
    MulLe(Floor(x), x, price);
  }

  /** ... and it is the greatest such count. */
  lemma FloorFitsMost(budget: real, price: real, k: int)
    requires price > 0.0
    requires k as real * price <= budget
    ensures k as real <= Floor(budget / price)
  {
    var x := budget / price;
    DivMul(budget, price);
    if k as real > x {
      MulLt(x, k as real, price);
    }
    FloorGreatest(x, k);
  }

  lemma CeilBounds(x: real)
    ensures Whole(Ceil(x))
    ensures x <= Ceil(x) < x + 1.0
  {
    var c := -((-x).Floor);
    assert Ceil(x) == c as real;
    assert (c as real).Floor == c;
  }

  /** `Ceil(x)` is the least whole number that is at least `x`. */
  lemma CeilLeast(x: real, k: int)
    ensures k as real >= Ceil(x) <==> k as real >= x
  {
    var c := -((-x).Floor);
    CeilBounds(x);
    assert Ceil(x) == c as real;
    if k < c {
      assert k as real <= c as real - 1.0;
    } else {
      assert k as real >= c as real;
    }
  }

  /** A whole count covers a dollar minimum exactly when it reaches the rounded-up quotient. */
  lemma CeilCovers(minimum: real, price: real, k: int)
    requires price > 0.0
    ensures k as real >= Ceil(minimum / price) <==> k as real * price >= minimum
  {
    DivMul(minimum, price);
    CeilLeast(minimum / price, k);
    ScaleOrder(k as real, minimum / price, price);
  }

  lemma ScaleOrder(a: real, b: real, c: real)
    requires c > 0.0
    ensures a >= b <==> a * c >= b * c
  {
    if a >= b { MulLe(b, a, c); } else { MulLt(a, b, c); }
  }
}
