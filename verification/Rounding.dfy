/** Decimal rounding as `round(x, places)` does it: to the nearest multiple of the
    unit, halfway cases to the even one. */
module Rounding {
  import opened Basics

  const FOUR_PLACES: real := 0.0001
  const SIX_PLACES: real := 0.000001

  function HalfEven(q: real): int {
    var f := q.Floor;
    var rest := q - f as real;
    if rest < 0.5 || (rest == 0.5 && f % 2 == 0) then f else f + 1
  }

  function RoundTo(x: real, unit: real): real
    requires unit > 0.0
  {
    LotQty(HalfEven(x / unit), unit)
  }

  lemma {:induction false} HalfEvenNear(q: real)
    ensures q - 0.5 <= HalfEven(q) as real <= q + 0.5
  {
  }

  lemma {:induction false} HalfEvenMono(q: real, p: real)
    requires q <= p
    ensures HalfEven(q) <= HalfEven(p)
  {
    HalfEvenNear(q);
    HalfEvenNear(p);
  }

  lemma {:induction false} HalfEvenWhole(n: int)
    ensures HalfEven(n as real) == n
  {
  }

  /** The error is at most half a unit. */
  lemma {:induction false} RoundNear(x: real, unit: real)
    requires unit > 0.0
    ensures x - unit / 2.0 <= RoundTo(x, unit) <= x + unit / 2.0
  {
    var q := x / unit;
    DivMul(x, unit);
    HalfEvenNear(q);
    Bracket(HalfEven(q) as real, q, unit, x);
  }

  lemma {:induction false} Bracket(n: real, q: real, unit: real, x: real)
    requires unit > 0.0 && q * unit == x && q - 0.5 <= n <= q + 0.5
    ensures x - unit / 2.0 <= n * unit <= x + unit / 2.0
  {
    var nu, qu := n * unit, q * unit;
    ProductAbove(n + 0.5, q, unit, nu + unit / 2.0, qu);
    ProductAbove(q, n - 0.5, unit, qu, nu - unit / 2.0);
  }

  lemma {:induction false} RoundMono(x: real, y: real, unit: real)
    requires unit > 0.0 && x <= y
    ensures RoundTo(x, unit) <= RoundTo(y, unit)
  {
    DivMono(x, y, unit);
    HalfEvenMono(x / unit, y / unit);
    LotQtyMono(HalfEven(x / unit), HalfEven(y / unit), unit);
  }

  /** A rounded value rounds to itself. */
  lemma {:induction false} RoundTwice(x: real, unit: real)
    requires unit > 0.0
    ensures RoundTo(RoundTo(x, unit), unit) == RoundTo(x, unit)
  {
    var n := HalfEven(x / unit);
    DivMul(n as real, unit);
    assert RoundTo(x, unit) / unit == n as real;
    HalfEvenWhole(n);
  }

  lemma {:induction false} RoundZero(unit: real)
    requires unit > 0.0
    ensures RoundTo(0.0, unit) == 0.0
  {
    DivMul(0.0, unit);
    assert 0.0 / unit == 0 as real;
    HalfEvenWhole(0);
    assert LotQty(0, unit) == 0.0;
  }
}
