/** Vocabulary shared by the model: sides, legs, optional values and the lot
    arithmetic that the exit engine, the sizer and the slicer all rely on. */
module Basics {
  type Symbol = string

  datatype Option<+T> = None | Some(value: T)

  datatype Side = Buy | Sell

  datatype Leg = India | Forex | Crypto

  function Closing(direction: Side): Side {
    if direction.Buy? then Sell else Buy
  }

  function Signed(side: Side, qty: real): real {
    if side.Buy? then qty else -qty
  }

  function Min(a: real, b: real): real {
    if a <= b then a else b
  }

  function Max(a: real, b: real): real {
    if a >= b then a else b
  }

  function Abs(a: real): real {
    if a >= 0.0 then a else -a
  }

  /** n lots as a quantity. */
  function LotQty(n: int, lot: real): real {
    n as real * lot
  }

  /** `math.floor(x / lot) * lot`, the executable part of a quantity. */
  function FloorLot(x: real, lot: real): real
    requires lot > 0.0
  {
    LotQty((x / lot).Floor, lot)
  }

  /** x is a whole number of lots. */
  predicate IsLots(x: real, lot: real)
    requires lot > 0.0
  {
    FloorLot(x, lot) == x
  }

  lemma {:induction false} MulMono(a: real, b: real, c: real)
    requires a <= b && c >= 0.0
    ensures a * c <= b * c
  {
    assert (b - a) * c >= 0.0;
  }

  lemma {:induction false} MulMonoStrict(a: real, b: real, c: real)
    requires a < b && c > 0.0
    ensures a * c < b * c
  {
    assert (b - a) * c > 0.0;
  }

  lemma {:induction false} Distribute(a: real, b: real, c: real)
    ensures (a + b) * c == a * c + b * c
    ensures (a - b) * c == a * c - b * c
  {
  }

  lemma {:induction false} DivMul(a: real, c: real)
    requires c != 0.0
    ensures a / c * c == a
    ensures a * c / c == a
  {
  }

  lemma {:induction false} DivMono(a: real, b: real, c: real)
    requires a <= b && c > 0.0
    ensures a / c <= b / c
  {
    DivMul(a, c);
    DivMul(b, c);
    if a / c > b / c {
      MulMonoStrict(b / c, a / c, c);
      assert false;
    }
  }

  lemma {:induction false} LotsOf(n: int, lot: real)
    requires lot > 0.0
    ensures IsLots(LotQty(n, lot), lot)
    ensures (LotQty(n, lot) / lot).Floor == n
  {
    DivMul(n as real, lot);
    assert LotQty(n, lot) / lot == n as real;
  }

  lemma {:induction false} LotQtyMono(m: int, n: int, lot: real)
    requires lot > 0.0
    ensures m <= n <==> LotQty(m, lot) <= LotQty(n, lot)
    ensures m == n <==> LotQty(m, lot) == LotQty(n, lot)
  {
    if m < n {
      MulMonoStrict(m as real, n as real, lot);
    } else if n < m {
      MulMonoStrict(n as real, m as real, lot);
    }
  }

  lemma {:induction false} LotQtySum(m: int, n: int, lot: real)
    ensures LotQty(m + n, lot) == LotQty(m, lot) + LotQty(n, lot)
    ensures LotQty(m - n, lot) == LotQty(m, lot) - LotQty(n, lot)
  {
    assert (m + n) as real == m as real + n as real;
    assert (m - n) as real == m as real - n as real;
  }

  /** Lots are counted by the floor of a quotient: aq and qx are the two products. */
  lemma {:induction false} ProductBracket(a: real, q: real, lot: real, aq: real, qx: real)
    requires lot > 0.0 && a <= q < a + 1.0 && aq == a * lot && qx == q * lot
    ensures aq <= qx < aq + lot
  {
    ProductAbove(q, a, lot, qx, aq);
    ProductBelow(q, a, lot, qx, aq);
  }

  lemma {:induction false} ProductAbove(q: real, a: real, lot: real, qx: real, aq: real)
    requires lot > 0.0 && a <= q && aq == a * lot && qx == q * lot
    ensures aq <= qx
  {
    var d := q - a;
    assert d * lot >= 0.0;
    assert d * lot == q * lot - a * lot;
  }

  lemma {:induction false} ProductBelow(q: real, a: real, lot: real, qx: real, aq: real)
    requires lot > 0.0 && q < a + 1.0 && aq == a * lot && qx == q * lot
    ensures qx < aq + lot
  {
    var d := a + 1.0 - q;
    assert d * lot > 0.0;
    assert d * lot == (a + 1.0) * lot - q * lot;
  }

  /** FloorLot is the largest lot multiple not above x. */
  lemma {:induction false} FloorLotIsGreatest(x: real, lot: real)
    requires lot > 0.0
    ensures IsLots(FloorLot(x, lot), lot)
    ensures FloorLot(x, lot) <= x < FloorLot(x, lot) + lot
    ensures forall y :: IsLots(y, lot) && y <= x ==> y <= FloorLot(x, lot)
  {
    var n := (x / lot).Floor;
    LotsOf(n, lot);
    DivMul(x, lot);
    ProductBracket(n as real, x / lot, lot, LotQty(n, lot), x);
    forall y | IsLots(y, lot) && y <= x
      ensures y <= FloorLot(x, lot)
    {
      DivMono(y, x, lot);
      LotQtyMono((y / lot).Floor, n, lot);
    }
  }

  lemma {:induction false} FloorLotNonNegative(x: real, lot: real)
    requires lot > 0.0 && x >= 0.0
    ensures FloorLot(x, lot) >= 0.0
  {
    LotsOf(0, lot);
    FloorLotIsGreatest(x, lot);
    assert LotQty(0, lot) == 0.0;
  }
}
