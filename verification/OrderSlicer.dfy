/** The TWAP slicer: a parent order split into lot-floored children capped by a
    share of expected volume, the remainder riding on the last child. */
module OrderSlicer {
  import opened Basics

  datatype Reason = InvalidQtyOrLot | InvalidAdv | BelowOneLot | SingleSlice | Twap

  datatype Plan = Plan(slices: seq<real>, n: int, participation: real, reason: Reason)

  datatype Request = Request(qty: real, adv: real, lot: real, maxParticipation: real, barFraction: real,
                             maxSlices: int)

  function Over(x: real, y: real): real
    requires y != 0.0
  {
    x / y
  }

  function Ceil(x: real): int {
    -(-x).Floor
  }

  function IntervalVolume(q: Request): real {
    q.adv * q.barFraction
  }

  function ExpectedShare(q: Request): real {
    IntervalVolume(q) * q.maxParticipation
  }

  /** The largest child: the participation share in whole lots, at least one lot. */
  function MaxChild(q: Request): real
    requires q.lot > 0.0
  {
    Max(q.lot, FloorLot(ExpectedShare(q), q.lot))
  }

  function Needed(q: Request): int
    requires q.lot > 0.0
  {
    var c := Ceil(Over(q.qty, MaxChild(q)));
    if c < 1 then 1 else c
  }

  function Count(q: Request): int
    requires q.lot > 0.0
  {
    if q.maxSlices < Needed(q) then q.maxSlices else Needed(q)
  }

  function Repeat(k: nat, x: real): seq<real> {
    seq(k, _ => x)
  }

  function Used(base: real, n: int): real {
    base * n as real
  }

  function Empty(reason: Reason): Plan {
    Plan([], 0, 0.0, reason)
  }

  /** `None` is the ZeroDivisionError of zero slices or a zero-length interval. */
  function PlanSlices(q: Request): Option<Plan> {
    if q.qty <= 0.0 || q.lot <= 0.0 then Some(Empty(InvalidQtyOrLot))
    else if q.adv <= 0.0 then Some(Empty(InvalidAdv))
    else
      var n := Count(q);
      var iv := IntervalVolume(q);
      if n == 0 then None
      else
        var base := FloorLot(Over(q.qty, n as real), q.lot);
        if base <= 0.0 then
          var whole := FloorLot(q.qty, q.lot);
          if whole <= 0.0 then Some(Empty(BelowOneLot))
          else if iv == 0.0 then None
          else Some(Plan([whole], 1, Over(whole, iv), SingleSlice))
        else if iv == 0.0 || n < 0 then None
        else
          var last := base + FloorLot(q.qty - Used(base, n), q.lot);
          Some(Plan(Repeat(n - 1, base) + [last], n, Over(if n == 1 then last else base, iv),
                    if n > 1 then Twap else SingleSlice))
  }

  // ---------- what a plan adds up to ----------

  function Sum(xs: seq<real>): real {
    if xs == [] then 0.0 else Sum(xs[..|xs| - 1]) + xs[|xs| - 1]
  }

  lemma {:induction false} SumOfEqual(k: nat, x: real)
    ensures Sum(Repeat(k, x)) == k as real * x
  {
    if k > 0 {
      var xs := Repeat(k, x);
      assert xs[..k - 1] == Repeat(k - 1, x);
      SumOfEqual(k - 1, x);
      Distribute((k - 1) as real, 1.0, x);
    }
  }

  /** A request the slicer serves. */
  predicate Served(q: Request) {
    && q.lot > 0.0 && q.adv > 0.0 && q.barFraction > 0.0 && q.maxSlices >= 1
    && FloorLot(q.qty, q.lot) > 0.0
  }

  /** Whole lots in the parent. */
  function Lots(q: Request): int
    requires q.lot > 0.0
  {
    Over(q.qty, q.lot).Floor
  }

  lemma {:induction false} TimesMono(x: int, y: int, n: int)
    requires x <= y && n >= 0
    ensures x * n <= y * n
  {
  }

  lemma {:induction false} QuotientIs(f: int, b: int, n: int)
    requires n >= 1 && b * n <= f < b * n + n
    ensures f / n == b
  {
    var k := f / n;
    if k > b {
      TimesMono(b + 1, k, n);
    } else if k < b {
      TimesMono(k + 1, b, n);
    }
  }

  lemma {:induction false} RealProduct(b: int, n: int)
    ensures LotQty(b, n as real) == (b * n) as real
  {
  }

  lemma {:induction false} DivideFloor(x: real, n: int)
    requires n >= 1
    ensures (x / n as real).Floor == x.Floor / n
  {
    var y := x / n as real;
    DivMul(x, n as real);
    FloorLotIsGreatest(x, n as real);
    RealProduct(y.Floor, n);
    QuotientIs(x.Floor, y.Floor, n);
  }

  lemma {:induction false} BaseLots(q: Request, n: int)
    requires q.lot > 0.0 && n >= 1
    ensures FloorLot(Over(q.qty, n as real), q.lot) == LotQty(Lots(q) / n, q.lot)
  {
    var a, b := q.qty / n as real / q.lot, q.qty / q.lot / n as real;
    SwapDivisors(q.qty, n as real, q.lot);
    DivideFloor(q.qty / q.lot, n);
  }

  lemma {:induction false} SwapDivisors(x: real, y: real, z: real)
    requires y != 0.0 && z != 0.0
    ensures x / y / z == x / z / y
  {
    var a, b := x / y, x / z;
    DivMul(x, y);
    DivMul(x, z);
    DivMul(a, z);
    DivMul(b, y);
    var p, r := a / z, b / y;
    assert p * z * y == x && r * y * z == x;
    assert (p - r) * (y * z) == 0.0;
    NonZeroProduct(y, z);
  }

  lemma {:induction false} NonZeroProduct(y: real, z: real)
    requires y != 0.0 && z != 0.0
    ensures y * z != 0.0
  {
  }

  lemma {:induction false} RemainderLots(q: Request, k: int)
    requires q.lot > 0.0
    ensures FloorLot(q.qty - LotQty(k, q.lot), q.lot) == LotQty(Lots(q) - k, q.lot)
  {
    var x := q.qty / q.lot;
    DivMul(k as real, q.lot);
    assert (q.qty - LotQty(k, q.lot)) / q.lot == x - k as real;
    assert (x - k as real).Floor == x.Floor - k;
  }

  /** The served branches of the plan. */
  lemma {:induction false} PlanShape(q: Request)
    requires Served(q)
    ensures Count(q) >= 1 && PlanSlices(q).Some?
    ensures var n, p := Count(q), PlanSlices(q).value;
            var base := FloorLot(Over(q.qty, n as real), q.lot);
            if base <= 0.0 then p.slices == [FloorLot(q.qty, q.lot)] && p.n == 1
            else p.n == n && p.slices == Repeat(n - 1, base) + [base + FloorLot(q.qty - Used(base, n), q.lot)]
  {
    IntervalPositive(q);
    QtyPositive(q);
  }

  /** The plan in lots: n - 1 children of Lots / n, the last with Lots % n more - or
      one child when that would round to nothing. */
  lemma {:induction false} PlanInLots(q: Request)
    requires Served(q)
    ensures var n, all := Count(q), Lots(q);
            && n >= 1 && all >= 1 && PlanSlices(q).Some?
            && var p := PlanSlices(q).value;
               if all / n == 0 then p.slices == [LotQty(all, q.lot)] && p.n == 1
               else p.n == n && p.slices == Repeat(n - 1, LotQty(all / n, q.lot))
                                            + [LotQty(all / n, q.lot) + LotQty(all % n, q.lot)]
  {
    var n, all := Count(q), Lots(q);
    PlanShape(q);
    LotQtyMono(all, 0, q.lot);
    BaseLots(q, n);
    LotQtyMono(all / n, 0, q.lot);
    assert LotQty(0, q.lot) == 0.0;
    if all / n > 0 {
      TimesLots(all / n, n, q.lot);
      RemainderLots(q, all / n * n);
      assert all - all / n * n == all % n;
      var base, slices := FloorLot(Over(q.qty, n as real), q.lot), PlanSlices(q).value.slices;
      assert base == LotQty(all / n, q.lot) && slices[n - 1] == base + LotQty(all % n, q.lot);
    }
  }

  lemma {:induction false} QtyPositive(q: Request)
    requires Served(q)
    ensures q.qty > 0.0
  {
    FloorLotIsGreatest(q.qty, q.lot);
  }

  lemma {:induction false} IntervalPositive(q: Request)
    requires Served(q)
    ensures IntervalVolume(q) > 0.0
  {
    MulMonoStrict(0.0, q.adv, q.barFraction);
  }

  lemma {:induction false} TimesLots(k: int, n: int, lot: real)
    ensures Used(LotQty(k, lot), n) == LotQty(k * n, lot)
  {
    assert (k * n) as real == k as real * n as real;
  }

  /** For every request of at least one lot the children are positive lot multiples
      and add up to exactly the executable quantity; all but the last are equal,
      and the last exceeds them by at most n - 1 lots. */
  lemma {:induction false} SlicesConserveTheParent(q: Request)
    requires Served(q)
    ensures PlanSlices(q).Some?
    ensures var p := PlanSlices(q).value;
            && Sum(p.slices) == FloorLot(q.qty, q.lot)
            && |p.slices| == p.n && 1 <= p.n <= q.maxSlices
            && (forall i :: 0 <= i < p.n ==> p.slices[i] > 0.0 && IsLots(p.slices[i], q.lot))
            && (forall i :: 0 <= i < p.n - 1 ==> p.slices[i] == p.slices[0])
            && (p.n > 1 ==> 0.0 <= p.slices[p.n - 1] - p.slices[0] <= LotQty(p.n - 1, q.lot))
  {
    PlanInLots(q);
    var n, all, p := Count(q), Lots(q), PlanSlices(q).value;
    assert FloorLot(q.qty, q.lot) == LotQty(all, q.lot);
    if all / n == 0 {
      LotsOf(all, q.lot);
      assert p.slices[..0] == [];
    } else {
      EvenSlices(q.lot, n, all / n, all % n, p.slices);
      assert all / n * n + all % n == all;
    }
  }

  /** n - 1 children of b lots and one of b + rest. */
  lemma {:induction false} EvenSlices(lot: real, n: int, b: int, rest: int, slices: seq<real>)
    requires lot > 0.0 && n >= 1 && b >= 1 && 0 <= rest < n
    requires slices == Repeat(n - 1, LotQty(b, lot)) + [LotQty(b, lot) + LotQty(rest, lot)]
    ensures Sum(slices) == LotQty(b * n + rest, lot)
    ensures forall i :: 0 <= i < n ==> slices[i] > 0.0 && IsLots(slices[i], lot)
    ensures 0.0 <= slices[n - 1] - LotQty(b, lot) <= LotQty(n - 1, lot)
  {
    LotsOf(b, lot);
    LotQtySum(b, rest, lot);
    LotsOf(b + rest, lot);
    LotQtyMono(b, 0, lot);
    LotQtyMono(b + rest, 0, lot);
    LotQtyMono(0, rest, lot);
    LotQtyMono(rest, n - 1, lot);
    assert LotQty(0, lot) == 0.0;
    assert slices[..n - 1] == Repeat(n - 1, LotQty(b, lot));
    SumOfEqual(n - 1, LotQty(b, lot));
    TimesLots(b, n - 1, lot);
    LotQtySum(b * (n - 1), b + rest, lot);
    assert b * (n - 1) + (b + rest) == b * n + rest;
  }

  /** When max_slices does not bind, the equal children stay within the
      participation cap. */
  lemma {:induction false} EqualSlicesWithinCap(q: Request, i: nat)
    requires Served(q) && Needed(q) <= q.maxSlices
    requires PlanSlices(q).Some? && i + 1 < |PlanSlices(q).value.slices|
    ensures PlanSlices(q).value.slices[i] <= MaxChild(q)
  {
    PlanInLots(q);
    var n, all := Count(q), Lots(q);
    LotsWithinCap(q);
    BaseLots(q, n);
    FloorLotIsGreatest(Over(q.qty, n as real), q.lot);
  }

  lemma {:induction false} LotsWithinCap(q: Request)
    requires Served(q) && Needed(q) <= q.maxSlices
    ensures Over(q.qty, Count(q) as real) <= MaxChild(q)
  {
    ShareWithin(q.qty, Count(q) as real, MaxChild(q));
  }

  lemma {:induction false} ShareWithin(x: real, n: real, c: real)
    requires n > 0.0 && c > 0.0 && Over(x, c) <= n
    ensures Over(x, n) <= c
  {
    var y, z := x / c, x / n;
    DivMul(x, c);
    DivMul(x, n);
    MulMono(y, n, c);
    if z > c {
      MulMonoStrict(c, z, n);
    }
  }

  /** A cap of whole lots: the last child is within it exactly when the quotient
      and the remainder of the parent's lots by n together are - the single child
      included, which is what goes out when the quotient is 0. */
  lemma {:induction false} LastSliceWithinCapIff(q: Request, cap: int)
    requires Served(q) && MaxChild(q) == LotQty(cap, q.lot)
    ensures PlanSlices(q).Some?
    ensures var p := PlanSlices(q).value;
            && |p.slices| > 0
            && (p.slices[|p.slices| - 1] <= MaxChild(q) <==> Lots(q) / Count(q) + Lots(q) % Count(q) <= cap)
  {
    PlanInLots(q);
    LotQtySum(Lots(q) / Count(q), Lots(q) % Count(q), q.lot);
    LotQtyMono(Lots(q) / Count(q) + Lots(q) % Count(q), cap, q.lot);
    if Lots(q) / Count(q) == 0 {
      assert Lots(q) % Count(q) == Lots(q);
    }
  }

  /** It need not be: 29 lots under a cap of 10 go out as 9, 9 and 11. */
  lemma {:induction false} LastSliceCanExceedTheCap()
    ensures exists q: Request :: Served(q) && Needed(q) <= q.maxSlices && PlanSlices(q).Some?
                                 && |PlanSlices(q).value.slices| == 3
                                 && PlanSlices(q).value.slices[2] > MaxChild(q)
  {
    var q := Request(29.0, 200.0, 1.0, 0.5, 0.1, 20);
    assert IntervalVolume(q) == 20.0 && ExpectedShare(q) == 10.0;
    assert (10.0 / 1.0).Floor == 10 && MaxChild(q) == 10.0;
    assert (29.0 / 1.0).Floor == 29 && FloorLot(q.qty, q.lot) == 29.0 && Lots(q) == 29;
    assert (-(29.0 / 10.0)).Floor == -3 && Needed(q) == 3 && Count(q) == 3;
    PlanInLots(q);
    assert LotQty(9, 1.0) == 9.0 && LotQty(2, 1.0) == 2.0;
  }

  /** No child is planned exactly for an invalid request or one below a lot, and the
      division by zero is met exactly with no slices allowed or an interval of no
      length. */
  lemma {:induction false} NoPlanIff(q: Request)
    ensures PlanSlices(q).Some? && PlanSlices(q).value.slices == []
            <==> q.qty <= 0.0 || q.lot <= 0.0 || q.adv <= 0.0 || (q.maxSlices != 0 && q.qty < q.lot)
    ensures PlanSlices(q).None?
            <==> q.qty > 0.0 && q.lot > 0.0 && q.adv > 0.0
                 && (q.maxSlices == 0 || (q.qty >= q.lot && q.barFraction == 0.0))
  {
    if q.qty > 0.0 && q.lot > 0.0 && q.adv > 0.0 && q.maxSlices != 0 {
      var n := Count(q);
      BaseIsPositiveIff(q, n);
      IntervalIsZeroIff(q);
    }
  }

  /** The equal children are of at least a lot only if the whole request is, and only
      for a positive count. */
  lemma {:induction false} BaseIsPositiveIff(q: Request, n: int)
    requires q.qty > 0.0 && q.lot > 0.0 && n != 0
    ensures FloorLot(q.qty, q.lot) > 0.0 <==> q.qty >= q.lot
    ensures FloorLot(Over(q.qty, n as real), q.lot) > 0.0 ==> n > 0 && q.qty >= q.lot
  {
    var y := Over(q.qty, n as real);
    assert LotQty(1, q.lot) == q.lot;
    LotsOf(1, q.lot);
    FloorLotIsGreatest(q.qty, q.lot);
    FloorLotIsGreatest(y, q.lot);
    LotQtyMono((q.qty / q.lot).Floor, 0, q.lot);
    LotQtyMono(1, (q.qty / q.lot).Floor, q.lot);
    assert LotQty(0, q.lot) == 0.0;
    DivMul(q.qty, n as real);
    if y > 0.0 {
      ShrinksByDivision(q.qty, n as real, y);
      LotQtyMono((y / q.lot).Floor, 0, q.lot);
      LotQtyMono(1, (y / q.lot).Floor, q.lot);
    }
  }

  lemma {:induction false} ShrinksByDivision(x: real, n: real, y: real)
    requires x > 0.0 && y > 0.0 && x == y * n && n.Floor as real == n
    ensures n > 0.0 && y <= x
  {
    if n <= 0.0 {
      MulMono(n, 0.0, y);
      assert false;
    }
    MulMono(1.0, n, y);
  }

  lemma {:induction false} IntervalIsZeroIff(q: Request)
    requires q.adv > 0.0
    ensures IntervalVolume(q) == 0.0 <==> q.barFraction == 0.0
  {
    if q.barFraction != 0.0 {
      NonZeroProduct(q.adv, q.barFraction);
    }
  }

  // ---------- the plan in terms of the request ----------

  /** The cap on a child: the whole lots in the participation share of one interval's
      volume, but at least one lot. */
  ghost predicate IsCap(q: Request, c: real) {
    var share := q.adv * q.barFraction * q.maxParticipation;
    if share < q.lot then c == q.lot else exists k: int :: c == LotQty(k, q.lot) && c <= share < c + q.lot
  }

  /** The number of children: the fewest of at most c each, at most max_slices. */
  predicate IsCount(q: Request, c: real, n: int) {
    && 1 <= n <= q.maxSlices
    && (n < q.maxSlices ==> q.qty <= LotQty(n, c))
    && (n > 1 ==> LotQty(n - 1, c) < q.qty)
  }

  /** n children of the requested whole lots, the remainder on the last; one child
      where the quotient is 0. */
  predicate AreSlices(q: Request, n: int, lots: int, slices: seq<real>)
    requires n >= 1
  {
    var each, rest := lots / n, lots % n;
    && LotQty(lots, q.lot) <= q.qty < LotQty(lots + 1, q.lot)
    && (each == 0 ==> slices == [LotQty(lots, q.lot)])
    && (each != 0 ==> |slices| == n
                      && (forall i :: 0 <= i < n - 1 ==> slices[i] == LotQty(each, q.lot))
                      && slices[n - 1] == LotQty(each + rest, q.lot))
  }

  lemma {:induction false} CapIs(q: Request)
    requires q.lot > 0.0
    ensures IsCap(q, MaxChild(q))
  {
    var share := ExpectedShare(q);
    FloorLotIsGreatest(share, q.lot);
    LotsOf(1, q.lot);
    assert LotQty(1, q.lot) == q.lot;
    if share >= q.lot {
      var c, k := FloorLot(share, q.lot), (share / q.lot).Floor;
      assert q.lot <= c && c == LotQty(k, q.lot);
    }
  }

  lemma {:induction false} CeilIs(x: real, y: real, z: real, n: int)
    requires y > 0.0 && z * y == x && n == Ceil(z)
    ensures LotQty(n - 1, y) < x <= LotQty(n, y)
  {
    assert (n - 1) as real < z <= n as real;
    MulMono(z, n as real, y);
    MulMonoStrict((n - 1) as real, z, y);
  }

  lemma {:induction false} CountIs(q: Request)
    requires Served(q)
    ensures MaxChild(q) > 0.0 && IsCount(q, MaxChild(q), Count(q))
  {
    QtyPositive(q);
    var c, z := MaxChild(q), Over(q.qty, MaxChild(q));
    DivMul(q.qty, c);
    CeilIs(q.qty, c, z, Ceil(z));
    LotQtyMono(Ceil(z), 0, c);
    assert LotQty(0, c) == 0.0;
    LotQtyMono(q.maxSlices - 1, Ceil(z) - 1, c);
  }

  lemma {:induction false} SlicesAre(q: Request)
    requires Served(q)
    ensures Count(q) >= 1 && PlanSlices(q).Some?
    ensures var p := PlanSlices(q).value;
            AreSlices(q, Count(q), Lots(q), p.slices) && p.n == |p.slices| > 0
  {
    var n, all := Count(q), Lots(q);
    PlanInLots(q);
    FloorLotIsGreatest(q.qty, q.lot);
    assert FloorLot(q.qty, q.lot) == LotQty(all, q.lot);
    LotQtySum(all, 1, q.lot);
    assert LotQty(1, q.lot) == q.lot;
    LotQtySum(all / n, all % n, q.lot);
  }

  lemma {:induction false} ParticipationIs(q: Request)
    requires Served(q)
    ensures PlanSlices(q).Some? && PlanSlices(q).value.slices != []
    ensures var p := PlanSlices(q).value;
            && p.participation * (q.adv * q.barFraction) == p.slices[0]
            && p.reason == if p.n > 1 then Twap else SingleSlice
  {
    IntervalPositive(q);
    QtyPositive(q);
    PlanShape(q);
    var n := Count(q);
    var base := FloorLot(Over(q.qty, n as real), q.lot);
    var last := base + FloorLot(q.qty - Used(base, n), q.lot);
    DivMul(FloorLot(q.qty, q.lot), IntervalVolume(q));
    DivMul(base, IntervalVolume(q));
    DivMul(last, IntervalVolume(q));
  }

  /** Every request of at least one lot is planned in its cap, its count and its whole
      lots; the participation is the first child's share of the interval's volume. */
  lemma {:induction false} PlanRule(q: Request) returns (c: real, n: int, lots: int)
    requires Served(q)
    ensures IsCap(q, c) && IsCount(q, c, n)
    ensures PlanSlices(q).Some?
    ensures var p := PlanSlices(q).value;
            && AreSlices(q, n, lots, p.slices) && p.n == |p.slices| > 0
            && p.participation * (q.adv * q.barFraction) == p.slices[0]
            && p.reason == if p.n > 1 then Twap else SingleSlice
  {
    c, n, lots := MaxChild(q), Count(q), Lots(q);
    CapIs(q);
    CountIs(q);
    SlicesAre(q);
    ParticipationIs(q);
  }
}
