/** What a sensible configuration buys: the ladder never sells the whole position
    and no level of a bar is below zero, so that over whole runs a managing bar
    meets its condition as soon as its partials can be carried out. */
module ConfiguredLadder {
  import opened Basics
  import opened PaperBroker
  import opened StopAdapters
  import opened Ledger
  import opened BookFacts
  import opened ExitEngine
  import opened Agreement
  import opened BarWindows
  import opened TradeRun

  /** The ladder never sells the whole position. */
  predicate Sensible(cfg: Config) {
    0.0 <= Pct(cfg, 0) && 0.0 <= Pct(cfg, 1) && Pct(cfg, 0) + Pct(cfg, 1) < 100.0
  }

  /** Trails are not negative and a lock does not overshoot its trigger. */
  predicate Mild(cfg: Config) {
    && (forall k :: k in cfg.kTrailByRegime ==> cfg.kTrailByRegime[k] >= 0.0)
    && (cfg.profitLock.Some? ==>
          cfg.profitLock.value.trailK >= 0.0 && cfg.profitLock.value.lockR <= cfg.profitLock.value.atR)
  }

  /** How much the ladder has sold at most, by phase. */
  function SoldAtMost(cfg: Config, p: Position): real
    requires p.lot > 0.0
  {
    match p.phase
    case RiskOn => 0.0
    case Breakeven => Carve(p, Pct(cfg, 0))
    case _ => Carve(p, Pct(cfg, 0)) + Carve(p, Pct(cfg, 1))
  }

  /** The ladder has sold no more than its rungs. */
  predicate RoomLeft(cfg: Config, p: Position)
    requires p.lot > 0.0
  {
    p.remaining >= p.qty - SoldAtMost(cfg, p)
  }

  // ---------- sizes ----------

  lemma {:induction false} PercentNonNegative(q: real, x: real)
    requires q > 0.0 && x >= 0.0
    ensures PercentOf(q, x) >= 0.0
  {
    MulMono(0.0, x, q);
  }

  lemma {:induction false} PercentSum(q: real, x: real, y: real)
    requires q > 0.0 && x >= 0.0 && y >= 0.0 && x + y < 100.0
    ensures PercentOf(q, x) >= 0.0 && PercentOf(q, y) >= 0.0
    ensures PercentOf(q, x) + PercentOf(q, y) < q
  {
    PercentNonNegative(q, x);
    PercentNonNegative(q, y);
    var sum := x + y;
    Distribute(x, y, q);
    MulMonoStrict(sum, 100.0, q);
  }

  lemma {:induction false} LadderLeavesSome(cfg: Config, p: Position)
    requires Sensible(cfg) && p.lot > 0.0 && p.qty > 0.0
    ensures 0.0 <= Carve(p, Pct(cfg, 0)) && 0.0 <= Carve(p, Pct(cfg, 1))
    ensures Carve(p, Pct(cfg, 0)) + Carve(p, Pct(cfg, 1)) < p.qty
  {
    PercentSum(p.qty, Pct(cfg, 0), Pct(cfg, 1));
    var x, y := PercentOf(p.qty, Pct(cfg, 0)), PercentOf(p.qty, Pct(cfg, 1));
    FloorLotIsGreatest(x, p.lot);
    FloorLotIsGreatest(y, p.lot);
    FloorLotNonNegative(x, p.lot);
    FloorLotNonNegative(y, p.lot);
  }

  lemma {:induction false} RungFits(cfg: Config, p: Position)
    requires Sensible(cfg) && Sized(p) && RoomLeft(cfg, p)
    ensures 0.0 <= Carve(p, Pct(cfg, 0)) && 0.0 <= Carve(p, Pct(cfg, 1))
    ensures p.phase == RiskOn ==> Carve(p, Pct(cfg, 0)) < p.remaining
    ensures p.phase == Breakeven ==> Carve(p, Pct(cfg, 1)) < p.remaining
  {
    LadderLeavesSome(cfg, p);
  }

  /** What a sale that keeps the agreement leaves of the position. */
  lemma {:induction false} SaleShape(m: Market, w: World, atR: real, c: real, start: real)
    requires Agreed(w, start) && Placeable(w.pos.leg, w.pos.stop) && SaleOk(w.book, w.pos, c)
    ensures var r := TakeQty(m, w, atR, c);
            && r.w.pos.remaining == (if c > 0.0 && r.Done? then w.pos.remaining - c else w.pos.remaining)
            && r.w.pos.phase == w.pos.phase
  {
    if Raises(w.book, w.pos, c) {
      RefusedSale(m, w, atR, c, start);
    } else {
      TakeSizedAgrees(m, w, atR, c, start);
    }
  }

  /** Selling one rung, or nothing, and moving to the next phase. */
  lemma {:induction false} PhaseUp(cfg: Config, p: Position, p1: Position)
    requires Sensible(cfg) && p.lot > 0.0 && p.qty > 0.0 && RoomLeft(cfg, p) && p1.qty == p.qty && p1.lot == p.lot
    requires (p.phase == RiskOn && p1.phase == Breakeven && p1.remaining >= p.remaining - Carve(p, Pct(cfg, 0)))
          || (p.phase == Breakeven && p1.phase == Trailing && p1.remaining >= p.remaining - Carve(p, Pct(cfg, 1)))
          || (p1.phase == p.phase && p1.remaining == p.remaining)
    ensures RoomLeft(cfg, p1)
  {
    assert Carve(p1, Pct(cfg, 0)) == Carve(p, Pct(cfg, 0));
    assert Carve(p1, Pct(cfg, 1)) == Carve(p, Pct(cfg, 1));
  }

  lemma {:induction false} FirstRungRoom(cfg: Config, m: Market, w: World, rNow: real, start: real)
    requires Sensible(cfg) && Agreed(w, start) && RoomLeft(cfg, w.pos) && FirstOk(cfg, w, rNow)
    ensures RoomLeft(cfg, BreakevenStage(cfg, m, w, rNow).w.pos)
  {
    if Reaches(cfg, w.pos, rNow) {
      var w1 := Ratchet(cfg, w, w.pos.entry, false).w;
      RatchetKeeps(cfg, w, w.pos.entry, start);
      BreakevenIs(cfg, m, w, w1, rNow);
      LadderLeavesSome(cfg, w.pos);
      if FirstDue(cfg, w.pos, rNow) {
        var c := Carve(w1.pos, Pct(cfg, 0));
        SameSale(w.book, w.pos, w1.book, w1.pos, c);
        SaleShape(m, w1, cfg.partials[0].atR, c, start);
      }
      PhaseUp(cfg, w.pos, BreakevenStage(cfg, m, w, rNow).w.pos);
    }
  }

  lemma {:induction false} SecondRungRoom(cfg: Config, m: Market, w: World, rNow: real, start: real)
    requires Sensible(cfg) && Agreed(w, start) && RoomLeft(cfg, w.pos) && SecondOk(cfg, w, rNow)
    ensures RoomLeft(cfg, TrailingStage(cfg, m, w, rNow).w.pos)
  {
    if SecondReached(cfg, w.pos, rNow) {
      LadderLeavesSome(cfg, w.pos);
      if SecondDue(cfg, w.pos, rNow) {
        SaleShape(m, w, cfg.partials[1].atR, Carve(w.pos, Pct(cfg, 1)), start);
      }
      PhaseUp(cfg, w.pos, TrailingStage(cfg, m, w, rNow).w.pos);
    }
  }

  lemma {:induction false} TailRoom(cfg: Config, w: World, rNow: real, bar: Bar)
    requires w.pos.lot > 0.0 && RoomLeft(cfg, w.pos)
    ensures var r3 := LockStage(cfg, w, rNow);
            RoomLeft(cfg, r3.w.pos) && RoomLeft(cfg, ChandelierStage(cfg, r3.w, bar).w.pos)
  {
    var q := LockStage(cfg, w, rNow).w.pos;
    assert q.remaining == w.pos.remaining && q.phase == w.pos.phase;
    assert forall pct :: Carve(q, pct) == Carve(w.pos, pct);
    var q1 := ChandelierStage(cfg, LockStage(cfg, w, rNow).w, bar).w.pos;
    assert q1.remaining == q.remaining && q1.phase == q.phase;
    assert forall pct :: Carve(q1, pct) == Carve(q, pct);
  }

  /** A managed bar that keeps the agreement leaves room for the rungs still to come. */
  lemma {:induction false} ManageLeavesRoom(cfg: Config, m: Market, w: World, bar: Bar, start: real)
    requires Sensible(cfg) && Agreed(w, start) && RoomLeft(cfg, w.pos) && ManageOk(cfg, m, w, bar)
    ensures RoomLeft(cfg, Manage(cfg, m, w, bar).w.pos)
  {
    var rNow := RMultiple(w.pos, bar.close);
    var r1 := BreakevenStage(cfg, m, w, rNow);
    ManageEnds(cfg, m, w, bar);
    BreakevenAgreesIff(cfg, m, w, rNow, start);
    FirstRungRoom(cfg, m, w, rNow, start);
    if r1.Done? {
      SecondRungRoom(cfg, m, r1.w, rNow, start);
      TailRoom(cfg, TrailingStage(cfg, m, r1.w, rNow).w, rNow, bar);
    }
  }

  // ---------- affording the ladder ----------

  /** The margin check passes for a series of buys at one last price. */
  predicate Affordable(m: Market, s: Symbol, px: real, cash: real, qs: seq<real>)
    decreases |qs|
  {
    qs == [] || (qs[0] * px <= cash && Affordable(m, s, px, CashAfterBuy(m, s, px, cash, qs[0]), qs[1..]))
  }

  /** A series of market closes goes through: a last price, whole quantities on the
      exchange leg, and cash to buy a short back. */
  predicate Executable(m: Market, b: Book, p: Position, qs: seq<real>) {
    && p.symbol in b.last
    && (p.leg.India? ==> forall q :: q in qs ==> Whole(q))
    && (p.direction.Sell? ==> Affordable(m, p.symbol, b.last[p.symbol], b.cash, qs))
  }

  /** What a rung of the ladder sells: nothing, or one carve. */
  function Sale(p: Position, pct: real): seq<real>
    requires p.lot > 0.0
  {
    if Carve(p, pct) > 0.0 then [Carve(p, pct)] else []
  }

  /** The phase and ladder record after the breakeven stage. */
  function AfterFirst(cfg: Config, p: Position, rNow: real): Position {
    if !Reaches(cfg, p, rNow) then p
    else
      p.(phase := Breakeven,
         partialsTaken := if FirstDue(cfg, p, rNow) then p.partialsTaken + [cfg.partials[0].atR]
                          else p.partialsTaken)
  }

  function FirstSale(cfg: Config, p: Position, rNow: real): seq<real>
    requires p.lot > 0.0
  {
    if FirstDue(cfg, p, rNow) then Sale(p, Pct(cfg, 0)) else []
  }

  function SecondSale(cfg: Config, p: Position, rNow: real): seq<real>
    requires p.lot > 0.0
  {
    if SecondDue(cfg, p, rNow) then Sale(p, Pct(cfg, 1)) else []
  }

  /** The market closes a managed bar will send, in order. */
  function LadderSales(cfg: Config, p: Position, rNow: real): seq<real>
    requires p.lot > 0.0
  {
    FirstSale(cfg, p, rNow) + SecondSale(cfg, AfterFirst(cfg, p, rNow), rNow)
  }

  lemma {:induction false} ExecutableSplit(m: Market, b: Book, p: Position, xs: seq<real>, ys: seq<real>)
    requires |xs| <= 1 && Executable(m, b, p, xs + ys)
    ensures Executable(m, b, p, xs)
    ensures xs == [] ==> Executable(m, b, p, ys)
    ensures |xs| == 1 ==> CanClose(b, p, xs[0])
    ensures p.leg.India? ==> forall q :: q in ys ==> Whole(q)
    ensures |xs| == 1 && p.direction.Sell? ==>
              Affordable(m, p.symbol, b.last[p.symbol],
                         CashAfterBuy(m, p.symbol, b.last[p.symbol], b.cash, xs[0]), ys)
  {
    if |xs| == 1 {
      assert (xs + ys)[1..] == ys;
      assert xs + ys != [] && (xs + ys)[0] == xs[0];
    } else {
      assert xs + ys == ys;
    }
  }

  /** Paying for the first rung leaves what the second needs. */
  lemma {:induction false} ExecutableNext(m: Market, p: Position, b: Book, b1: Book, p1: Position, c: real,
                                          ys: seq<real>)
    requires p.symbol in b.last && b1.last == b.last
    requires p1.symbol == p.symbol && p1.direction == p.direction && p1.leg == p.leg
    requires Executable(m, b, p, (if c > 0.0 then [c] else []) + ys)
    requires p.direction.Sell? ==>
               b1.cash == (if c > 0.0 then CashAfterBuy(m, p.symbol, b.last[p.symbol], b.cash, c) else b.cash)
    ensures Executable(m, b1, p1, ys)
  {
    ExecutableSplit(m, b, p, if c > 0.0 then [c] else [], ys);
  }

  lemma {:induction false} SameSecondSale(cfg: Config, p: Position, q: Position, rNow: real)
    requires p.lot > 0.0 && q.lot == p.lot && q.qty == p.qty
    requires q.phase == p.phase && q.partialsTaken == p.partialsTaken
    ensures SecondSale(cfg, q, rNow) == SecondSale(cfg, p, rNow)
  {
    assert Carve(q, Pct(cfg, 1)) == Carve(p, Pct(cfg, 1));
  }

  /** Nothing of the ladder raises once the first rung is paid for, and the second
      still can be. */
  lemma {:induction false} FirstRungRuns(cfg: Config, m: Market, w: World, rNow: real, start: real)
    requires Sensible(cfg) && Agreed(w, start) && RoomLeft(cfg, w.pos)
    requires Executable(m, w.book, w.pos, LadderSales(cfg, w.pos, rNow))
    ensures var r := BreakevenStage(cfg, m, w, rNow);
            && FirstOk(cfg, w, rNow) && r.Done?
            && Executable(m, r.w.book, r.w.pos, SecondSale(cfg, r.w.pos, rNow))
  {
    var p := w.pos;
    RungFits(cfg, p);
    ExecutableSplit(m, w.book, p, FirstSale(cfg, p, rNow), SecondSale(cfg, AfterFirst(cfg, p, rNow), rNow));
    BreakevenAgreesIff(cfg, m, w, rNow, start);
    if Reaches(cfg, p, rNow) {
      FirstRungPays(cfg, m, w, rNow, start);
    }
  }

  /** What a rung that goes through does to the cash and the ladder record. */
  lemma {:induction false} RungPays(m: Market, w: World, partial: Partial, start: real)
    requires Agreed(w, start) && Placeable(w.pos.leg, w.pos.stop)
    requires var c := Carve(w.pos, partial.pct); c > 0.0 ==> c < w.pos.remaining && CanClose(w.book, w.pos, c)
    ensures var c, w1 := Carve(w.pos, partial.pct), TakePartial(m, w, partial).w;
            && w1.pos.partialsTaken == w.pos.partialsTaken + [partial.atR] && w1.book.last == w.book.last
            && (w.pos.direction.Sell? ==>
                  w1.book.cash == (if c > 0.0 then CashAfterBuy(m, w.pos.symbol, w.book.last[w.pos.symbol],
                                                                w.book.cash, c)
                                   else w.book.cash))
  {
    TakeSizedAgrees(m, w, partial.atR, Carve(w.pos, partial.pct), start);
  }

  lemma {:induction false} FirstRungPays(cfg: Config, m: Market, w: World, rNow: real, start: real)
    requires Sensible(cfg) && Agreed(w, start) && RoomLeft(cfg, w.pos) && Reaches(cfg, w.pos, rNow)
    requires Executable(m, w.book, w.pos, LadderSales(cfg, w.pos, rNow)) && BreakevenStage(cfg, m, w, rNow).Done?
    ensures var r := BreakevenStage(cfg, m, w, rNow);
            Executable(m, r.w.book, r.w.pos, SecondSale(cfg, r.w.pos, rNow))
  {
    var p := w.pos;
    var next := AfterFirst(cfg, p, rNow);
    var w1 := Ratchet(cfg, w, p.entry, false).w;
    RatchetKeeps(cfg, w, p.entry, start);
    BreakevenIs(cfg, m, w, w1, rNow);
    if FirstDue(cfg, p, rNow) {
      SoldRungPays(cfg, m, w, w1, rNow, start);
    } else {
      ExecutableNext(m, p, w.book, w1.book, InPhase(w1, Breakeven).pos, 0.0, SecondSale(cfg, next, rNow));
      SameSecondSale(cfg, next, InPhase(w1, Breakeven).pos, rNow);
    }
  }

  /** The first rung can be carried out, and the second after it. */
  lemma {:induction false} FirstSaleFits(cfg: Config, m: Market, b: Book, p: Position, rNow: real)
    requires Sensible(cfg) && Sized(p) && RoomLeft(cfg, p) && FirstDue(cfg, p, rNow)
    requires Executable(m, b, p, LadderSales(cfg, p, rNow))
    ensures var c := Carve(p, Pct(cfg, 0));
            && (c > 0.0 ==> c < p.remaining && CanClose(b, p, c))
            && Executable(m, b, p, (if c > 0.0 then [c] else []) + SecondSale(cfg, AfterFirst(cfg, p, rNow), rNow))
  {
    RungFits(cfg, p);
    ExecutableSplit(m, b, p, FirstSale(cfg, p, rNow), SecondSale(cfg, AfterFirst(cfg, p, rNow), rNow));
  }

  lemma {:induction false} PaidNext(cfg: Config, m: Market, b: Book, p: Position, w2: World, rNow: real)
    requires Sensible(cfg) && Sized(p) && RoomLeft(cfg, p) && FirstDue(cfg, p, rNow)
    requires Executable(m, b, p, LadderSales(cfg, p, rNow)) && SameTrade(p, w2.pos)
    requires w2.pos.phase == Breakeven && w2.pos.partialsTaken == AfterFirst(cfg, p, rNow).partialsTaken
    requires var c := Carve(p, Pct(cfg, 0));
             && w2.book.last == b.last
             && (p.direction.Sell? ==>
                   w2.book.cash == if c > 0.0 then CashAfterBuy(m, p.symbol, b.last[p.symbol], b.cash, c) else b.cash)
    ensures Executable(m, w2.book, w2.pos, SecondSale(cfg, w2.pos, rNow))
  {
    FirstSaleFits(cfg, m, b, p, rNow);
    ExecutableNext(m, p, b, w2.book, w2.pos, Carve(p, Pct(cfg, 0)), SecondSale(cfg, AfterFirst(cfg, p, rNow), rNow));
    SameSecondSale(cfg, AfterFirst(cfg, p, rNow), w2.pos, rNow);
  }

  lemma {:induction false} SameClose(b: Book, p: Position, b1: Book, p1: Position, c: real)
    requires b1.last == b.last && b1.cash == b.cash && p1 == p.(stop := p1.stop)
    ensures CanClose(b1, p1, c) == CanClose(b, p, c)
  {
  }

  lemma {:induction false} SoldRungPays(cfg: Config, m: Market, w: World, w1: World, rNow: real, start: real)
    requires Sensible(cfg) && Agreed(w, start) && RoomLeft(cfg, w.pos) && FirstDue(cfg, w.pos, rNow)
    requires Executable(m, w.book, w.pos, LadderSales(cfg, w.pos, rNow))
    requires Keeps(w, w1, start) && w1.pos == w.pos.(stop := w1.pos.stop) && w1.book.cash == w.book.cash
    requires StopAtEntry(w1.pos)
    ensures var w2 := InPhase(TakePartial(m, w1, cfg.partials[0]).w, Breakeven);
            Executable(m, w2.book, w2.pos, SecondSale(cfg, w2.pos, rNow))
  {
    var c := Carve(w.pos, Pct(cfg, 0));
    FirstSaleFits(cfg, m, w.book, w.pos, rNow);
    PlaceableAtEntry(w1.pos);
    SameClose(w.book, w.pos, w1.book, w1.pos, c);
    assert Carve(w1.pos, Pct(cfg, 0)) == c;
    RungPays(m, w1, cfg.partials[0], start);
    PaidNext(cfg, m, w.book, w.pos, InPhase(TakePartial(m, w1, cfg.partials[0]).w, Breakeven), rNow);
  }

  lemma {:induction false} SecondRungRuns(cfg: Config, m: Market, w: World, rNow: real, start: real)
    requires Sensible(cfg) && Agreed(w, start) && RoomLeft(cfg, w.pos)
    requires Executable(m, w.book, w.pos, SecondSale(cfg, w.pos, rNow))
    ensures SecondOk(cfg, w, rNow) && TrailingStage(cfg, m, w, rNow).Done?
  {
    var xs := SecondSale(cfg, w.pos, rNow);
    RungFits(cfg, w.pos);
    assert xs + [] == xs;
    ExecutableSplit(m, w.book, w.pos, xs, []);
    TrailingAgreesIff(cfg, m, w, rNow, start);
  }

  // ---------- levels ----------

  /** A level locked at or below the R-multiple of a price is no better than that price. */
  lemma {:induction false} LockNotBeyond(move: real, r: real, lockR: real)
    requires r > 0.0 && lockR <= move / r
    ensures lockR * r <= move
  {
    var q := move / r;
    DivMul(move, r);
    MulMono(lockR, q, r);
  }

  lemma {:induction false} LockLevelPositive(p: Position, close: real, lockR: real)
    requires p.entry > 0.0 && p.rValue >= 0.0 && p.direction.Sell? && close > 0.0 && lockR <= RMultiple(p, close)
    ensures LockLevel(p, lockR) > 0.0
  {
    if p.rValue > 0.0 {
      LockNotBeyond(p.entry - close, p.rValue, lockR);
    }
  }

  lemma {:induction false} TrailNotNegative(cfg: Config, p: Position, bar: Bar)
    requires Mild(cfg)
    ensures TrailK(cfg, p, bar) >= 0.0
  {
  }

  lemma {:induction false} SameR(p: Position, q: Position, price: real)
    requires SameTrade(p, q)
    ensures RMultiple(q, price) == RMultiple(p, price)
  {
  }

  lemma {:induction false} MildLock(cfg: Config, p: Position, close: real)
    requires Mild(cfg) && Sized(p) && Placeable(p.leg, p.stop) && close > 0.0
    ensures LockOk(cfg, p, RMultiple(p, close))
  {
    if Locks(cfg, p, RMultiple(p, close)) && p.direction.Sell? {
      LockLevelPositive(p, close, cfg.profitLock.value.lockR);
    }
  }

  lemma {:induction false} MildTrail(cfg: Config, p: Position, bar: Bar)
    requires Mild(cfg) && Sized(p) && Placeable(p.leg, p.stop)
    ensures TrailOk(cfg, p, bar)
  {
    TrailNotNegative(cfg, p, bar);
    MulMono(0.0, TrailK(cfg, p, bar), p.atr);
  }

  lemma {:induction false} StillPlaceable(w: World, w1: World, start: real)
    requires Keeps(w, w1, start) && Placeable(w.pos.leg, w.pos.stop)
    ensures Placeable(w1.pos.leg, w1.pos.stop)
  {
  }

  lemma {:induction false} MildTail(cfg: Config, w: World, bar: Bar, start: real)
    requires Mild(cfg) && Agreed(w, start) && Placeable(w.pos.leg, w.pos.stop) && bar.close > 0.0
    ensures var rNow := RMultiple(w.pos, bar.close);
            LockOk(cfg, w.pos, rNow) && TrailOk(cfg, LockStage(cfg, w, rNow).w.pos, bar)
  {
    var rNow := RMultiple(w.pos, bar.close);
    MildLock(cfg, w.pos, bar.close);
    LockAgreesIff(cfg, w, rNow, start);
    var w1 := LockStage(cfg, w, rNow).w;
    StillPlaceable(w, w1, start);
    MildTrail(cfg, w1.pos, bar);
  }

  /** Under such a configuration a managed bar meets its condition and returns, once
      the stop itself is above zero (on the MT5 leg) and the partials it sells can
      be carried out. */
  lemma {:induction false} ConfiguredManageOk(cfg: Config, m: Market, w: World, bar: Bar, start: real)
    requires Sensible(cfg) && Mild(cfg) && Agreed(w, start) && RoomLeft(cfg, w.pos)
    requires Placeable(w.pos.leg, w.pos.stop) && bar.close > 0.0
    requires Executable(m, w.book, w.pos, LadderSales(cfg, w.pos, RMultiple(w.pos, bar.close)))
    ensures ManageOk(cfg, m, w, bar) && Manage(cfg, m, w, bar).Done?
  {
    var rNow := RMultiple(w.pos, bar.close);
    FirstRungRuns(cfg, m, w, rNow, start);
    FirstRungRoom(cfg, m, w, rNow, start);
    BreakevenAgreesIff(cfg, m, w, rNow, start);
    var w1 := BreakevenStage(cfg, m, w, rNow).w;
    SecondRungRuns(cfg, m, w1, rNow, start);
    TrailingAgreesIff(cfg, m, w1, rNow, start);
    var w2 := TrailingStage(cfg, m, w1, rNow).w;
    KeepsTrans(w, w1, w2, start);
    StillPlaceable(w, w2, start);
    SameR(w.pos, w2.pos, bar.close);
    MildTail(cfg, w2, bar, start);
    TailAgreesIff(cfg, w2, rNow, bar, start);
    ManageEnds(cfg, m, w, bar);
  }

  // ---------- over runs ----------

  predicate Roomy(cfg: Config, sys: Sys)
    requires Lotted(sys)
  {
    forall s :: s in sys.positions && Live(sys, s) ==> RoomLeft(cfg, sys.positions[s])
  }

  lemma {:induction false} BarLeavesRoom(cfg: Config, m: Market, w: World, bar: Bar, window: seq<real>, start: real)
    requires Sensible(cfg) && Good(w.book, start) && Sized(w.pos) && InWindow(w.pos, w.book, window)
    requires ClosesWindow(bar, window) && BarOk(cfg, m, w.book, w.pos, bar) && RoomLeft(cfg, w.pos)
    ensures var p1 := OnBar(cfg, m, w, bar).w.pos; p1.phase != Exited ==> RoomLeft(cfg, p1)
  {
    BarSeesFired(w.pos, window, bar);
    if Manages(cfg, w.pos, bar) {
      var w1 := w.(pos := Observe(w.pos, bar));
      HighLow(window);
      ObserveAgrees(w.pos, bar, w.book, start);
      assert forall pct :: Carve(w1.pos, pct) == Carve(w.pos, pct);
      ManagingBar(cfg, m, w, bar);
      ManageLeavesRoom(cfg, m, w1, bar, start);
    } else {
      ExitingBar(cfg, m, w, bar);
    }
  }

  lemma {:induction false} SameRoom(cfg: Config, p: Position, p1: Position)
    requires p.lot > 0.0 && RoomLeft(cfg, p) && p1.phase == p.phase && p1.remaining == p.remaining
    requires p1.qty == p.qty && p1.lot == p.lot
    ensures RoomLeft(cfg, p1)
  {
    assert forall pct :: Carve(p1, pct) == Carve(p, pct);
  }

  lemma {:induction false} StepRoomy(cfg: Config, m: Market, sys: Sys, e: Event, start: real)
    requires Sensible(cfg) && Inv(sys, start) && Lotted(sys) && Allowed(cfg, m, sys, e) && Roomy(cfg, sys)
    ensures Roomy(cfg, StepSys(cfg, m, sys, e))
  {
    match e
    case TickEvent(_, _) =>
    case BarEvent(s, regime, eventMinutes, weekend) =>
      if Live(sys, s) && WindowOf(sys, s) != [] {
        LiveAgreed(sys, s, start);
        var bar := BarOf(WindowOf(sys, s), regime, eventMinutes, weekend);
        BarLeavesRoom(cfg, m, Managing(sys, s), bar, WindowOf(sys, s), start);
      }
    case EntryEvent(_, _, _, _, _, _, _) => EntryRoomy(cfg, m, sys, e);
    case ForceEvent(s, stop) =>
      if Live(sys, s) {
        SameRoom(cfg, sys.positions[s], Ratchet(cfg, Managing(sys, s), stop, true).w.pos);
      }
    case ManualEvent(_, _) =>
    case RestartEvent => RestartRoomy(cfg, m, sys);
  }

  lemma {:induction false} RestartRoomy(cfg: Config, m: Market, sys: Sys)
    requires Lotted(sys) && Roomy(cfg, sys)
    ensures Roomy(cfg, StepSys(cfg, m, sys, RestartEvent))
  {
    var sys1 := StepSys(cfg, m, sys, RestartEvent);
    forall s | s in sys1.positions && Live(sys1, s)
      ensures RoomLeft(cfg, sys1.positions[s])
    {
      SameRoom(cfg, sys.positions[s], sys1.positions[s]);
    }
  }

  lemma {:induction false} EntryRoomy(cfg: Config, m: Market, sys: Sys, e: Event)
    requires Lotted(sys) && Roomy(cfg, sys) && e.EntryEvent?
    ensures Roomy(cfg, StepSys(cfg, m, sys, e))
  {
  }

  lemma {:induction false} RunRoomy(cfg: Config, m: Market, cash: real, es: seq<Event>)
    requires Sensible(cfg) && AllowedRun(cfg, m, NewSys(cash), es)
    ensures Roomy(cfg, RunSys(cfg, m, NewSys(cash), es))
  {
    if es != [] {
      var init := es[..|es| - 1];
      RunRoomy(cfg, m, cash, init);
      RunKeeps(cfg, m, cash, init);
      StepRoomy(cfg, m, RunSys(cfg, m, NewSys(cash), init), es[|es| - 1], cash);
    }
  }

  /** After any agreed run under such a configuration, a managing bar is allowed and
      returns if the stop is above zero (on the MT5 leg) and the partials the bar
      will sell can be carried out: nothing about sizes or levels is left to check. */
  lemma {:induction false} ConfiguredBarIsAllowed(cfg: Config, m: Market, cash: real, es: seq<Event>, e: Event)
    requires Sensible(cfg) && Mild(cfg) && AllowedRun(cfg, m, NewSys(cash), es) && e.BarEvent?
    requires var sys := RunSys(cfg, m, NewSys(cash), es);
             && Live(sys, e.symbol) && WindowOf(sys, e.symbol) != []
             && var p := sys.positions[e.symbol];
                var bar := BarOf(WindowOf(sys, e.symbol), e.regime, e.eventMinutes, e.weekend);
                var p1 := Observe(p, bar);
                && Manages(cfg, p, bar) && Placeable(p.leg, p.stop)
                && Executable(m, sys.book, p1, LadderSales(cfg, p1, RMultiple(p1, bar.close)))
    ensures var sys := RunSys(cfg, m, NewSys(cash), es);
            var bar := BarOf(WindowOf(sys, e.symbol), e.regime, e.eventMinutes, e.weekend);
            Allowed(cfg, m, sys, e) && OnBar(cfg, m, Managing(sys, e.symbol), bar).Done?
  {
    RunKeeps(cfg, m, cash, es);
    RunRoomy(cfg, m, cash, es);
    var sys, s := RunSys(cfg, m, NewSys(cash), es), e.symbol;
    var bar := BarOf(WindowOf(sys, s), e.regime, e.eventMinutes, e.weekend);
    var w := Managing(sys, s);
    LiveAgreed(sys, s, cash);
    HighLow(WindowOf(sys, s));
    BarSeesFired(w.pos, WindowOf(sys, s), bar);
    ObserveAgrees(w.pos, bar, w.book, cash);
    SameRoom(cfg, w.pos, Observe(w.pos, bar));
    ConfiguredManageOk(cfg, m, w.(pos := Observe(w.pos, bar)), bar, cash);
    ManagingBar(cfg, m, w, bar);
  }
}
