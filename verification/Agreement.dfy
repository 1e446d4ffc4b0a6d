/** The exit engine and the broker book agree on one position: how much is held,
    where the stop is and which order rests. For every engine step that talks to
    the broker the exact condition under which it keeps the agreement. */
module Agreement {
  import opened Basics
  import opened PaperBroker
  import opened StopAdapters
  import opened Ledger
  import opened BookFacts
  import opened ExitEngine

  // ---------- what agreement means ----------

  function StopOrderOf(p: Position): Order {
    Order(p.stopId, p.symbol, Closing(p.direction), p.remaining, p.stop)
  }

  /** The broker holds exactly what remains, and exactly one order rests for the
      symbol: the engine's stop, closing side, at the engine's level. */
  predicate Protected(p: Position, b: Book) {
    Holds(b, p.symbol, Signed(p.direction, p.remaining), [StopOrderOf(p)])
  }

  /** Partial percentages of the two rungs the engine uses. */
  function Pct(cfg: Config, i: nat): real {
    if i < |cfg.partials| then cfg.partials[i].pct else 0.0
  }

  /** A live position: what attach checks and no step changes. */
  predicate Sized(p: Position) {
    && p.phase != Exited && p.telemetry.None? && RiskFree(p)
    && p.lot > 0.0 && p.entry > 0.0 && p.atr > 0.0 && p.extreme > 0.0 && p.rValue >= 0.0
    && 0.0 < p.remaining <= p.qty && (p.leg.India? ==> Whole(p.remaining))
  }

  /** A level a stop can be moved to: the MT5 side takes one at or below zero for
      a cancel. */
  predicate Placeable(leg: Leg, level: real) {
    leg.India? || level > 0.0
  }

  /** The stop of a short that no tick has reached is above zero. */
  predicate Stands(p: Position) {
    p.direction.Sell? ==> Placeable(p.leg, p.stop)
  }

  ghost predicate Agreed(w: World, start: real) {
    Good(w.book, start) && Protected(w.pos, w.book) && Sized(w.pos) && Stands(w.pos)
  }

  /** The same trade with its stop no wider and the same extreme. */
  predicate Onward(p: Position, q: Position) {
    SameTrade(p, q) && NoWider(p, q) && q.extreme == p.extreme
  }

  /** Agreement still holds, other symbols are untouched. */
  ghost predicate Keeps(w: World, w1: World, start: real) {
    && Agreed(w1, start) && Onward(w.pos, w1.pos)
    && Elsewhere(w.book, w1.book, w.pos.symbol) && w1.book.last == w.book.last
  }

  /** The engine has written off more than the broker has sold. */
  predicate Mismatched(w: World) {
    w.pos.remaining <= 0.0
    || (!w.pos.leg.India? && Signed(w.pos.direction, Held(w.book, w.pos.symbol)) > w.pos.remaining)
  }

  /** The stop was cancelled; the MT5 side never places another. */
  predicate Naked(w: World) {
    !w.pos.leg.India? && Find(w.book.open, w.pos.stopId).None?
  }

  lemma {:induction false} StopIsFound(p: Position, b: Book)
    requires Protected(p, b)
    ensures Find(b.open, p.stopId).Some?
  {
    OrdersForIn(b.open, p.symbol);
    assert StopOrderOf(p) in OrdersFor(b.open, p.symbol);
  }

  lemma {:induction false} LostIsNotProtected(w: World)
    requires Mismatched(w) || Naked(w)
    ensures !(w.pos.remaining > 0.0 && Protected(w.pos, w.book))
  {
    if Protected(w.pos, w.book) {
      StopIsFound(w.pos, w.book);
    }
  }

  // ---------- market closes ----------

  function CashAfterBuy(m: Market, s: Symbol, px: real, cash: real, qty: real): real {
    cash + Proceeds(FillOf(m, 0, s, Buy, qty, px))
  }

  /** A market close goes through: a last price, a whole quantity on the exchange
      leg, and cash to buy a short back. */
  predicate CanClose(b: Book, p: Position, qty: real) {
    && p.symbol in b.last && (p.leg.India? ==> Whole(qty))
    && (p.direction.Sell? ==> qty * b.last[p.symbol] <= b.cash)
  }

  lemma {:induction false} WholeDifference(x: real, y: real)
    requires Whole(x) && Whole(y)
    ensures Whole(x - y)
  {
    assert x - y == (x.Floor - y.Floor) as real;
  }

  // ---------- adapter steps ----------

  lemma {:induction false} ModifyRewrites(b: Book, o: Order, trigger: real, start: real)
    requires Good(b, start) && OrdersFor(b.open, o.symbol) == [o]
    ensures var (b1, ok) := Modify(b, o.id, trigger);
            && ok && Holds(b1, o.symbol, Held(b, o.symbol), [o.(trigger := trigger)])
            && Elsewhere(b, b1, o.symbol) && Good(b1, start) && b1.last == b.last && b1.cash == b.cash
  {
    SoleOrder(b.open, o);
    OrdersForIn(b.open, o.symbol);
    assert o in OrdersFor(b.open, o.symbol);
    RewriteOrder(b, o, o.(trigger := trigger), start);
  }

  lemma {:induction false} SyncShrinks(b: Book, o: Order, start: real)
    requires Good(b, start) && OrdersFor(b.open, o.symbol) == [o] && Held(b, o.symbol) != 0.0
    ensures var b1 := SyncQty(b, o.id);
            && Holds(b1, o.symbol, Held(b, o.symbol), [o.(qty := Min(o.qty, Abs(Held(b, o.symbol))))])
            && Elsewhere(b, b1, o.symbol) && Good(b1, start) && b1.last == b.last && b1.cash == b.cash
  {
    SoleOrder(b.open, o);
    OrdersForIn(b.open, o.symbol);
    assert o in OrdersFor(b.open, o.symbol);
    var o1 := o.(qty := Min(o.qty, Abs(Held(b, o.symbol))));
    assert SyncQty(b, o.id) == b.(open := Put(b.open, o1));
    RewriteOrder(b, o, o1, start);
  }

  /** On the MT5 leg a modify moves the trigger and shrinks the stop to the
      position it rides. */
  lemma {:induction false} StopRidesPosition(b: Book, o: Order, sl: real, start: real)
    requires Good(b, start) && OrdersFor(b.open, o.symbol) == [o] && Held(b, o.symbol) != 0.0 && sl > 0.0
    ensures var (b1, ok) := ServerModify(b, o.id, sl);
            && ok
            && Holds(b1, o.symbol, Held(b, o.symbol),
                     [o.(trigger := sl, qty := Min(o.qty, Abs(Held(b, o.symbol))))])
            && Elsewhere(b, b1, o.symbol) && Good(b1, start) && b1.last == b.last && b1.cash == b.cash
  {
    ModifyRewrites(b, o, sl, start);
    SyncShrinks(Modify(b, o.id, sl).0, o.(trigger := sl), start);
  }

  lemma {:induction false} ModifyStopAgrees(p: Position, b: Book, trigger: real, start: real)
    requires Good(b, start) && Protected(p, b) && p.remaining > 0.0 && Placeable(p.leg, trigger)
    ensures var (b1, ok) := ModifyStop(b, p.leg, p.stopId, trigger);
            && ok && Protected(p.(stop := trigger), b1) && Elsewhere(b, b1, p.symbol) && Good(b1, start)
            && b1.last == b.last && b1.cash == b.cash
  {
    if p.leg.India? {
      ModifyRewrites(b, StopOrderOf(p), trigger, start);
    } else {
      StopRidesPosition(b, StopOrderOf(p), trigger, start);
    }
  }

  lemma {:induction false} CancelStopClears(p: Position, b: Book, start: real)
    requires Good(b, start) && Protected(p, b)
    ensures var (b1, ok) := CancelStop(b, p.leg, p.stopId);
            && ok && Holds(b1, p.symbol, Held(b, p.symbol), []) && Elsewhere(b, b1, p.symbol) && Good(b1, start)
            && b1.last == b.last && b1.cash == b.cash
  {
    DropOrder(b, StopOrderOf(p), start);
  }

  lemma {:induction false} CancelledIsDead(p: Position, b: Book, start: real)
    requires Good(b, start) && Protected(p, b)
    ensures Dead(CancelStop(b, p.leg, p.stopId).0, p.stopId)
  {
    var o := StopOrderOf(p);
    DropOrder(b, o, start);
    SoleOrder(b.open, o);
  }

  lemma {:induction false} ExitMarketOrder(m: Market, p: Position, b: Book, qty: real)
    requires Held(b, p.symbol) == Signed(p.direction, p.remaining) && p.remaining > 0.0
    requires p.leg.India? ==> Whole(qty)
    ensures var (b1, r) := Place(m, b, Payload(p.symbol, Closing(p.direction), qty, AtMarket));
            ExitMarket(m, b, p.leg, p.symbol, qty, p.direction)
            == (b1, if p.leg.India? then r.Accepted? else true)
  {
    assert ClosingAction(b, p.symbol) == Closing(p.direction);
  }

  lemma {:induction false} CashIgnoresId(m: Market, s: Symbol, px: real, cash: real, qty: real, id: nat)
    ensures CashAfterBuy(m, s, px, cash, qty) == cash + Proceeds(FillOf(m, id, s, Buy, qty, px))
  {
    var f0, f := FillOf(m, 0, s, Buy, qty, px), FillOf(m, id, s, Buy, qty, px);
    assert f == f0.(id := id);
  }

  /** Closing part or all of what is held, on either leg. */
  lemma {:induction false} ExitMarketReduces(m: Market, p: Position, b: Book, qty: real, start: real)
    requires Good(b, start) && Held(b, p.symbol) == Signed(p.direction, p.remaining)
    requires 0.0 < qty <= p.remaining && CanClose(b, p, qty)
    ensures var (b1, ok) := ExitMarket(m, b, p.leg, p.symbol, qty, p.direction);
            && ok && Elsewhere(b, b1, p.symbol) && Good(b1, start) && b1.last == b.last
            && Holds(b1, p.symbol, Signed(p.direction, p.remaining - qty), OrdersFor(b.open, p.symbol))
            && (p.direction.Sell? ==>
                  b1.cash == CashAfterBuy(m, p.symbol, b.last[p.symbol], b.cash, qty))
  {
    var side := Closing(p.direction);
    MarketOrder(m, b, p.symbol, side, qty, start);
    ExitMarketOrder(m, p, b, qty);
    CashIgnoresId(m, p.symbol, b.last[p.symbol], b.cash, qty, b.nextId);
  }

  lemma {:induction false} IndiaReplace(m: Market, p: Position, b: Book, o: Order, start: real)
    requires Good(b, start) && p.remaining > 0.0 && p.leg.India? && Whole(p.remaining)
    requires o.id == p.stopId && o.symbol == p.symbol && OrdersFor(b.open, o.symbol) == [o]
    ensures var (b1, id) := ReplaceStop(m, b, p.leg, p.stopId, p.symbol, p.remaining, p.stop, p.direction);
            && id.Some? && Holds(b1, p.symbol, Held(b, p.symbol), [StopOrderOf(p.(stopId := id.value))])
            && Elsewhere(b, b1, p.symbol) && Good(b1, start) && b1.last == b.last && b1.cash == b.cash
  {
    DropOrder(b, o, start);
    StopOrder(m, Cancel(b, p.stopId).0, p.symbol, Closing(p.direction), p.remaining, p.stop, start);
  }

  lemma {:induction false} Mt5Replace(m: Market, p: Position, b: Book, was: real, start: real)
    requires Good(b, start) && 0.0 < p.remaining <= was && p.stop > 0.0 && !p.leg.India?
    requires Holds(b, p.symbol, Signed(p.direction, p.remaining), [StopOrderOf(p.(remaining := was))])
    ensures var (b1, id) := ReplaceStop(m, b, p.leg, p.stopId, p.symbol, p.remaining, p.stop, p.direction);
            && id == Some(p.stopId) && Protected(p, b1) && Elsewhere(b, b1, p.symbol)
            && Good(b1, start) && b1.last == b.last && b1.cash == b.cash
  {
    var o := StopOrderOf(p.(remaining := was));
    StopRidesPosition(b, o, p.stop, start);
    assert Abs(Held(b, p.symbol)) == p.remaining;
    assert o.(trigger := p.stop, qty := p.remaining) == StopOrderOf(p);
  }

  /** After a partial the stop covers what remains: placed anew on the india
      leg, shrunk in place on the MT5 leg. */
  lemma {:induction false} ReplaceStopAgrees(m: Market, p: Position, b: Book, was: real, start: real)
    requires Good(b, start) && 0.0 < p.remaining <= was && Placeable(p.leg, p.stop)
    requires Holds(b, p.symbol, Signed(p.direction, p.remaining), [StopOrderOf(p.(remaining := was))])
    requires p.leg.India? ==> Whole(p.remaining)
    ensures var (b1, id) := ReplaceStop(m, b, p.leg, p.stopId, p.symbol, p.remaining, p.stop, p.direction);
            && id.Some? && Protected(p.(stopId := id.value), b1) && Elsewhere(b, b1, p.symbol)
            && Good(b1, start) && b1.last == b.last && b1.cash == b.cash
  {
    var o := StopOrderOf(p.(remaining := was));
    if p.leg.India? {
      IndiaReplace(m, p, b, o, start);
    } else {
      Mt5Replace(m, p, b, was, start);
    }
  }

  // ---------- moving the stop ----------

  /** The level can be placed, if the stop change is taken at all. */
  predicate Settable(cfg: Config, p: Position, level: real) {
    Takes(cfg, p, level) ==> Placeable(p.leg, level)
  }

  /** A level at or below zero on the MT5 leg: the engine's stop moves, the
      broker's is gone. */
  lemma {:induction false} LevelCancels(cfg: Config, w: World, candidate: real, force: bool, start: real)
    requires Good(w.book, start) && Protected(w.pos, w.book) && w.pos.remaining > 0.0
    requires Takes(cfg, w.pos, candidate) && !Placeable(w.pos.leg, candidate)
    ensures var r := Ratchet(cfg, w, candidate, force);
            && r.Done? && r.w.pos == w.pos.(stop := candidate) && Good(r.w.book, start)
            && Holds(r.w.book, w.pos.symbol, Held(w.book, w.pos.symbol), [])
            && Elsewhere(w.book, r.w.book, w.pos.symbol) && r.w.book.last == w.book.last && Naked(r.w)
  {
    DropOrder(w.book, StopOrderOf(w.pos), start);
  }

  /** A stop change keeps a position protected if and only if it is not taken or its
      level can be placed, and raises if and only if it is forced and not improving. */
  lemma {:induction false} RatchetAgreesIff(cfg: Config, w: World, candidate: real, force: bool, start: real)
    requires Good(w.book, start) && Protected(w.pos, w.book) && w.pos.remaining > 0.0
    ensures var r := Ratchet(cfg, w, candidate, force);
            && (Protected(r.w.pos, r.w.book) <==> Settable(cfg, w.pos, candidate))
            && (r.Raised? <==> force && !Improving(w.pos, candidate))
            && Good(r.w.book, start) && Elsewhere(w.book, r.w.book, w.pos.symbol) && r.w.book.last == w.book.last
  {
    if Takes(cfg, w.pos, candidate) {
      if Placeable(w.pos.leg, candidate) {
        ModifyStopAgrees(w.pos, w.book, candidate, start);
      } else {
        LevelCancels(cfg, w, candidate, force, start);
      }
    }
  }

  lemma {:induction false} RatchetKeeps(cfg: Config, w: World, candidate: real, start: real)
    requires Agreed(w, start)
    ensures var r := Ratchet(cfg, w, candidate, false);
            && r.Done? && r.w.pos == w.pos.(stop := r.w.pos.stop) && r.w.book.cash == w.book.cash
            && (if Settable(cfg, w.pos, candidate) then Keeps(w, r.w, start) else Naked(r.w))
  {
    if Takes(cfg, w.pos, candidate) {
      if Placeable(w.pos.leg, candidate) {
        ModifyStopAgrees(w.pos, w.book, candidate, start);
      } else {
        LevelCancels(cfg, w, candidate, false, start);
      }
    }
  }

  lemma {:induction false} ServerModifyHeld(b: Book, id: nat, sl: real, s: Symbol)
    ensures Held(ServerModify(b, id, sl).0, s) == Held(b, s)
  {
  }

  lemma {:induction false} RatchetStaysLost(cfg: Config, w: World, candidate: real)
    ensures var w1 := Ratchet(cfg, w, candidate, false).w;
            (Mismatched(w) ==> Mismatched(w1)) && (Naked(w) ==> Naked(w1))
  {
    ServerModifyHeld(w.book, w.pos.stopId, candidate, w.pos.symbol);
  }

  // ---------- selling part ----------

  /** Selling c at market and re-placing the stop for the rest. */
  lemma {:induction false} SellAndReplaceAgrees(m: Market, p: Position, b: Book, c: real, start: real)
    requires Good(b, start) && Protected(p, b) && Placeable(p.leg, p.stop)
    requires 0.0 < c < p.remaining && CanClose(b, p, c) && (p.leg.India? ==> Whole(p.remaining - c))
    ensures var (b1, ok) := ExitMarket(m, b, p.leg, p.symbol, c, p.direction);
            var (b2, id) := ReplaceStop(m, b1, p.leg, p.stopId, p.symbol, p.remaining - c, p.stop, p.direction);
            && ok && id.Some? && Good(b2, start)
            && Protected(p.(remaining := p.remaining - c, stopId := id.value), b2)
            && Elsewhere(b, b2, p.symbol) && b2.last == b.last
            && (p.direction.Sell? ==> b2.cash == CashAfterBuy(m, p.symbol, b.last[p.symbol], b.cash, c))
  {
    ExitMarketReduces(m, p, b, c, start);
    var b1 := ExitMarket(m, b, p.leg, p.symbol, c, p.direction).0;
    var p2 := p.(remaining := p.remaining - c);
    assert StopOrderOf(p2.(remaining := p.remaining)) == StopOrderOf(p);
    ReplaceStopAgrees(m, p2, b1, p.remaining, start);
  }

  /** What selling c of the position leaves of it. */
  predicate SoldDown(p: Position, q: Position, atR: real, c: real) {
    q == p.(partialsTaken := p.partialsTaken + [atR],
            remaining := if c > 0.0 then p.remaining - c else p.remaining, stopId := q.stopId)
  }

  lemma {:induction false} TakeQtyIs(m: Market, w: World, atR: real, c: real)
    requires 0.0 < c < w.pos.remaining
    ensures var p := w.pos;
            var (b1, ok) := ExitMarket(m, w.book, p.leg, p.symbol, c, p.direction);
            var (b2, id) := ReplaceStop(m, b1, p.leg, p.stopId, p.symbol, p.remaining - c, p.stop, p.direction);
            ok && id.Some? ==>
              TakeQty(m, w, atR, c)
              == Done(World(p.(partialsTaken := p.partialsTaken + [atR], remaining := p.remaining - c,
                               stopId := id.value), b2), ())
  {
  }

  lemma {:induction false} TakeQtyAgrees(m: Market, w: World, atR: real, c: real, start: real)
    requires Good(w.book, start) && Protected(w.pos, w.book)
    requires c > 0.0 ==> c < w.pos.remaining && CanClose(w.book, w.pos, c) && Placeable(w.pos.leg, w.pos.stop)
    requires w.pos.leg.India? ==> Whole(w.pos.remaining)
    ensures var r := TakeQty(m, w, atR, c);
            && r.Done? && Good(r.w.book, start) && Protected(r.w.pos, r.w.book)
            && Elsewhere(w.book, r.w.book, w.pos.symbol) && r.w.book.last == w.book.last
            && SoldDown(w.pos, r.w.pos, atR, c)
            && (w.pos.direction.Sell? ==>
                  r.w.book.cash == (if c > 0.0 then CashAfterBuy(m, w.pos.symbol, w.book.last[w.pos.symbol],
                                                                 w.book.cash, c)
                                    else w.book.cash))
  {
    var p := w.pos;
    if c > 0.0 {
      if p.leg.India? {
        WholeDifference(p.remaining, c);
      }
      SellAndReplaceAgrees(m, p, w.book, c, start);
      TakeQtyIs(m, w, atR, c);
      var r := TakeQty(m, w, atR, c);
      var q := p.(remaining := p.remaining - c, stopId := r.w.pos.stopId);
      assert Protected(q, r.w.book) && StopOrderOf(q) == StopOrderOf(r.w.pos);
    } else {
      assert StopOrderOf(p) == StopOrderOf(TakeQty(m, w, atR, c).w.pos);
    }
  }

  lemma {:induction false} SoldDownIsSized(p: Position, q: Position, atR: real, c: real)
    requires Sized(p) && SoldDown(p, q, atR, c) && (c > 0.0 ==> c < p.remaining && (p.leg.India? ==> Whole(c)))
    ensures Sized(q)
  {
    if c > 0.0 && p.leg.India? {
      WholeDifference(p.remaining, c);
    }
  }

  lemma {:induction false} TakeSizedAgrees(m: Market, w: World, atR: real, c: real, start: real)
    requires Good(w.book, start) && Protected(w.pos, w.book) && Sized(w.pos)
    requires c > 0.0 ==> c < w.pos.remaining && CanClose(w.book, w.pos, c) && Placeable(w.pos.leg, w.pos.stop)
    ensures var r := TakeQty(m, w, atR, c);
            && r.Done? && Good(r.w.book, start) && Protected(r.w.pos, r.w.book) && Sized(r.w.pos)
            && Elsewhere(w.book, r.w.book, w.pos.symbol) && r.w.book.last == w.book.last
            && SoldDown(w.pos, r.w.pos, atR, c)
            && (w.pos.direction.Sell? ==>
                  r.w.book.cash == (if c > 0.0 then CashAfterBuy(m, w.pos.symbol, w.book.last[w.pos.symbol],
                                                                 w.book.cash, c)
                                    else w.book.cash))
  {
    TakeQtyAgrees(m, w, atR, c, start);
    SoldDownIsSized(w.pos, TakeQty(m, w, atR, c).w.pos, atR, c);
  }

  /** The exchange leg refuses the sale and raises. */
  predicate Raises(b: Book, p: Position, c: real) {
    c > 0.0 && p.leg.India? && !CanClose(b, p, c)
  }

  /** A sale the agreement survives: of nothing, of less than what remains if it goes
      through, and one that is refused only where the refusal is seen. */
  predicate SaleOk(b: Book, p: Position, c: real) {
    c <= 0.0 || if CanClose(b, p, c) then c < p.remaining else p.leg.India?
  }

  lemma {:induction false} RefusedSale(m: Market, w: World, atR: real, c: real, start: real)
    requires Agreed(w, start) && Raises(w.book, w.pos, c)
    ensures var r := TakeQty(m, w, atR, c);
            r.Raised? && Keeps(w, r.w, start) && r.w.pos == w.pos.(partialsTaken := w.pos.partialsTaken + [atR])
  {
    if Whole(c) {
      RefusedOrder(m, w.book, w.pos.symbol, Closing(w.pos.direction), c, start);
    }
    assert StopOrderOf(w.pos.(partialsTaken := w.pos.partialsTaken + [atR])) == StopOrderOf(w.pos);
  }

  /** A refusal that the MT5 side reports as success: the engine books the sale. */
  lemma {:induction false} SwallowedSale(m: Market, w: World, atR: real, c: real, start: real)
    requires Agreed(w, start) && Placeable(w.pos.leg, w.pos.stop)
    requires !w.pos.leg.India? && 0.0 < c < w.pos.remaining && !CanClose(w.book, w.pos, c)
    ensures var r := TakeQty(m, w, atR, c); r.Done? && Mismatched(r.w)
  {
    var p, b := w.pos, w.book;
    RefusedOrder(m, b, p.symbol, Closing(p.direction), c, start);
    ExitMarketOrder(m, p, b, c);
    var b1 := ExitMarket(m, b, p.leg, p.symbol, c, p.direction).0;
    SoleOrder(b1.open, StopOrderOf(p));
    ServerModifyHeld(b1, p.stopId, p.stop, p.symbol);
  }

  /** Selling everything that remains, or more, as a partial: the old stop stays. */
  lemma {:induction false} OversizedSale(m: Market, w: World, atR: real, c: real)
    requires c >= w.pos.remaining > 0.0 && (w.pos.leg.India? ==> CanClose(w.book, w.pos, c))
    ensures var r := TakeQty(m, w, atR, c); r.Done? && Mismatched(r.w)
  {
  }

  /** A partial sale keeps the agreement if and only if `SaleOk` holds; otherwise it
      returns and the engine has written off more than was sold. */
  lemma {:induction false} SaleAgreesIff(m: Market, w: World, atR: real, c: real, start: real)
    requires Agreed(w, start) && Placeable(w.pos.leg, w.pos.stop)
    ensures var r := TakeQty(m, w, atR, c);
            && (r.Raised? <==> Raises(w.book, w.pos, c))
            && (if SaleOk(w.book, w.pos, c) then Keeps(w, r.w, start) && r.w.pos.stop == w.pos.stop
                else Mismatched(r.w))
  {
    if c > 0.0 {
      if Raises(w.book, w.pos, c) {
        RefusedSale(m, w, atR, c, start);
      } else if c >= w.pos.remaining {
        OversizedSale(m, w, atR, c);
      } else if !CanClose(w.book, w.pos, c) {
        SwallowedSale(m, w, atR, c, start);
      } else {
        TakeSizedAgrees(m, w, atR, c, start);
      }
    } else {
      TakeSizedAgrees(m, w, atR, c, start);
    }
  }

  lemma {:induction false} MarketHeld(m: Market, b: Book, s: Symbol, side: Side, qty: real)
    ensures var b1 := Place(m, b, Payload(s, side, qty, AtMarket)).0;
            Held(b1, s) == Held(b, s) || Held(b1, s) == Held(b, s) + Signed(side, qty)
  {
  }

  lemma {:induction false} SaleStaysLost(m: Market, w: World, atR: real, c: real)
    requires Mismatched(w)
    ensures Mismatched(TakeQty(m, w, atR, c).w)
  {
    if c > 0.0 && w.pos.remaining > 0.0 {
      var p, b := w.pos, w.book;
      MarketHeld(m, b, p.symbol, ClosingAction(b, p.symbol), c);
      var b1 := ExitMarket(m, b, p.leg, p.symbol, c, p.direction).0;
      ServerModifyHeld(b1, p.stopId, p.stop, p.symbol);
    }
  }

  // ---------- the stages of a bar ----------

  predicate Reaches(cfg: Config, p: Position, rNow: real) {
    p.phase == RiskOn && rNow >= cfg.breakevenAtR
  }

  predicate FirstDue(cfg: Config, p: Position, rNow: real) {
    Reaches(cfg, p, rNow) && cfg.partials != [] && cfg.partials[0].atR !in p.partialsTaken
  }

  predicate SecondReached(cfg: Config, p: Position, rNow: real) {
    p.phase == Breakeven && |cfg.partials| > 1 && rNow >= cfg.partials[1].atR
  }

  predicate SecondDue(cfg: Config, p: Position, rNow: real) {
    SecondReached(cfg, p, rNow) && cfg.partials[1].atR !in p.partialsTaken
  }

  /** The bar sets the profit lock. */
  predicate Locks(cfg: Config, p: Position, rNow: real) {
    cfg.profitLock.Some? && !p.profitLocked && rNow >= cfg.profitLock.value.atR
  }

  predicate Trails(p: Position) {
    p.phase == Breakeven || p.phase == Trailing || p.profitLocked
  }

  /** What the first rung, the second, the lock and the trail ask of the broker. */
  predicate FirstOk(cfg: Config, w: World, rNow: real)
    requires w.pos.lot > 0.0
  {
    FirstDue(cfg, w.pos, rNow) ==> SaleOk(w.book, w.pos, Carve(w.pos, Pct(cfg, 0)))
  }

  predicate SecondOk(cfg: Config, w: World, rNow: real)
    requires w.pos.lot > 0.0
  {
    SecondDue(cfg, w.pos, rNow) ==> SaleOk(w.book, w.pos, Carve(w.pos, Pct(cfg, 1)))
  }

  predicate LockOk(cfg: Config, p: Position, rNow: real) {
    Locks(cfg, p, rNow) ==> Settable(cfg, p, LockLevel(p, cfg.profitLock.value.lockR))
  }

  predicate TrailOk(cfg: Config, p: Position, bar: Bar) {
    Trails(p) ==> Settable(cfg, p, Chandelier(p, TrailK(cfg, p, bar)))
  }

  /** The four stages in turn, up to one that raises, are each given what they ask. */
  predicate ManageOk(cfg: Config, m: Market, w: World, bar: Bar)
    requires w.pos.lot > 0.0
  {
    var rNow := RMultiple(w.pos, bar.close);
    var r1 := BreakevenStage(cfg, m, w, rNow);
    && FirstOk(cfg, w, rNow)
    && (r1.Done? ==>
          var r2 := TrailingStage(cfg, m, r1.w, rNow);
          && SecondOk(cfg, r1.w, rNow)
          && (r2.Done? ==> LockOk(cfg, r2.w.pos, rNow) && TrailOk(cfg, LockStage(cfg, r2.w, rNow).w.pos, bar)))
  }

  lemma {:induction false} KeepsTrans(w: World, w1: World, w2: World, start: real)
    requires Keeps(w, w1, start) && Keeps(w1, w2, start)
    ensures Keeps(w, w2, start)
  {
  }

  function InPhase(w: World, next: Phase): World {
    w.(pos := w.pos.(phase := next))
  }

  lemma {:induction false} NextPhaseKeeps(w: World, next: Phase, start: real)
    requires Agreed(w, start) && StopAtEntry(w.pos) && (next == Breakeven || next == Trailing)
    ensures Keeps(w, InPhase(w, next), start)
  {
    assert StopOrderOf(InPhase(w, next).pos) == StopOrderOf(w.pos);
  }

  lemma {:induction false} PlaceableAtEntry(p: Position)
    requires Sized(p) && Stands(p) && StopAtEntry(p)
    ensures Placeable(p.leg, p.stop)
  {
  }

  /** One rung: the sale, then the next phase. */
  lemma {:induction false} RungAgreesIff(m: Market, w: World, partial: Partial, next: Phase, start: real)
    requires Agreed(w, start) && StopAtEntry(w.pos) && (next == Breakeven || next == Trailing)
    ensures var r, c := TakePartial(m, w, partial), Carve(w.pos, partial.pct);
            && (r.Raised? <==> Raises(w.book, w.pos, c))
            && (if SaleOk(w.book, w.pos, c) then Keeps(w, r.w, start) && Keeps(w, InPhase(r.w, next), start)
                else Mismatched(InPhase(r.w, next)))
  {
    PlaceableAtEntry(w.pos);
    SaleAgreesIff(m, w, partial.atR, Carve(w.pos, partial.pct), start);
    if SaleOk(w.book, w.pos, Carve(w.pos, partial.pct)) {
      var w1 := TakePartial(m, w, partial).w;
      NextPhaseKeeps(w1, next, start);
      KeepsTrans(w, w1, InPhase(w1, next), start);
    }
  }

  lemma {:induction false} BreakevenIs(cfg: Config, m: Market, w: World, w1: World, rNow: real)
    requires w.pos.lot > 0.0 && Reaches(cfg, w.pos, rNow)
    requires Ratchet(cfg, w, w.pos.entry, false).Done? && w1 == Ratchet(cfg, w, w.pos.entry, false).w
    ensures var r := BreakevenStage(cfg, m, w, rNow);
            if !FirstDue(cfg, w.pos, rNow) then r.Done? && r.w == InPhase(w1, Breakeven)
            else
              var t := TakePartial(m, w1, cfg.partials[0]);
              r.Done? == t.Done? && r.w == if t.Done? then InPhase(t.w, Breakeven) else t.w
  {
  }

  lemma {:induction false} SameSale(b: Book, p: Position, b1: Book, p1: Position, c: real)
    requires b1.last == b.last && b1.cash == b.cash && p1 == p.(stop := p1.stop)
    ensures SaleOk(b1, p1, c) == SaleOk(b, p, c) && Raises(b1, p1, c) == Raises(b, p, c)
  {
  }

  lemma {:induction false} BreakevenAgreesIff(cfg: Config, m: Market, w: World, rNow: real, start: real)
    requires Agreed(w, start)
    ensures var r := BreakevenStage(cfg, m, w, rNow);
            && (r.Raised? <==> FirstDue(cfg, w.pos, rNow) && Raises(w.book, w.pos, Carve(w.pos, Pct(cfg, 0))))
            && (if FirstOk(cfg, w, rNow) then Keeps(w, r.w, start) else Mismatched(r.w))
  {
    if Reaches(cfg, w.pos, rNow) {
      var w1 := Ratchet(cfg, w, w.pos.entry, false).w;
      RatchetKeeps(cfg, w, w.pos.entry, start);
      BreakevenIs(cfg, m, w, w1, rNow);
      if FirstDue(cfg, w.pos, rNow) {
        SameSale(w.book, w.pos, w1.book, w1.pos, Carve(w.pos, Pct(cfg, 0)));
        FirstRung(cfg, m, w, w1, start);
      } else {
        NextPhaseKeeps(w1, Breakeven, start);
        KeepsTrans(w, w1, InPhase(w1, Breakeven), start);
      }
    }
  }

  lemma {:induction false} FirstRung(cfg: Config, m: Market, w: World, w1: World, start: real)
    requires Keeps(w, w1, start) && StopAtEntry(w1.pos) && cfg.partials != []
    ensures var t, c := TakePartial(m, w1, cfg.partials[0]), Carve(w1.pos, Pct(cfg, 0));
            && (t.Raised? <==> Raises(w1.book, w1.pos, c))
            && (if SaleOk(w1.book, w1.pos, c) then Keeps(w, t.w, start) && Keeps(w, InPhase(t.w, Breakeven), start)
                else Mismatched(InPhase(t.w, Breakeven)))
  {
    RungAgreesIff(m, w1, cfg.partials[0], Breakeven, start);
    var t := TakePartial(m, w1, cfg.partials[0]);
    if SaleOk(w1.book, w1.pos, Carve(w1.pos, Pct(cfg, 0))) {
      KeepsTrans(w, w1, t.w, start);
      KeepsTrans(w, w1, InPhase(t.w, Breakeven), start);
    }
  }

  lemma {:induction false} TrailingAgreesIff(cfg: Config, m: Market, w: World, rNow: real, start: real)
    requires Agreed(w, start)
    ensures var r := TrailingStage(cfg, m, w, rNow);
            && (r.Raised? <==> SecondDue(cfg, w.pos, rNow) && Raises(w.book, w.pos, Carve(w.pos, Pct(cfg, 1))))
            && (if SecondOk(cfg, w, rNow) then Keeps(w, r.w, start) else Mismatched(r.w))
  {
    if SecondDue(cfg, w.pos, rNow) {
      RungAgreesIff(m, w, cfg.partials[1], Trailing, start);
    } else if SecondReached(cfg, w.pos, rNow) {
      NextPhaseKeeps(w, Trailing, start);
    }
  }

  lemma {:induction false} TrailingStaysLost(cfg: Config, m: Market, w: World, rNow: real)
    requires w.pos.lot > 0.0 && Mismatched(w)
    ensures Mismatched(TrailingStage(cfg, m, w, rNow).w)
  {
    if SecondDue(cfg, w.pos, rNow) {
      SaleStaysLost(m, w, cfg.partials[1].atR, Carve(w.pos, cfg.partials[1].pct));
    }
  }

  lemma {:induction false} LockAgreesIff(cfg: Config, w: World, rNow: real, start: real)
    requires Agreed(w, start)
    ensures var r := LockStage(cfg, w, rNow);
            r.Done? && if LockOk(cfg, w.pos, rNow) then Keeps(w, r.w, start) else Naked(r.w)
  {
    if Locks(cfg, w.pos, rNow) {
      var level := LockLevel(w.pos, cfg.profitLock.value.lockR);
      RatchetKeeps(cfg, w, level, start);
      var w1 := Ratchet(cfg, w, level, false).w;
      assert StopOrderOf(w1.pos.(profitLocked := true)) == StopOrderOf(w1.pos);
    }
  }

  lemma {:induction false} LockStaysLost(cfg: Config, w: World, rNow: real)
    ensures var w1 := LockStage(cfg, w, rNow).w; (Mismatched(w) ==> Mismatched(w1)) && (Naked(w) ==> Naked(w1))
  {
    if Locks(cfg, w.pos, rNow) {
      RatchetStaysLost(cfg, w, LockLevel(w.pos, cfg.profitLock.value.lockR));
    }
  }

  lemma {:induction false} ChandelierAgreesIff(cfg: Config, w: World, bar: Bar, start: real)
    requires Agreed(w, start)
    ensures var r := ChandelierStage(cfg, w, bar);
            r.Done? && if TrailOk(cfg, w.pos, bar) then Keeps(w, r.w, start) else Naked(r.w)
  {
    if Trails(w.pos) {
      RatchetKeeps(cfg, w, Chandelier(w.pos, TrailK(cfg, w.pos, bar)), start);
    }
  }

  lemma {:induction false} ChandelierStaysLost(cfg: Config, w: World, bar: Bar)
    ensures var w1 := ChandelierStage(cfg, w, bar).w; (Mismatched(w) ==> Mismatched(w1)) && (Naked(w) ==> Naked(w1))
  {
    if Trails(w.pos) {
      RatchetStaysLost(cfg, w, Chandelier(w.pos, TrailK(cfg, w.pos, bar)));
    }
  }

  /** Where a managed bar ends. */
  lemma {:induction false} ManageEnds(cfg: Config, m: Market, w: World, bar: Bar)
    requires w.pos.lot > 0.0
    ensures var r, rNow := Manage(cfg, m, w, bar), RMultiple(w.pos, bar.close);
            var r1 := BreakevenStage(cfg, m, w, rNow);
            var r2 := TrailingStage(cfg, m, r1.w, rNow);
            var r3 := LockStage(cfg, r2.w, rNow);
            var r4 := ChandelierStage(cfg, r3.w, bar);
            if r1.Raised? then r == Raised(r1.w)
            else if r2.Raised? then r == Raised(r2.w)
            else if r3.Raised? then r == Raised(r3.w)
            else r.w == r4.w && r.Done? == r4.Done?
  {
  }

  /** The last two stages, where nothing is sold. */
  lemma {:induction false} TailAgreesIff(cfg: Config, w: World, rNow: real, bar: Bar, start: real)
    requires Agreed(w, start)
    ensures var r3 := LockStage(cfg, w, rNow);
            var r4 := ChandelierStage(cfg, r3.w, bar);
            && r3.Done?
            && (if LockOk(cfg, w.pos, rNow) && TrailOk(cfg, r3.w.pos, bar) then r4.Done? && Keeps(w, r4.w, start)
                else Naked(r4.w))
  {
    LockAgreesIff(cfg, w, rNow, start);
    var w3 := LockStage(cfg, w, rNow).w;
    ChandelierStaysLost(cfg, w3, bar);
    if LockOk(cfg, w.pos, rNow) {
      ChandelierAgreesIff(cfg, w3, bar, start);
      if TrailOk(cfg, w3.pos, bar) {
        KeepsTrans(w, w3, ChandelierStage(cfg, w3, bar).w, start);
      }
    }
  }

  lemma {:induction false} TailStaysLost(cfg: Config, w: World, rNow: real, bar: Bar)
    requires Mismatched(w)
    ensures var r3 := LockStage(cfg, w, rNow);
            Mismatched(r3.w) && Mismatched(ChandelierStage(cfg, r3.w, bar).w)
  {
    LockStaysLost(cfg, w, rNow);
    ChandelierStaysLost(cfg, LockStage(cfg, w, rNow).w, bar);
  }

  /** A managed bar - breakeven, second rung, lock and trail together - keeps the
      agreement if and only if `ManageOk` holds, and then raises only where the
      exchange leg refuses a partial. Otherwise the broker holds more than the
      engine knows, or the position has lost its stop. */
  lemma {:induction false} ManageAgreesIff(cfg: Config, m: Market, w: World, bar: Bar, start: real)
    requires Agreed(w, start)
    ensures var r := Manage(cfg, m, w, bar);
            if ManageOk(cfg, m, w, bar) then Keeps(w, r.w, start) && (r.Raised? ==> w.pos.leg.India?)
            else Mismatched(r.w) || Naked(r.w)
  {
    var rNow := RMultiple(w.pos, bar.close);
    var r1 := BreakevenStage(cfg, m, w, rNow);
    ManageEnds(cfg, m, w, bar);
    BreakevenAgreesIff(cfg, m, w, rNow, start);
    if !FirstOk(cfg, w, rNow) {
      TrailingStaysLost(cfg, m, r1.w, rNow);
      TailStaysLost(cfg, TrailingStage(cfg, m, r1.w, rNow).w, rNow, bar);
    } else if r1.Done? {
      LaterStagesAgreeIff(cfg, m, w, r1.w, rNow, bar, start);
    }
  }

  lemma {:induction false} LaterStagesAgreeIff(cfg: Config, m: Market, w: World, w1: World, rNow: real, bar: Bar,
                                               start: real)
    requires Keeps(w, w1, start)
    ensures var r2 := TrailingStage(cfg, m, w1, rNow);
            var r3 := LockStage(cfg, r2.w, rNow);
            var r4 := ChandelierStage(cfg, r3.w, bar);
            var ok := r2.Done? ==> LockOk(cfg, r2.w.pos, rNow) && TrailOk(cfg, r3.w.pos, bar);
            if SecondOk(cfg, w1, rNow) && ok then
              if r2.Raised? then Keeps(w, r2.w, start) && w.pos.leg.India?
              else r3.Done? && r4.Done? && Keeps(w, r4.w, start)
            else r2.Done? && (Mismatched(r3.w) || r3.Done?) && (Mismatched(r4.w) || Naked(r4.w))
  {
    TrailingAgreesIff(cfg, m, w1, rNow, start);
    var r2 := TrailingStage(cfg, m, w1, rNow);
    if !SecondOk(cfg, w1, rNow) {
      TailStaysLost(cfg, r2.w, rNow, bar);
    } else {
      KeepsTrans(w, w1, r2.w, start);
      TailAgreesIff(cfg, r2.w, rNow, bar, start);
      var w4 := ChandelierStage(cfg, LockStage(cfg, r2.w, rNow).w, bar).w;
      if LockOk(cfg, r2.w.pos, rNow) && TrailOk(cfg, LockStage(cfg, r2.w, rNow).w.pos, bar) {
        KeepsTrans(w, r2.w, w4, start);
      }
    }
  }
}
