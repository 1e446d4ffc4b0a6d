/** An order id that has fired, filled or been cancelled stays used up, whatever
    the engine does to the broker afterwards and whether or not a call fails. */
module UsedIds {
  import opened Basics
  import opened PaperBroker
  import opened StopAdapters
  import opened Ledger
  import opened ExitEngine

  /** Used-up order ids stay used up. */
  ghost predicate StaysDead(b: Book, b1: Book) {
    forall id :: Dead(b, id) ==> Dead(b1, id)
  }

  lemma {:induction false} OpStaysDead(m: Market, b: Book, op: Op, b1: Book)
    requires b1 == Apply1(m, b, op)
    ensures StaysDead(b, b1)
  {
    forall id | Dead(b, id)
      ensures Dead(b1, id)
    {
      OpNeverRevives(m, b, op, id);
    }
  }

  lemma {:induction false} Chain(b: Book, b1: Book, b2: Book)
    requires StaysDead(b, b1) && StaysDead(b1, b2)
    ensures StaysDead(b, b2)
  {
  }

  // ---------- the adapters ----------

  lemma {:induction false} ServerModifyStaysDead(m: Market, b: Book, id: nat, sl: real)
    ensures StaysDead(b, ServerModify(b, id, sl).0)
  {
    var b1 := Modify(b, id, sl).0;
    OpStaysDead(m, b, CancelOp(id), Cancel(b, id).0);
    OpStaysDead(m, b, ModifyOp(id, sl), b1);
    OpStaysDead(m, b1, SyncOp(id), SyncQty(b1, id));
    Chain(b, b1, SyncQty(b1, id));
  }

  lemma {:induction false} PlaceStaysDead(m: Market, b: Book, p: Payload)
    ensures StaysDead(b, Place(m, b, p).0)
  {
    OpStaysDead(m, b, PlaceOp(p), Place(m, b, p).0);
  }

  lemma {:induction false} PlaceStopStaysDead(m: Market, b: Book, leg: Leg, s: Symbol, qty: real, trigger: real,
                                              direction: Side)
    ensures StaysDead(b, PlaceStop(m, b, leg, s, qty, trigger, direction).0)
  {
    PlaceStaysDead(m, b, Payload(s, Closing(direction), qty, StopMarket(trigger)));
    PlaceStaysDead(m, b, Payload(s, ClosingAction(b, s), qty, StopMarket(trigger)));
  }

  lemma {:induction false} ModifyStopStaysDead(m: Market, b: Book, leg: Leg, id: nat, trigger: real)
    ensures StaysDead(b, ModifyStop(b, leg, id, trigger).0)
  {
    OpStaysDead(m, b, ModifyOp(id, trigger), Modify(b, id, trigger).0);
    ServerModifyStaysDead(m, b, id, trigger);
  }

  lemma {:induction false} CancelStopStaysDead(m: Market, b: Book, leg: Leg, id: nat)
    ensures StaysDead(b, CancelStop(b, leg, id).0)
  {
    OpStaysDead(m, b, CancelOp(id), Cancel(b, id).0);
    ServerModifyStaysDead(m, b, id, 0.0);
  }

  lemma {:induction false} ReplaceStopStaysDead(m: Market, b: Book, leg: Leg, oldId: nat, s: Symbol, qty: real,
                                                trigger: real, direction: Side)
    ensures StaysDead(b, ReplaceStop(m, b, leg, oldId, s, qty, trigger, direction).0)
  {
    var b1 := CancelStop(b, leg, oldId).0;
    CancelStopStaysDead(m, b, leg, oldId);
    PlaceStopStaysDead(m, b1, leg, s, qty, trigger, direction);
    Chain(b, b1, PlaceStop(m, b1, leg, s, qty, trigger, direction).0);
    ServerModifyStaysDead(m, b, oldId, trigger);
  }

  lemma {:induction false} ExitMarketStaysDead(m: Market, b: Book, leg: Leg, s: Symbol, qty: real, direction: Side)
    ensures StaysDead(b, ExitMarket(m, b, leg, s, qty, direction).0)
  {
    PlaceStaysDead(m, b, Payload(s, Closing(direction), qty, AtMarket));
    PlaceStaysDead(m, b, Payload(s, ClosingAction(b, s), qty, AtMarket));
  }

  // ---------- the engine ----------

  lemma {:induction false} RatchetStaysDead(cfg: Config, m: Market, w: World, candidate: real, force: bool)
    ensures StaysDead(w.book, Ratchet(cfg, w, candidate, force).w.book)
  {
    ModifyStopStaysDead(m, w.book, w.pos.leg, w.pos.stopId, candidate);
  }

  lemma {:induction false} TakeQtyStaysDead(m: Market, w: World, atR: real, qty: real)
    ensures StaysDead(w.book, TakeQty(m, w, atR, qty).w.book)
  {
    var p := w.pos;
    var rest := Max(0.0, p.remaining - qty);
    var b1 := ExitMarket(m, w.book, p.leg, p.symbol, qty, p.direction).0;
    var b2 := ReplaceStop(m, b1, p.leg, p.stopId, p.symbol, rest, p.stop, p.direction).0;
    ExitMarketStaysDead(m, w.book, p.leg, p.symbol, qty, p.direction);
    ReplaceStopStaysDead(m, b1, p.leg, p.stopId, p.symbol, rest, p.stop, p.direction);
    Chain(w.book, b1, b2);
  }

  lemma {:induction false} ExitStaysDead(m: Market, w: World, price: real, reason: ExitReason)
    requires w.pos.lot > 0.0
    ensures StaysDead(w.book, Exit(m, w, price, reason).w.book)
  {
    var p := w.pos;
    var qty := FloorLot(p.remaining, p.lot);
    var b1 := CancelStop(w.book, p.leg, p.stopId).0;
    CancelStopStaysDead(m, w.book, p.leg, p.stopId);
    ExitMarketStaysDead(m, b1, p.leg, p.symbol, qty, p.direction);
    Chain(w.book, b1, ExitMarket(m, b1, p.leg, p.symbol, qty, p.direction).0);
  }

  lemma {:induction false} BreakevenStaysDead(cfg: Config, m: Market, w: World, rNow: real)
    requires w.pos.lot > 0.0
    ensures StaysDead(w.book, BreakevenStage(cfg, m, w, rNow).w.book)
  {
    var w1 := Ratchet(cfg, w, w.pos.entry, false).w;
    RatchetStaysDead(cfg, m, w, w.pos.entry, false);
    if cfg.partials != [] {
      var c := Carve(w1.pos, cfg.partials[0].pct);
      TakeQtyStaysDead(m, w1, cfg.partials[0].atR, c);
      Chain(w.book, w1.book, TakeQty(m, w1, cfg.partials[0].atR, c).w.book);
    }
  }

  lemma {:induction false} TrailingStaysDead(cfg: Config, m: Market, w: World, rNow: real)
    requires w.pos.lot > 0.0
    ensures StaysDead(w.book, TrailingStage(cfg, m, w, rNow).w.book)
  {
    if |cfg.partials| > 1 {
      TakeQtyStaysDead(m, w, cfg.partials[1].atR, Carve(w.pos, cfg.partials[1].pct));
    }
  }

  lemma {:induction false} LockStaysDead(cfg: Config, m: Market, w: World, rNow: real)
    ensures StaysDead(w.book, LockStage(cfg, w, rNow).w.book)
  {
    if cfg.profitLock.Some? {
      RatchetStaysDead(cfg, m, w, LockLevel(w.pos, cfg.profitLock.value.lockR), false);
    }
  }

  lemma {:induction false} ManageStaysDead(cfg: Config, m: Market, w: World, bar: Bar)
    requires w.pos.lot > 0.0
    ensures StaysDead(w.book, Manage(cfg, m, w, bar).w.book)
  {
    var rNow := RMultiple(w.pos, bar.close);
    var r1 := BreakevenStage(cfg, m, w, rNow);
    BreakevenStaysDead(cfg, m, w, rNow);
    if r1.Done? {
      var r2 := TrailingStage(cfg, m, r1.w, rNow);
      TrailingStaysDead(cfg, m, r1.w, rNow);
      Chain(w.book, r1.w.book, r2.w.book);
      if r2.Done? {
        var r3 := LockStage(cfg, r2.w, rNow);
        LockStaysDead(cfg, m, r2.w, rNow);
        Chain(w.book, r2.w.book, r3.w.book);
        if r3.Done? {
          var level := Chandelier(r3.w.pos, TrailK(cfg, r3.w.pos, bar));
          RatchetStaysDead(cfg, m, r3.w, level, false);
          Chain(w.book, r3.w.book, Ratchet(cfg, r3.w, level, false).w.book);
        }
      }
    }
  }

  /** No bar brings a used-up order id back. */
  lemma {:induction false} BarStaysDead(cfg: Config, m: Market, w: World, bar: Bar)
    requires w.pos.lot > 0.0
    ensures StaysDead(w.book, OnBar(cfg, m, w, bar).w.book)
  {
    var w1 := w.(pos := Observe(w.pos, bar));
    if Manages(cfg, w.pos, bar) {
      ManagingBar(cfg, m, w, bar);
      ManageStaysDead(cfg, m, w1, bar);
    } else {
      ExitingBar(cfg, m, w, bar);
      ExitStaysDead(m, w, bar.close, WeekendFlatten);
      ExitStaysDead(m, w, w.pos.stop, StopHit);
      ExitStaysDead(m, w1, bar.close, TimeStop);
    }
  }

  lemma {:induction false} AttachStaysDead(cfg: Config, m: Market, b: Book, s: Symbol, direction: Side, entry: real,
                                           qty: real, atr: real, leg: Leg, structure: Option<real>, lot: real)
    ensures StaysDead(b, Attach(cfg, m, b, s, direction, entry, qty, atr, leg, structure, lot).0)
  {
    PlaceStopStaysDead(m, b, leg, s, qty, InitialStop(cfg, direction, entry, atr, leg, structure), direction);
  }
}
