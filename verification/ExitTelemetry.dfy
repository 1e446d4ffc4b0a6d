/** The exit report over the life of a position that is only driven by bars: a
    stop hit or a time stop never claims more than the best excursion, and a
    stop hit never loses more than the initial risk. */
module ExitTelemetry {
  import opened Basics
  import opened PaperBroker
  import opened StopAdapters
  import opened ExitEngine
  import opened ConfiguredLadder

  /** Bars one after the other; a bar that raised leaves what it had changed. */
  function Bars(cfg: Config, m: Market, w: World, bars: seq<Bar>): (r: World)
    requires w.pos.lot > 0.0
    ensures SameTrade(w.pos, r.pos)
  {
    if bars == [] then w else OnBar(cfg, m, Bars(cfg, m, w, bars[..|bars| - 1]), bars[|bars| - 1]).w
  }

  /** a is at least as good an exit price as b. */
  predicate AtLeast(p: Position, a: real, b: real) {
    if p.direction.Buy? then a >= b else a <= b
  }

  /** The price at which the initial risk is lost. */
  function InitialLevel(p: Position): real {
    if p.direction.Buy? then p.entry - p.rValue else p.entry + p.rValue
  }

  predicate Ordered(p: Position) {
    p.rValue >= 0.0 && AtLeast(p, p.extreme, p.entry) && AtLeast(p, p.extreme, p.stop)
    && AtLeast(p, p.stop, InitialLevel(p)) && p.atr > 0.0
  }

  /** What the report of an exited position says, by reason. */
  predicate ReportBounds(t: Telemetry) {
    && (t.reason.StopHit? ==> -1.0 <= t.realizedR)
    && (t.reason.StopHit? || t.reason.TimeStop? ==> t.realizedR <= t.mfeR && t.capturedPct <= 100.0)
  }

  predicate Sound(p: Position) {
    Ordered(p) && (p.phase == Exited ==> p.telemetry.Some? && ReportBounds(p.telemetry.value))
  }

  predicate Regular(bar: Bar) {
    bar.low <= bar.close <= bar.high
  }

  lemma {:induction false} RMonotone(p: Position, a: real, b: real)
    requires p.rValue >= 0.0 && AtLeast(p, a, b)
    ensures RMultiple(p, a) >= RMultiple(p, b)
  {
    if p.rValue > 0.0 {
      if p.direction.Buy? {
        DivMono(b - p.entry, a - p.entry, p.rValue);
      } else {
        DivMono(p.entry - b, p.entry - a, p.rValue);
      }
    }
  }

  lemma {:induction false} RAtInitialLevel(p: Position)
    requires p.rValue >= 0.0
    ensures RMultiple(p, InitialLevel(p)) >= -1.0
  {
    if p.rValue > 0.0 {
      DivMul(-1.0, p.rValue);
      assert -p.rValue == -1.0 * p.rValue;
    }
  }

  lemma {:induction false} CaptureBound(realized: real, mfe: real)
    requires mfe > 0.0 && realized <= mfe
    ensures realized / mfe * 100.0 <= 100.0
  {
    DivMono(realized, mfe, mfe);
  }

  lemma {:induction false} CaptureAbove(realized: real, mfe: real)
    requires mfe > 0.0 && realized > mfe
    ensures realized / mfe * 100.0 > 100.0
  {
    DivMul(realized, mfe);
    if realized / mfe <= 1.0 {
      MulMono(realized / mfe, 1.0, mfe);
      assert false;
    }
  }

  /** An exit at a price no better than the extreme reports within bounds. */
  lemma {:induction false} ReportWithin(p: Position, price: real, reason: ExitReason)
    requires Ordered(p) && AtLeast(p, p.extreme, price)
    requires reason.StopHit? ==> AtLeast(p, price, InitialLevel(p))
    ensures ReportBounds(Report(p, price, reason))
    ensures Report(p, price, reason).realizedR <= Report(p, price, reason).mfeR
  {
    RMonotone(p, p.extreme, price);
    if reason.StopHit? {
      RMonotone(p, price, InitialLevel(p));
      RAtInitialLevel(p);
    }
    var mfe, realized := RMultiple(p, p.extreme), RMultiple(p, price);
    if mfe > 0.0 {
      CaptureBound(realized, mfe);
    }
  }

  // ---------- stages ----------

  lemma {:induction false} RatchetOrdered(cfg: Config, w: World, candidate: real)
    requires Ordered(w.pos) && AtLeast(w.pos, w.pos.extreme, candidate)
    ensures Ordered(Ratchet(cfg, w, candidate, false).w.pos)
  {
  }

  lemma {:induction false} LockWithinExtreme(p: Position, close: real, lockR: real)
    requires Ordered(p) && AtLeast(p, p.extreme, close) && lockR <= RMultiple(p, close)
    ensures AtLeast(p, p.extreme, LockLevel(p, lockR))
  {
    if p.rValue > 0.0 {
      LockNotBeyond(if p.direction.Buy? then close - p.entry else p.entry - close, p.rValue, lockR);
    }
  }

  /** Apart from the stop, the phase moves neither the extreme nor the report. */
  predicate SameView(p: Position, q: Position) {
    SameTrade(p, q) && q.extreme == p.extreme && q.telemetry == p.telemetry && (p.phase != Exited ==> q.phase != Exited)
  }

  lemma {:induction false} BreakevenOrdered(cfg: Config, m: Market, w: World, rNow: real)
    requires w.pos.lot > 0.0 && Ordered(w.pos)
    ensures var r := BreakevenStage(cfg, m, w, rNow); Ordered(r.w.pos) && SameView(w.pos, r.w.pos)
  {
    RatchetOrdered(cfg, w, w.pos.entry);
    var r := Ratchet(cfg, w, w.pos.entry, false);
    if r.Done? && cfg.partials != [] {
      PartialOrdered(m, r.w, cfg.partials[0]);
    }
  }

  lemma {:induction false} PartialOrdered(m: Market, w: World, partial: Partial)
    requires w.pos.lot > 0.0 && Ordered(w.pos)
    ensures var r := TakePartial(m, w, partial);
            Ordered(r.w.pos) && SameView(w.pos, r.w.pos) && r.w.pos.phase == w.pos.phase
  {
  }

  lemma {:induction false} TrailingOrdered(cfg: Config, m: Market, w: World, rNow: real)
    requires w.pos.lot > 0.0 && Ordered(w.pos)
    ensures var r := TrailingStage(cfg, m, w, rNow); Ordered(r.w.pos) && SameView(w.pos, r.w.pos)
  {
    if |cfg.partials| > 1 {
      PartialOrdered(m, w, cfg.partials[1]);
    }
  }

  lemma {:induction false} ChandelierOrdered(cfg: Config, w: World, bar: Bar)
    requires Ordered(w.pos) && Mild(cfg)
    ensures var r := ChandelierStage(cfg, w, bar); Ordered(r.w.pos) && SameView(w.pos, r.w.pos)
  {
    var k := TrailK(cfg, w.pos, bar);
    TrailNotNegative(cfg, w.pos, bar);
    MulMono(0.0, k, w.pos.atr);
    RatchetOrdered(cfg, w, Chandelier(w.pos, k));
  }

  lemma {:induction false} ManageOrdered(cfg: Config, m: Market, w: World, bar: Bar)
    requires w.pos.lot > 0.0 && Ordered(w.pos) && Mild(cfg) && AtLeast(w.pos, w.pos.extreme, bar.close)
    ensures var r := Manage(cfg, m, w, bar); Ordered(r.w.pos) && SameView(w.pos, r.w.pos)
  {
    var rNow := RMultiple(w.pos, bar.close);
    BreakevenOrdered(cfg, m, w, rNow);
    var r1 := BreakevenStage(cfg, m, w, rNow);
    if r1.Done? {
      TrailingOrdered(cfg, m, r1.w, rNow);
      var r2 := TrailingStage(cfg, m, r1.w, rNow);
      SameR(w.pos, r2.w.pos, bar.close);
      if r2.Done? {
        LockOrdered(cfg, r2.w, bar.close, rNow);
        var r3 := LockStage(cfg, r2.w, rNow);
        if r3.Done? {
          ChandelierOrdered(cfg, r3.w, bar);
        }
      }
    }
  }

  lemma {:induction false} LockOrdered(cfg: Config, w: World, close: real, rNow: real)
    requires Ordered(w.pos) && Mild(cfg) && AtLeast(w.pos, w.pos.extreme, close)
    requires rNow == RMultiple(w.pos, close)
    ensures var r := LockStage(cfg, w, rNow); Ordered(r.w.pos) && SameView(w.pos, r.w.pos)
  {
    if cfg.profitLock.Some? && rNow >= cfg.profitLock.value.atR {
      var lockR := cfg.profitLock.value.lockR;
      LockWithinExtreme(w.pos, close, lockR);
      RatchetOrdered(cfg, w, LockLevel(w.pos, lockR));
    }
  }

  lemma {:induction false} ExitSound(m: Market, w: World, price: real, reason: ExitReason)
    requires w.pos.lot > 0.0 && Ordered(w.pos)
    requires reason.StopHit? || reason.TimeStop? ==> AtLeast(w.pos, w.pos.extreme, price)
    requires reason.StopHit? ==> AtLeast(w.pos, price, InitialLevel(w.pos))
    ensures Sound(Exit(m, w, price, reason).w.pos)
  {
    ExitReports(m, w, price, reason);
    if reason.StopHit? || reason.TimeStop? {
      ReportWithin(w.pos, price, reason);
    }
  }

  lemma {:induction false} ObserveOrdered(p: Position, bar: Bar)
    requires Ordered(p) && Regular(bar)
    ensures Ordered(Observe(p, bar)) && AtLeast(p, Observe(p, bar).extreme, bar.close)
  {
  }

  lemma {:induction false} BarSound(cfg: Config, m: Market, w: World, bar: Bar)
    requires w.pos.lot > 0.0 && Sound(w.pos) && Mild(cfg) && Regular(bar)
    ensures Sound(OnBar(cfg, m, w, bar).w.pos)
  {
    var w1 := w.(pos := Observe(w.pos, bar));
    ObserveOrdered(w.pos, bar);
    if Manages(cfg, w.pos, bar) {
      ManagingBar(cfg, m, w, bar);
      ManageOrdered(cfg, m, w1, bar);
    } else {
      ExitingBar(cfg, m, w, bar);
      ExitSound(m, w, bar.close, WeekendFlatten);
      ExitSound(m, w, w.pos.stop, StopHit);
      ExitSound(m, w1, bar.close, TimeStop);
    }
  }

  /** From attach on, over any regular bars and whatever the broker answers: the
      stop stays between the initial level and the extreme; a stop hit or time
      stop reports at most the best excursion (captured at most 100 percent) and
      a stop hit never worse than -1R. */
  lemma {:induction false} ReportsAreBounded(cfg: Config, m: Market, w: World, bars: seq<Bar>)
    requires w.pos.lot > 0.0 && Sound(w.pos) && Mild(cfg)
    requires forall b :: b in bars ==> Regular(b)
    ensures Sound(Bars(cfg, m, w, bars).pos)
  {
    if bars != [] {
      ReportsAreBounded(cfg, m, w, bars[..|bars| - 1]);
      BarSound(cfg, m, Bars(cfg, m, w, bars[..|bars| - 1]), bars[|bars| - 1]);
    }
  }

  /** A freshly attached position qualifies when its stop is on the losing side. */
  lemma {:induction false} AttachedIsSound(s: Symbol, direction: Side, entry: real, qty: real, atr: real, leg: Leg,
                                           lot: real, stop: real, id: nat)
    requires atr > 0.0 && (if direction.Buy? then stop <= entry else stop >= entry)
    ensures Sound(Attached(s, direction, entry, qty, atr, leg, lot, stop, id))
  {
  }

  /** The weekend flatten is reported before the bar's extremes are taken in, so
      it can claim more than the best excursion: exactly when the close is beyond
      the extreme seen so far. */
  lemma {:induction false} WeekendReportWithinIff(cfg: Config, m: Market, w: World, bar: Bar)
    requires w.pos.lot > 0.0 && Ordered(w.pos) && w.pos.rValue > 0.0 && w.pos.phase != Exited
    requires FlattensOn(cfg, w.pos, bar) && bar.low <= bar.high
    ensures var t := OnBar(cfg, m, w, bar).w.pos.telemetry;
            && t.Some?
            && (t.value.realizedR <= t.value.mfeR <==> AtLeast(w.pos, w.pos.extreme, bar.close))
            && (t.value.mfeR > 0.0 ==>
                  (t.value.capturedPct <= 100.0 <==> AtLeast(w.pos, w.pos.extreme, bar.close)))
  {
    var p := w.pos;
    if AtLeast(p, p.extreme, bar.close) {
      RMonotone(p, p.extreme, bar.close);
    } else {
      StrictlyBetter(p, bar.close, p.extreme);
    }
    var mfe, realized := RMultiple(p, p.extreme), RMultiple(p, bar.close);
    if mfe > 0.0 {
      if realized <= mfe {
        CaptureBound(realized, mfe);
      } else {
        CaptureAbove(realized, mfe);
      }
    }
  }

  lemma {:induction false} StrictlyBetter(p: Position, a: real, b: real)
    requires p.rValue > 0.0 && !AtLeast(p, b, a)
    ensures RMultiple(p, a) > RMultiple(p, b)
  {
    var x := if p.direction.Buy? then a - p.entry else p.entry - a;
    var y := if p.direction.Buy? then b - p.entry else p.entry - b;
    DivMul(x, p.rValue);
    DivMul(y, p.rValue);
    if x / p.rValue <= y / p.rValue {
      MulMono(x / p.rValue, y / p.rValue, p.rValue);
      assert false;
    }
  }
}
