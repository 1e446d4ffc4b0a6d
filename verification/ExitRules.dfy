/** The exit rules, each stated on what an attach or a bar leaves behind and with
    every number written out in the inputs: where a stop starts, when a bar exits
    and what it reports, what the ladder sells, and where the stop ends up. */
module ExitRules {
  import opened Basics
  import opened PaperBroker
  import opened StopAdapters
  import opened ExitEngine
  import opened Agreement
  import BarWindows

  function Sign(direction: Side): real {
    if direction.Buy? then 1.0 else -1.0
  }

  /** x is nearer to profit than y. */
  predicate Better(direction: Side, x: real, y: real) {
    if direction.Buy? then x > y else x < y
  }

  // ---------- attach ----------

  /** A distance from entry to stop that is the larger of the two candidates: k ATRs
      and, if there is a structure level, its distance. */
  predicate IsWidest(entry: real, k: real, atr: real, structure: Option<real>, dist: real) {
    && dist >= k * atr
    && (structure.Some? ==> dist >= entry - structure.value && dist >= structure.value - entry)
    && (dist == k * atr
        || (structure.Some? && (dist == entry - structure.value || dist == structure.value - entry)))
  }

  lemma {:induction false} InitialStopRule(cfg: Config, direction: Side, entry: real, atr: real, leg: Leg,
                                           structure: Option<real>)
    ensures var dist := Sign(direction) * (entry - InitialStop(cfg, direction, entry, atr, leg, structure));
            IsWidest(entry, cfg.kSlInitial(leg), atr, structure, dist)
  {
  }

  /** Attach succeeds exactly on positive inputs (and whole quantities on the exchange
      leg). The stop is as far on the losing side as the larger of k_sl ATRs and the
      structure level's distance, and that is the order that rests. */
  lemma {:induction false} AttachRule(cfg: Config, m: Market, b: Book, s: Symbol, direction: Side, entry: real,
                                      qty: real, atr: real, leg: Leg, structure: Option<real>, lot: real)
    ensures var (b1, p) := Attach(cfg, m, b, s, direction, entry, qty, atr, leg, structure, lot);
            && (p.Some? <==> entry > 0.0 && qty > 0.0 && atr > 0.0 && lot > 0.0
                             && (leg.India? ==> qty == qty.Floor as real))
            && (p.None? ==> b1 == b)
            && (p.Some? ==>
                  var q, dist := p.value, Sign(direction) * (entry - p.value.stop);
                  && IsWidest(entry, cfg.kSlInitial(leg), atr, structure, dist)
                  && (cfg.kSlInitial(leg) >= 0.0 ==> q.rValue == dist >= 0.0)
                  && q == Position(s, direction, entry, qty, atr, leg, q.stop, q.rValue, b.nextId, RiskOn, entry, 0, [],
                                   qty, lot, false, None)
                  && |b1.open| == |b.open| + 1 && b1.open[..|b.open|] == b.open
                  && var o := b1.open[|b.open|];
                     o.id == b.nextId && o.symbol == s && o.qty == qty && o.trigger == q.stop)
  {
    InitialStopRule(cfg, direction, entry, atr, leg, structure);
    if atr > 0.0 {
      MulSign(cfg.kSlInitial(leg), atr);
    }
  }

  lemma {:induction false} MulSign(k: real, atr: real)
    requires atr > 0.0
    ensures k >= 0.0 ==> k * atr >= 0.0
  {
    if k >= 0.0 {
      MulMono(0.0, k, atr);
    }
  }

  // ---------- R multiples ----------

  /** The price is at least r times the initial risk in profit. */
  predicate AtLeastR(p: Position, price: real, r: real) {
    if p.rValue == 0.0 then r <= 0.0 else Sign(p.direction) * (price - p.entry) >= r * p.rValue
  }

  lemma {:induction false} RMultipleIs(p: Position, price: real)
    ensures p.rValue != 0.0 ==> RMultiple(p, price) * p.rValue == Sign(p.direction) * (price - p.entry)
    ensures p.rValue == 0.0 ==> RMultiple(p, price) == 0.0
  {
    if p.rValue != 0.0 {
      DivMul(Sign(p.direction) * (price - p.entry), p.rValue);
    }
  }

  lemma {:induction false} AtLeastRIff(p: Position, price: real, r: real)
    requires p.rValue >= 0.0
    ensures RMultiple(p, price) >= r <==> AtLeastR(p, price, r)
  {
    RMultipleIs(p, price);
    if p.rValue > 0.0 {
      var x := RMultiple(p, price);
      if x >= r {
        MulMono(r, x, p.rValue);
      } else {
        MulMonoStrict(x, r, p.rValue);
      }
    }
  }

  // ---------- which bars exit, and what they report ----------

  predicate Flattens(cfg: Config, p: Position, bar: Bar) {
    bar.cryptoWeekend && p.leg.Crypto? && cfg.weekendPolicy.Flatten?
  }

  predicate Hits(p: Position, bar: Bar) {
    !Better(p.direction, if p.direction.Buy? then bar.low else bar.high, p.stop)
  }

  predicate NewExtreme(p: Position, bar: Bar) {
    Better(p.direction, if p.direction.Buy? then bar.high else bar.low, p.extreme)
  }

  function BestSeen(p: Position, bar: Bar): real {
    if !NewExtreme(p, bar) then p.extreme else if p.direction.Buy? then bar.high else bar.low
  }

  /** Bars without a new extreme, this one included. */
  function Idle(p: Position, bar: Bar): int {
    if NewExtreme(p, bar) then 0 else p.barsNoProgress + 1
  }

  /** The report's three figures, in R, of an exit at a price when the best price seen
      was best. */
  predicate ReportsOn(p: Position, t: Telemetry, price: real, best: real) {
    && t.price == price
    && (p.rValue != 0.0 ==> t.realizedR * p.rValue == Sign(p.direction) * (price - p.entry)
                            && t.mfeR * p.rValue == Sign(p.direction) * (best - p.entry))
    && (p.rValue == 0.0 ==> t.realizedR == t.mfeR == 0.0)
    && (if t.mfeR > 0.0 then t.capturedPct * t.mfeR == t.realizedR * 100.0 else t.capturedPct == 0.0)
  }

  lemma {:induction false} ReportRule(p: Position, price: real, reason: ExitReason)
    ensures var t := Report(p, price, reason); t.reason == reason && ReportsOn(p, t, price, p.extreme)
  {
    RMultipleIs(p, price);
    RMultipleIs(p, p.extreme);
    var t := Report(p, price, reason);
    if t.mfeR > 0.0 {
      CapturedIs(t.realizedR, t.mfeR);
    }
  }

  lemma {:induction false} CapturedIs(realized: real, mfe: real)
    requires mfe > 0.0
    ensures realized / mfe * 100.0 * mfe == realized * 100.0
  {
    DivMul(realized, mfe);
    var q := realized / mfe;
    assert q * 100.0 * mfe == (q * mfe) * 100.0;
  }

  /** Why a bar exits, in the order the reasons are tried. */
  function ExitCause(cfg: Config, p: Position, bar: Bar): Option<ExitReason> {
    if Flattens(cfg, p, bar) then Some(WeekendFlatten)
    else if Hits(p, bar) then Some(StopHit)
    else if Idle(p, bar) >= cfg.maxBarsNoProgress(p.leg) then Some(TimeStop) else None
  }

  lemma {:induction false} ManagesIff(cfg: Config, p: Position, bar: Bar)
    requires p.phase != Exited && bar.low <= bar.high
    ensures Manages(cfg, p, bar) <==> ExitCause(cfg, p, bar).None?
    ensures Observe(p, bar) == p.(extreme := BestSeen(p, bar), barsNoProgress := Idle(p, bar))
  {
  }

  /** The report that the position is left with. */
  predicate LeavesReport(q: Position, p: Position, cause: ExitReason, price: real, best: real) {
    q.phase == Exited && q.telemetry.Some? && q.telemetry.value.reason == cause
    && ReportsOn(p, q.telemetry.value, price, best)
  }

  lemma {:induction false} ExitLeavesReport(m: Market, w: World, price: real, cause: ExitReason)
    requires w.pos.lot > 0.0
    ensures LeavesReport(Exit(m, w, price, cause).w.pos, w.pos, cause, price, w.pos.extreme)
  {
    ReportRule(w.pos, price, cause);
    ExitReports(m, w, price, cause);
  }

  lemma {:induction false} SeenReport(q: Position, p: Position, p1: Position, price: real, best: real)
    requires LeavesReport(q, p1, TimeStop, price, best) && SameTrade(p, p1)
    ensures LeavesReport(q, p, TimeStop, price, best)
  {
  }

  lemma {:induction false} ExitingRule(cfg: Config, m: Market, w: World, bar: Bar, cause: ExitReason)
    requires w.pos.lot > 0.0 && w.pos.phase != Exited && bar.low <= bar.high
    requires ExitCause(cfg, w.pos, bar) == Some(cause)
    ensures LeavesReport(OnBar(cfg, m, w, bar).w.pos, w.pos, cause, if cause.StopHit? then w.pos.stop else bar.close,
                         if cause.TimeStop? then BestSeen(w.pos, bar) else w.pos.extreme)
  {
    var p1 := Observe(w.pos, bar);
    ManagesIff(cfg, w.pos, bar);
    ExitingBar(cfg, m, w, bar);
    match cause
    case WeekendFlatten => ExitLeavesReport(m, w, bar.close, WeekendFlatten);
    case StopHit => ExitLeavesReport(m, w, w.pos.stop, StopHit);
    case TimeStop =>
      ExitLeavesReport(m, w.(pos := p1), bar.close, TimeStop);
      SeenReport(OnBar(cfg, m, w, bar).w.pos, w.pos, p1, bar.close, BestSeen(w.pos, bar));
  }

  /** A bar exits a live position on a crypto weekend to be flattened, else on a
      touched stop, else after too many bars without a new extreme, and on nothing
      else. The report has the close, the stop's own level, and the close; only the
      time stop counts this bar's extreme. */
  lemma {:induction false} ExitRule(cfg: Config, m: Market, w: World, bar: Bar)
    requires w.pos.lot > 0.0 && w.pos.phase != Exited && bar.low <= bar.high
    ensures var p, q, cause := w.pos, OnBar(cfg, m, w, bar).w.pos, ExitCause(cfg, w.pos, bar);
            && (q.phase == Exited <==> cause.Some?)
            && (cause.Some? ==>
                  LeavesReport(q, p, cause.value, if cause.value.StopHit? then p.stop else bar.close,
                               if cause.value.TimeStop? then BestSeen(p, bar) else p.extreme))
  {
    var cause := ExitCause(cfg, w.pos, bar);
    if cause.Some? {
      ExitingRule(cfg, m, w, bar, cause.value);
    } else {
      ManagesIff(cfg, w.pos, bar);
      ManagingBar(cfg, m, w, bar);
      BarWindows.ManageNeverExits(cfg, m, w.(pos := Observe(w.pos, bar)), bar);
    }
  }

  function ActionOf(cause: ExitReason): Action
    requires cause != ManualClose
  {
    match cause
    case WeekendFlatten => ExitedOnWeekend
    case StopHit => ExitedOnStop
    case TimeStop => ExitedOnTime
  }

  /** A bar that exits and returns reports that one action. A corrupt bar is reported
      and moves nothing, and nothing is done to a position that has exited. */
  lemma {:induction false} ExitIsReported(cfg: Config, m: Market, w: World, bar: Bar)
    requires w.pos.lot > 0.0
    ensures var r, live := OnBar(cfg, m, w, bar), w.pos.phase != Exited;
            && (!live ==> r == Done(w, []))
            && (live && bar.low > bar.high ==> r == Done(w, [SkippedCorruptBar]))
            && (live && bar.low <= bar.high && r.Done? && r.w.pos.phase == Exited ==>
                  var cause := ExitCause(cfg, w.pos, bar);
                  cause.Some? && cause.value != ManualClose && r.value == [ActionOf(cause.value)])
  {
    if w.pos.phase != Exited && bar.low <= bar.high {
      ExitRule(cfg, m, w, bar);
      ManagesIff(cfg, w.pos, bar);
      if ExitCause(cfg, w.pos, bar).Some? {
        ExitingBar(cfg, m, w, bar);
      }
    }
  }

  /** A bar that does not exit records the extreme and counts the bars without one. */
  lemma {:induction false} ProgressRule(cfg: Config, m: Market, w: World, bar: Bar)
    requires w.pos.lot > 0.0 && w.pos.phase != Exited && bar.low <= bar.high
    requires OnBar(cfg, m, w, bar).w.pos.phase != Exited
    ensures var q := OnBar(cfg, m, w, bar).w.pos;
            q.extreme == BestSeen(w.pos, bar) && q.barsNoProgress == Idle(w.pos, bar) && q.telemetry == w.pos.telemetry
  {
    ExitRule(cfg, m, w, bar);
    ManagesIff(cfg, w.pos, bar);
    ManagingBar(cfg, m, w, bar);
    ManageKeepsView(cfg, m, w.(pos := Observe(w.pos, bar)), bar);
  }

  predicate SameView(p: Position, q: Position) {
    SameTrade(p, q) && q.extreme == p.extreme && q.barsNoProgress == p.barsNoProgress && q.telemetry == p.telemetry
  }

  lemma {:induction false} SaleKeepsView(m: Market, w: World, partial: Partial)
    requires w.pos.lot > 0.0
    ensures SameView(w.pos, TakePartial(m, w, partial).w.pos)
  {
  }

  lemma {:induction false} BreakevenKeepsView(cfg: Config, m: Market, w: World, rNow: real)
    requires w.pos.lot > 0.0
    ensures SameView(w.pos, BreakevenStage(cfg, m, w, rNow).w.pos)
  {
    if Reaches(cfg, w.pos, rNow) && cfg.partials != [] {
      SaleKeepsView(m, Ratchet(cfg, w, w.pos.entry, false).w, cfg.partials[0]);
    }
  }

  lemma {:induction false} TrailingKeepsView(cfg: Config, m: Market, w: World, rNow: real)
    requires w.pos.lot > 0.0
    ensures SameView(w.pos, TrailingStage(cfg, m, w, rNow).w.pos)
  {
  }

  lemma {:induction false} ManageKeepsView(cfg: Config, m: Market, w: World, bar: Bar)
    requires w.pos.lot > 0.0
    ensures SameView(w.pos, Manage(cfg, m, w, bar).w.pos)
  {
    var rNow := RMultiple(w.pos, bar.close);
    ManageEnds(cfg, m, w, bar);
    BreakevenKeepsView(cfg, m, w, rNow);
    TrailingKeepsView(cfg, m, BreakevenStage(cfg, m, w, rNow).w, rNow);
  }

  // ---------- what the ladder sells ----------

  /** The largest number of whole lots within the share of the original quantity. */
  predicate IsSlice(p: Position, pct: real, c: real)
    requires p.lot > 0.0
  {
    c <= p.qty * pct / 100.0 < c + p.lot && c == (c / p.lot).Floor as real * p.lot
  }

  lemma {:induction false} CarveIsSlice(p: Position, pct: real)
    requires p.lot > 0.0
    ensures IsSlice(p, pct, Carve(p, pct))
  {
    var c := Carve(p, pct);
    FloorLotIsGreatest(PercentOf(p.qty, pct), p.lot);
    assert LotQty((c / p.lot).Floor, p.lot) == c;
  }

  /** The bar takes a rung: in its phase, far enough in profit, not taken before. */
  predicate TakesFirst(cfg: Config, p: Position, close: real) {
    p.phase == RiskOn && AtLeastR(p, close, cfg.breakevenAtR)
    && cfg.partials != [] && cfg.partials[0].atR !in p.partialsTaken
  }

  /** The second rung may follow the first in the same bar; a rung at the same level
      counts as taken then. */
  predicate TakesSecond(cfg: Config, p: Position, close: real) {
    && (p.phase == Breakeven || (p.phase == RiskOn && AtLeastR(p, close, cfg.breakevenAtR)))
    && |cfg.partials| > 1 && AtLeastR(p, close, cfg.partials[1].atR)
    && cfg.partials[1].atR !in p.partialsTaken
    && (TakesFirst(cfg, p, close) ==> cfg.partials[1].atR != cfg.partials[0].atR)
  }

  function PhaseRule(cfg: Config, p: Position, close: real): Phase {
    if p.phase == RiskOn && !AtLeastR(p, close, cfg.breakevenAtR) then RiskOn
    else if p.phase != Trailing && !(|cfg.partials| > 1 && AtLeastR(p, close, cfg.partials[1].atR)) then Breakeven
    else Trailing
  }

  /** What is left after selling c. */
  function Left(remaining: real, c: real): real {
    if c <= 0.0 then remaining else if remaining <= c then 0.0 else remaining - c
  }

  // ---------- where the stop goes ----------

  /** A stop that is offered a level: it goes there if the level is better, by at
      least the step. */
  function Offered(direction: Side, stop: real, level: real, step: real): real {
    if Better(direction, level, stop) && Sign(direction) * (level - stop) >= step then level else stop
  }

  /** Steps are only counted past RISK_ON. */
  function StepOf(cfg: Config, p: Position, phase: Phase): real {
    if phase == RiskOn then 0.0 else cfg.minRatchetStepAtr * p.atr
  }

  lemma {:induction false} RatchetOffers(cfg: Config, w: World, level: real)
    ensures var r := Ratchet(cfg, w, level, false);
            && r.w.pos == w.pos.(stop := Offered(w.pos.direction, w.pos.stop, level, StepOf(cfg, w.pos, w.pos.phase)))
            && (r.Done? ==> (r.value <==> r.w.pos.stop != w.pos.stop))
  {
  }

  /** The position after the ladder, but for the id of its stop. */
  function Laddered(cfg: Config, p: Position, close: real, c1: real, c2: real, stopId: nat): Position {
    var first, second := TakesFirst(cfg, p, close), TakesSecond(cfg, p, close);
    p.(phase := PhaseRule(cfg, p, close),
       stop := if p.phase == RiskOn && AtLeastR(p, close, cfg.breakevenAtR) then
                 Offered(p.direction, p.stop, p.entry, 0.0) else p.stop,
       partialsTaken := p.partialsTaken + (if first then [cfg.partials[0].atR] else [])
                        + (if second then [cfg.partials[1].atR] else []),
       remaining := Left(Left(p.remaining, if first then c1 else 0.0), if second then c2 else 0.0),
       stopId := stopId)
  }

  /** What the ladder reports. */
  function LadderReport(cfg: Config, p: Position, close: real, stop: real): seq<Action> {
    (if stop != p.stop then [StopToBreakeven] else []) + (if TakesFirst(cfg, p, close) then [Partial1] else [])
    + (if TakesSecond(cfg, p, close) then [Partial2] else [])
  }

  lemma {:induction false} TakePartialRule(m: Market, w: World, partial: Partial)
    requires w.pos.lot > 0.0 && TakePartial(m, w, partial).Done?
    ensures var q := TakePartial(m, w, partial).w.pos;
            q == w.pos.(partialsTaken := w.pos.partialsTaken + [partial.atR],
                        remaining := Left(w.pos.remaining, Carve(w.pos, partial.pct)), stopId := q.stopId)
  {
  }

  /** The first rung and what it reports, but for the id of the stop. */
  predicate FirstRung(cfg: Config, p: Position, close: real, c: real, q: Position, value: seq<Action>) {
    var reached, first := p.phase == RiskOn && AtLeastR(p, close, cfg.breakevenAtR), TakesFirst(cfg, p, close);
    && q == p.(phase := if reached then Breakeven else p.phase,
               stop := if reached then Offered(p.direction, p.stop, p.entry, 0.0) else p.stop,
               partialsTaken := if first then p.partialsTaken + [cfg.partials[0].atR] else p.partialsTaken,
               remaining := if first then Left(p.remaining, c) else p.remaining,
               stopId := q.stopId)
    && value == (if q.stop != p.stop then [StopToBreakeven] else []) + (if first then [Partial1] else [])
  }

  predicate SecondRung(cfg: Config, p: Position, close: real, c: real, q: Position, value: seq<Action>) {
    var reached := p.phase == Breakeven && |cfg.partials| > 1 && AtLeastR(p, close, cfg.partials[1].atR);
    var second := reached && cfg.partials[1].atR !in p.partialsTaken;
    && q == p.(phase := if reached then Trailing else p.phase,
               partialsTaken := if second then p.partialsTaken + [cfg.partials[1].atR] else p.partialsTaken,
               remaining := if second then Left(p.remaining, c) else p.remaining,
               stopId := q.stopId)
    && value == if second then [Partial2] else []
  }

  lemma {:induction false} SameCarve(p: Position, q: Position, pct: real)
    requires p.lot > 0.0 && SameTrade(p, q)
    ensures Carve(q, pct) == Carve(p, pct)
  {
  }

  lemma {:induction false} FirstRungRule(cfg: Config, m: Market, w: World, close: real, rNow: real, c: real,
                                         r: Step<seq<Action>>)
    requires w.pos.lot > 0.0 && w.pos.rValue >= 0.0 && rNow == RMultiple(w.pos, close)
    requires c == Carve(w.pos, Pct(cfg, 0)) && r == BreakevenStage(cfg, m, w, rNow) && r.Done?
    ensures FirstRung(cfg, w.pos, close, c, r.w.pos, r.value)
  {
    AtLeastRIff(w.pos, close, cfg.breakevenAtR);
    if Reaches(cfg, w.pos, rNow) {
      RatchetOffers(cfg, w, w.pos.entry);
      var w1 := Ratchet(cfg, w, w.pos.entry, false).w;
      SameCarve(w.pos, w1.pos, Pct(cfg, 0));
      if FirstDue(cfg, w.pos, rNow) && TakePartial(m, w1, cfg.partials[0]).Done? {
        TakePartialRule(m, w1, cfg.partials[0]);
      }
    }
  }

  lemma {:induction false} SecondRungRule(cfg: Config, m: Market, w: World, close: real, rNow: real, c: real,
                                          r: Step<seq<Action>>)
    requires w.pos.lot > 0.0 && w.pos.rValue >= 0.0 && rNow == RMultiple(w.pos, close)
    requires c == Carve(w.pos, Pct(cfg, 1)) && r == TrailingStage(cfg, m, w, rNow) && r.Done?
    ensures SecondRung(cfg, w.pos, close, c, r.w.pos, r.value)
  {
    if |cfg.partials| > 1 {
      AtLeastRIff(w.pos, close, cfg.partials[1].atR);
      if SecondDue(cfg, w.pos, rNow) {
        TakePartialRule(m, w, cfg.partials[1]);
      }
    }
  }

  lemma {:induction false} RungsCompose(cfg: Config, p: Position, p1: Position, q: Position, close: real, c1: real,
                                        c2: real, v1: seq<Action>, v2: seq<Action>)
    requires p.phase != Exited && FirstRung(cfg, p, close, c1, p1, v1) && SecondRung(cfg, p1, close, c2, q, v2)
    ensures q == Laddered(cfg, p, close, c1, c2, q.stopId) && v1 + v2 == LadderReport(cfg, p, close, q.stop)
  {
    if |cfg.partials| > 1 {
      assert AtLeastR(p1, close, cfg.partials[1].atR) == AtLeastR(p, close, cfg.partials[1].atR);
      assert TakesSecond(cfg, p, close)
             <==> p1.phase == Breakeven && AtLeastR(p1, close, cfg.partials[1].atR)
                  && cfg.partials[1].atR !in p1.partialsTaken;
    }
  }

  /** The two rungs of a bar that returns: phases, sales and the stop at entry. */
  lemma {:induction false} LadderRule(cfg: Config, m: Market, w: World, close: real, rNow: real, c1: real, c2: real,
                                      r1: Step<seq<Action>>, r2: Step<seq<Action>>)
    requires w.pos.lot > 0.0 && w.pos.rValue >= 0.0 && w.pos.phase != Exited && rNow == RMultiple(w.pos, close)
    requires c1 == Carve(w.pos, Pct(cfg, 0)) && c2 == Carve(w.pos, Pct(cfg, 1))
    requires r1 == BreakevenStage(cfg, m, w, rNow) && r1.Done? && SameTrade(w.pos, r1.w.pos)
    requires r2 == TrailingStage(cfg, m, r1.w, rNow) && r2.Done?
    ensures FirstRung(cfg, w.pos, close, c1, r1.w.pos, r1.value)
    ensures SecondRung(cfg, r1.w.pos, close, c2, r2.w.pos, r2.value)
  {
    FirstRungRule(cfg, m, w, close, rNow, c1, r1);
    SameCarve(w.pos, r1.w.pos, Pct(cfg, 1));
    SecondRungRule(cfg, m, r1.w, close, rNow, c2, r2);
  }

  // ---------- lock and trail ----------

  /** The bar sets the profit lock. */
  predicate SetsLock(cfg: Config, p: Position, close: real) {
    cfg.profitLock.Some? && !p.profitLocked && AtLeastR(p, close, cfg.profitLock.value.atR)
  }

  /** lockR times the initial risk beyond the entry. */
  function LockAt(p: Position, lockR: real): real {
    p.entry + Sign(p.direction) * (lockR * p.rValue)
  }

  lemma {:induction false} LockLevelIs(p: Position, lockR: real)
    ensures LockLevel(p, lockR) == LockAt(p, lockR)
  {
  }

  function AfterLock(cfg: Config, p: Position, close: real): Position {
    if !SetsLock(cfg, p, close) then p
    else
      p.(profitLocked := true,
         stop := Offered(p.direction, p.stop, LockAt(p, cfg.profitLock.value.lockR), StepOf(cfg, p, p.phase)))
  }

  lemma {:induction false} LockRule(cfg: Config, w: World, close: real)
    requires w.pos.rValue >= 0.0
    ensures var r := LockStage(cfg, w, RMultiple(w.pos, close));
            r.Done? ==>
              && r.w.pos == AfterLock(cfg, w.pos, close)
              && r.value == if r.w.pos.stop != w.pos.stop && cfg.profitLock.Some?
                            then [ProfitLocked(cfg.profitLock.value.lockR)] else []
  {
    if cfg.profitLock.Some? {
      var lockR := cfg.profitLock.value.lockR;
      AtLeastRIff(w.pos, close, cfg.profitLock.value.atR);
      RatchetOffers(cfg, w, LockLevel(w.pos, lockR));
      LockLevelIs(w.pos, lockR);
    }
  }

  /** The regime table's row for a bar: SHOCK on a shock, else the trend's own, else
      RANGE. */
  function Row(cfg: Config, bar: Bar): string {
    if bar.regime.shock then "SHOCK" else if bar.regime.trend in cfg.kTrailByRegime then bar.regime.trend else "RANGE"
  }

  /** k doubled for a near event, and doubled again on a tightened crypto weekend, is
      the table's entry. */
  predicate IsRegimeFactor(cfg: Config, leg: Leg, bar: Bar, k: real) {
    var near := bar.eventMinutes.Some? && bar.eventMinutes.value <= cfg.eventTightenMinutes;
    var weekend := bar.cryptoWeekend && leg.Crypto? && cfg.weekendPolicy.Tighten?;
    k * (if near && weekend then 4.0 else if near || weekend then 2.0 else 1.0) == cfg.kTrailByRegime[Row(cfg, bar)]
  }

  /** The factor of a bar: that, or once locked the lock's own if it is smaller. */
  ghost predicate IsTrailFactor(cfg: Config, p: Position, bar: Bar, k: real) {
    exists raw :: IsRegimeFactor(cfg, p.leg, bar, raw)
                  && k == if p.profitLocked && cfg.profitLock.Some? && cfg.profitLock.value.trailK < raw
                          then cfg.profitLock.value.trailK else raw
  }

  lemma {:induction false} FactorRule(cfg: Config, p: Position, bar: Bar)
    ensures IsTrailFactor(cfg, p, bar, TrailK(cfg, p, bar))
  {
    assert IsRegimeFactor(cfg, p.leg, bar, KTrail(cfg, bar, p.leg));
  }

  /** k ATRs behind the extreme. */
  function TrailAt(p: Position, k: real): real {
    p.extreme - Sign(p.direction) * (k * p.atr)
  }

  lemma {:induction false} ChandelierIs(p: Position, k: real)
    ensures Chandelier(p, k) == TrailAt(p, k)
  {
  }

  function AfterTrail(cfg: Config, p: Position, k: real): Position {
    if p.phase != Breakeven && p.phase != Trailing && !p.profitLocked then p
    else
      p.(stop := Offered(p.direction, p.stop, TrailAt(p, k), StepOf(cfg, p, p.phase)))
  }

  lemma {:induction false} TrailRule(cfg: Config, w: World, bar: Bar)
    ensures var r, k := ChandelierStage(cfg, w, bar), TrailK(cfg, w.pos, bar);
            && r.w.pos == AfterTrail(cfg, w.pos, k)
            && (r.Done? ==> r.value == if r.w.pos.stop != w.pos.stop then [Trailed(k)] else [])
  {
    var k := TrailK(cfg, w.pos, bar);
    RatchetOffers(cfg, w, Chandelier(w.pos, k));
    ChandelierIs(w.pos, k);
  }

  /** The position once the bar's prices have been seen. */
  function Seen(p: Position, bar: Bar): Position {
    p.(extreme := BestSeen(p, bar), barsNoProgress := Idle(p, bar))
  }

  /** What the lock and the trail report. */
  function TailReport(cfg: Config, p: Position, locked: Position, q: Position, k: real): seq<Action>
  {
    (if locked.stop != p.stop && cfg.profitLock.Some? then [ProfitLocked(cfg.profitLock.value.lockR)] else [])
    + (if q.stop != locked.stop then [Trailed(k)] else [])
  }

  /** What a bar that manages a position, and returns, makes of it: the ladder in its
      slices c1 and c2, then the lock, then the trail by its factor k; and what it
      reports. */
  ghost predicate ManagedAs(cfg: Config, p: Position, bar: Bar, q: Position, value: seq<Action>, c1: real, c2: real,
                            k: real)
    requires p.lot > 0.0
  {
    var laddered := Laddered(cfg, p, bar.close, c1, c2, q.stopId);
    var locked := AfterLock(cfg, laddered, bar.close);
    && IsSlice(p, Pct(cfg, 0), c1) && IsSlice(p, Pct(cfg, 1), c2) && IsTrailFactor(cfg, locked, bar, k)
    && q == AfterTrail(cfg, locked, k)
    && value == LadderReport(cfg, p, bar.close, laddered.stop) + TailReport(cfg, laddered, locked, q, k)
  }

  lemma {:induction false} StagesCompose(cfg: Config, p: Position, bar: Bar, laddered: Position, q: Position,
                                         v12: seq<Action>, v34: seq<Action>, c1: real, c2: real, k: real)
    requires p.lot > 0.0 && IsSlice(p, Pct(cfg, 0), c1) && IsSlice(p, Pct(cfg, 1), c2)
    requires laddered == Laddered(cfg, p, bar.close, c1, c2, q.stopId)
    requires v12 == LadderReport(cfg, p, bar.close, laddered.stop)
    requires var locked := AfterLock(cfg, laddered, bar.close);
             && IsTrailFactor(cfg, locked, bar, k) && q == AfterTrail(cfg, locked, k)
             && v34 == TailReport(cfg, laddered, locked, q, k)
    ensures ManagedAs(cfg, p, bar, q, v12 + v34, c1, c2, k)
  {
  }

  lemma {:induction false} ManagedRule(cfg: Config, m: Market, w: World, bar: Bar)
    returns (c1: real, c2: real, k: real)
    requires w.pos.lot > 0.0 && w.pos.rValue >= 0.0 && w.pos.phase != Exited && Manage(cfg, m, w, bar).Done?
    ensures var r := Manage(cfg, m, w, bar); ManagedAs(cfg, w.pos, bar, r.w.pos, r.value, c1, c2, k)
  {
    var rNow := RMultiple(w.pos, bar.close);
    c1, c2 := Carve(w.pos, Pct(cfg, 0)), Carve(w.pos, Pct(cfg, 1));
    CarveIsSlice(w.pos, Pct(cfg, 0));
    CarveIsSlice(w.pos, Pct(cfg, 1));
    ManageParts(cfg, m, w, bar);
    var r1 := BreakevenStage(cfg, m, w, rNow);
    var r2 := TrailingStage(cfg, m, r1.w, rNow);
    k := StagesRule(cfg, m, w, bar, rNow, c1, c2, r1, r2);
  }

  lemma {:induction false} StagesRule(cfg: Config, m: Market, w: World, bar: Bar, rNow: real, c1: real, c2: real,
                                      r1: Step<seq<Action>>, r2: Step<seq<Action>>) returns (k: real)
    requires w.pos.lot > 0.0 && w.pos.rValue >= 0.0 && w.pos.phase != Exited && rNow == RMultiple(w.pos, bar.close)
    requires c1 == Carve(w.pos, Pct(cfg, 0)) && c2 == Carve(w.pos, Pct(cfg, 1))
    requires IsSlice(w.pos, Pct(cfg, 0), c1) && IsSlice(w.pos, Pct(cfg, 1), c2)
    requires r1 == BreakevenStage(cfg, m, w, rNow) && r1.Done? && SameTrade(w.pos, r1.w.pos)
    requires r2 == TrailingStage(cfg, m, r1.w, rNow) && r2.Done? && SameTrade(w.pos, r2.w.pos)
    requires var r3 := LockStage(cfg, r2.w, rNow); r3.Done? && ChandelierStage(cfg, r3.w, bar).Done?
    ensures var r3 := LockStage(cfg, r2.w, rNow);
            var r4 := ChandelierStage(cfg, r3.w, bar);
            ManagedAs(cfg, w.pos, bar, r4.w.pos, (r1.value + r2.value) + (r3.value + r4.value), c1, c2, k)
  {
    LadderRule(cfg, m, w, bar.close, rNow, c1, c2, r1, r2);
    RungsCompose(cfg, w.pos, r1.w.pos, r2.w.pos, bar.close, c1, c2, r1.value, r2.value);
    SameTradeR(w.pos, r2.w.pos, bar.close);
    k := TailRule(cfg, r2.w, bar, rNow);
    var r3 := LockStage(cfg, r2.w, rNow);
    var r4 := ChandelierStage(cfg, r3.w, bar);
    StagesCompose(cfg, w.pos, bar, r2.w.pos, r4.w.pos, r1.value + r2.value, r3.value + r4.value, c1, c2, k);
  }

  lemma {:induction false} SameTradeR(p: Position, q: Position, price: real)
    requires SameTrade(p, q)
    ensures RMultiple(q, price) == RMultiple(p, price)
  {
  }

  /** The last two stages. */
  lemma {:induction false} TailRule(cfg: Config, w: World, bar: Bar, rNow: real) returns (k: real)
    requires w.pos.rValue >= 0.0 && rNow == RMultiple(w.pos, bar.close)
    requires var r3 := LockStage(cfg, w, rNow); r3.Done? && ChandelierStage(cfg, r3.w, bar).Done?
    ensures var r3 := LockStage(cfg, w, rNow);
            var r4 := ChandelierStage(cfg, r3.w, bar);
            var locked := AfterLock(cfg, w.pos, bar.close);
            && IsTrailFactor(cfg, locked, bar, k) && r4.w.pos == AfterTrail(cfg, locked, k)
            && r4.w.pos.stopId == w.pos.stopId
            && r3.value + r4.value == TailReport(cfg, w.pos, locked, r4.w.pos, k)
  {
    var r3 := LockStage(cfg, w, rNow);
    LockRule(cfg, w, bar.close);
    k := TrailK(cfg, r3.w.pos, bar);
    FactorRule(cfg, r3.w.pos, bar);
    TrailRule(cfg, r3.w, bar);
  }

  /** A managed bar that returns has returned from all four stages. */
  lemma {:induction false} ManageParts(cfg: Config, m: Market, w: World, bar: Bar)
    requires w.pos.lot > 0.0 && Manage(cfg, m, w, bar).Done?
    ensures var r, rNow := Manage(cfg, m, w, bar), RMultiple(w.pos, bar.close);
            var r1 := BreakevenStage(cfg, m, w, rNow);
            var r2 := TrailingStage(cfg, m, r1.w, rNow);
            var r3 := LockStage(cfg, r2.w, rNow);
            var r4 := ChandelierStage(cfg, r3.w, bar);
            && r1.Done? && r2.Done? && r3.Done? && r4.Done? && r.w == r4.w
            && r.value == (r1.value + r2.value) + (r3.value + r4.value)
  {
    var rNow := RMultiple(w.pos, bar.close);
    var r1 := BreakevenStage(cfg, m, w, rNow);
    if r1.Done? {
      var r2 := TrailingStage(cfg, m, r1.w, rNow);
      var r3 := LockStage(cfg, r2.w, rNow);
      var r4 := ChandelierStage(cfg, r3.w, bar);
      if r2.Done? && r3.Done? && r4.Done? {
        InPairs(r1.value, r2.value, r3.value, r4.value);
      }
    }
  }

  lemma {:induction false} InPairs(a: seq<Action>, b: seq<Action>, c: seq<Action>, d: seq<Action>)
    ensures a + b + c + d == (a + b) + (c + d)
  {
  }

  /** A bar that returns without exiting does to the position, and reports, exactly
      what the rules above say: extremes and idle bars first, then the ladder, the
      lock and the trail. */
  lemma {:induction false} BarRule(cfg: Config, m: Market, w: World, bar: Bar)
    requires w.pos.lot > 0.0 && w.pos.rValue >= 0.0 && w.pos.phase != Exited && bar.low <= bar.high
    requires var r := OnBar(cfg, m, w, bar); r.Done? && r.w.pos.phase != Exited
    ensures var r := OnBar(cfg, m, w, bar);
            exists c1, c2, k :: ManagedAs(cfg, Seen(w.pos, bar), bar, r.w.pos, r.value, c1, c2, k)
  {
    ExitRule(cfg, m, w, bar);
    ManagesIff(cfg, w.pos, bar);
    ManagingBar(cfg, m, w, bar);
    assert Observe(w.pos, bar) == Seen(w.pos, bar);
    var c1, c2, k := ManagedRule(cfg, m, w.(pos := Observe(w.pos, bar)), bar);
  }

  /** The stop is k ATRs behind the extreme, and k is the bar's factor. */
  ghost predicate TrailedTo(cfg: Config, p: Position, bar: Bar, q: Position, k: real) {
    q.stop == TrailAt(p, k) && IsTrailFactor(cfg, q, bar, k)
  }

  lemma {:induction false} SameFactor(cfg: Config, p: Position, q: Position, bar: Bar, k: real)
    requires IsTrailFactor(cfg, p, bar, k) && q.leg == p.leg && q.profitLocked == p.profitLocked
    ensures IsTrailFactor(cfg, q, bar, k)
  {
    var raw :| IsRegimeFactor(cfg, p.leg, bar, raw)
               && k == if p.profitLocked && cfg.profitLock.Some? && cfg.profitLock.value.trailK < raw
                       then cfg.profitLock.value.trailK else raw;
    assert IsRegimeFactor(cfg, q.leg, bar, raw);
  }

  /** A trail among the reports is the last of them. */
  lemma {:induction false} ReportedTrail(cfg: Config, laddered: Position, locked: Position, q: Position, k1: real,
                                         ladder: seq<Action>, k: real)
    requires Trailed(k) !in ladder && Trailed(k) in ladder + TailReport(cfg, laddered, locked, q, k1)
    ensures k == k1 && q.stop != locked.stop
  {
    assert Trailed(k) in TailReport(cfg, laddered, locked, q, k1);
  }

  lemma {:induction false} MovedIsLevel(cfg: Config, p: Position, k: real)
    requires AfterTrail(cfg, p, k).stop != p.stop
    ensures AfterTrail(cfg, p, k).stop == TrailAt(p, k)
  {
  }

  /** In particular, a bar that reports a trail has left the stop k ATRs behind the
      best price seen so far. */
  lemma {:induction false} TrailedStop(cfg: Config, m: Market, w: World, bar: Bar, r: Step<seq<Action>>, k: real)
    requires w.pos.lot > 0.0 && w.pos.rValue >= 0.0 && w.pos.phase != Exited && bar.low <= bar.high
    requires r == OnBar(cfg, m, w, bar) && r.Done? && r.w.pos.phase != Exited && Trailed(k) in r.value
    ensures TrailedTo(cfg, Seen(w.pos, bar), bar, r.w.pos, k)
  {
    BarRule(cfg, m, w, bar);
    var p := Seen(w.pos, bar);
    var c1, c2, k1 :| ManagedAs(cfg, p, bar, r.w.pos, r.value, c1, c2, k1);
    ManagedTrail(cfg, p, bar, r.w.pos, r.value, c1, c2, k1, k);
  }

  lemma {:induction false} ManagedTrail(cfg: Config, p: Position, bar: Bar, q: Position, value: seq<Action>, c1: real,
                                        c2: real, k1: real, k: real)
    requires p.lot > 0.0 && ManagedAs(cfg, p, bar, q, value, c1, c2, k1) && Trailed(k) in value
    ensures TrailedTo(cfg, p, bar, q, k)
  {
    var laddered := Laddered(cfg, p, bar.close, c1, c2, q.stopId);
    var locked := AfterLock(cfg, laddered, bar.close);
    ReportedTrail(cfg, laddered, locked, q, k1, LadderReport(cfg, p, bar.close, laddered.stop), k);
    MovedIsLevel(cfg, locked, k);
    SameFactor(cfg, locked, q, bar, k);
  }
}
