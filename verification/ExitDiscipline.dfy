/** What the exit engine promises of every run, whatever the broker answers:
    stops and phases only move one way, the book's currency at risk never rises
    without a new entry, and the exit report is bounded by the best excursion
    above and by the initial risk below. */
module ExitDiscipline {
  import opened Basics
  import opened PaperBroker
  import opened StopAdapters
  import opened ExitEngine
  import opened PortfolioHeat
  import opened TradeRun
  import BarWindows

  // ---------- one position only improves ----------

  function Rank(phase: Phase): nat {
    match phase
    case RiskOn => 0
    case Breakeven => 1
    case Trailing => 2
    case Exited => 3
  }

  /** The same trade, its stop no wider, its phase no earlier, its size no larger. */
  predicate Improves(p: Position, q: Position) {
    SameTrade(p, q) && NoWider(p, q) && Rank(q.phase) >= Rank(p.phase) && 0.0 <= q.remaining <= p.remaining
  }

  lemma {:induction false} RatchetImproves(cfg: Config, w: World, candidate: real, force: bool)
    requires w.pos.remaining >= 0.0
    ensures var r := Ratchet(cfg, w, candidate, force);
            && Improves(w.pos, r.w.pos) && r.w.pos.phase == w.pos.phase
            && (RiskFree(w.pos) ==> RiskFree(r.w.pos))
            && (w.pos.phase == RiskOn && candidate == w.pos.entry && !force ==> StopAtEntry(r.w.pos))
  {
  }

  lemma {:induction false} TakePartialImproves(m: Market, w: World, partial: Partial)
    requires w.pos.lot > 0.0 && w.pos.remaining >= 0.0
    ensures var r := TakePartial(m, w, partial);
            Improves(w.pos, r.w.pos) && r.w.pos.phase == w.pos.phase && r.w.pos.stop == w.pos.stop
  {
  }

  lemma {:induction false} ManageImproves(cfg: Config, m: Market, w: World, bar: Bar)
    requires w.pos.lot > 0.0 && w.pos.remaining >= 0.0 && w.pos.phase != Exited && RiskFree(w.pos)
    ensures var r := Manage(cfg, m, w, bar); Improves(w.pos, r.w.pos) && RiskFree(r.w.pos)
  {
    var rNow := RMultiple(w.pos, bar.close);
    BreakevenImproves(cfg, m, w, rNow);
    var r1 := BreakevenStage(cfg, m, w, rNow);
    if r1.Done? {
      TrailingImproves(cfg, m, r1.w, rNow);
      var r2 := TrailingStage(cfg, m, r1.w, rNow);
      if r2.Done? {
        LockImproves(cfg, r2.w, rNow);
        var r3 := LockStage(cfg, r2.w, rNow);
        if r3.Done? {
          var k := TrailK(cfg, r3.w.pos, bar);
          RatchetImproves(cfg, r3.w, Chandelier(r3.w.pos, k), false);
        }
      }
    }
  }

  lemma {:induction false} BreakevenImproves(cfg: Config, m: Market, w: World, rNow: real)
    requires w.pos.lot > 0.0 && w.pos.remaining >= 0.0 && w.pos.phase != Exited && RiskFree(w.pos)
    ensures var r := BreakevenStage(cfg, m, w, rNow);
            Improves(w.pos, r.w.pos) && RiskFree(r.w.pos) && r.w.pos.phase != Exited
  {
    if w.pos.phase == RiskOn && rNow >= cfg.breakevenAtR {
      RatchetImproves(cfg, w, w.pos.entry, false);
      var r := Ratchet(cfg, w, w.pos.entry, false);
      if r.Done? && cfg.partials != [] {
        TakePartialImproves(m, r.w, cfg.partials[0]);
      }
    }
  }

  lemma {:induction false} TrailingImproves(cfg: Config, m: Market, w: World, rNow: real)
    requires w.pos.lot > 0.0 && w.pos.remaining >= 0.0 && w.pos.phase != Exited && RiskFree(w.pos)
    ensures var r := TrailingStage(cfg, m, w, rNow);
            Improves(w.pos, r.w.pos) && RiskFree(r.w.pos) && r.w.pos.phase != Exited
  {
    if |cfg.partials| > 1 {
      TakePartialImproves(m, w, cfg.partials[1]);
    }
  }

  lemma {:induction false} LockImproves(cfg: Config, w: World, rNow: real)
    requires w.pos.remaining >= 0.0 && w.pos.phase != Exited && RiskFree(w.pos)
    ensures var r := LockStage(cfg, w, rNow);
            Improves(w.pos, r.w.pos) && RiskFree(r.w.pos) && r.w.pos.phase != Exited
  {
    if cfg.profitLock.Some? {
      RatchetImproves(cfg, w, LockLevel(w.pos, cfg.profitLock.value.lockR), false);
    }
  }

  /** No bar widens a stop, goes back a phase or grows a position, even when the
      broker call inside it fails; past RISK_ON the stop is at entry or better. */
  lemma {:induction false} BarImproves(cfg: Config, m: Market, w: World, bar: Bar)
    requires w.pos.lot > 0.0 && w.pos.remaining >= 0.0 && RiskFree(w.pos)
    ensures var r := OnBar(cfg, m, w, bar); Improves(w.pos, r.w.pos) && RiskFree(r.w.pos)
  {
    var w1 := w.(pos := Observe(w.pos, bar));
    if Manages(cfg, w.pos, bar) {
      ManagingBar(cfg, m, w, bar);
      ManageImproves(cfg, m, w1, bar);
    } else {
      ExitingBar(cfg, m, w, bar);
      ExitReports(m, w, bar.close, WeekendFlatten);
      ExitReports(m, w, w.pos.stop, StopHit);
      ExitReports(m, w1, bar.close, TimeStop);
    }
  }

  // ---------- heat ----------

  lemma {:induction false} LossFalls(lq: real, lp: real, rq: real, rp: real)
    requires lq <= lp && 0.0 <= rq <= rp
    ensures Max(0.0, lq * rq) <= Max(0.0, lp * rp)
  {
    if lp >= 0.0 {
      MulMono(lq, lp, rq);
      MulMono(rq, rp, lp);
    } else {
      MulMono(lq, 0.0, rq);
    }
  }

  lemma {:induction false} HeatFalls(p: Position, q: Position)
    requires Improves(p, q)
    ensures 0.0 <= HeatOf(q) <= HeatOf(p)
  {
    var lp := if p.direction.Buy? then p.entry - p.stop else p.stop - p.entry;
    var lq := if q.direction.Buy? then q.entry - q.stop else q.stop - q.entry;
    LossFalls(lq, lp, q.remaining, p.remaining);
  }

  lemma {:induction false} ZeroHeatPastRiskOn(p: Position)
    requires RiskFree(p) && p.phase != RiskOn && p.remaining >= 0.0
    ensures HeatOf(p) == 0.0
  {
    if p.phase != Exited {
      MulMono(if p.direction.Buy? then p.entry - p.stop else p.stop - p.entry, 0.0, p.remaining);
    }
  }

  // ---------- over runs of the trading loop ----------

  /** What every attached position satisfies. */
  predicate Disciplined(sys: Sys) {
    Lotted(sys) && forall s :: s in sys.positions ==> sys.positions[s].remaining >= 0.0 && RiskFree(sys.positions[s])
  }

  predicate BookImproves(sys: Sys, sys1: Sys) {
    && sys1.positions.Keys == sys.positions.Keys
    && forall s :: s in sys.positions ==> Improves(sys.positions[s], sys1.positions[s])
  }

  /** One position moves on, the others stay. */
  lemma {:induction false} UpdateImproves(sys: Sys, s: Symbol, w: World)
    requires Disciplined(sys) && s in sys.positions && Improves(sys.positions[s], w.pos) && RiskFree(w.pos)
    ensures Disciplined(Updated(sys, s, w)) && BookImproves(sys, Updated(sys, s, w))
  {
  }

  lemma {:induction false} BarStepImproves(cfg: Config, m: Market, sys: Sys, e: Event)
    requires Disciplined(sys) && e.BarEvent?
    ensures Disciplined(StepSys(cfg, m, sys, e)) && BookImproves(sys, StepSys(cfg, m, sys, e))
  {
    var s := e.symbol;
    if s in sys.positions && WindowOf(sys, s) != [] {
      var bar := BarWindows.BarOf(WindowOf(sys, s), e.regime, e.eventMinutes, e.weekend);
      BarImproves(cfg, m, Managing(sys, s), bar);
      UpdateImproves(sys, s, OnBar(cfg, m, Managing(sys, s), bar).w);
    }
  }

  lemma {:induction false} StepImproves(cfg: Config, m: Market, sys: Sys, e: Event)
    requires Disciplined(sys) && !e.EntryEvent?
    ensures Disciplined(StepSys(cfg, m, sys, e)) && BookImproves(sys, StepSys(cfg, m, sys, e))
  {
    match e
    case BarEvent(_, _, _, _) =>
      BarStepImproves(cfg, m, sys, e);
    case ForceEvent(s, stop) =>
      if s in sys.positions {
        RatchetImproves(cfg, Managing(sys, s), stop, true);
        UpdateImproves(sys, s, Ratchet(cfg, Managing(sys, s), stop, true).w);
      }
    case ManualEvent(s, price) =>
      if Live(sys, s) {
        ExitReports(m, Managing(sys, s), price, ManualClose);
        UpdateImproves(sys, s, Exit(m, Managing(sys, s), price, ManualClose).w);
      }
    case _ =>
  }

  lemma {:induction false} EntryDisciplined(cfg: Config, m: Market, sys: Sys, e: Event)
    requires Disciplined(sys) && e.EntryEvent?
    ensures Disciplined(StepSys(cfg, m, sys, e))
  {
  }

  lemma {:induction false} RunDisciplined(cfg: Config, m: Market, cash: real, es: seq<Event>)
    ensures Disciplined(RunSys(cfg, m, NewSys(cash), es))
  {
    if es != [] {
      var sys := RunSys(cfg, m, NewSys(cash), es[..|es| - 1]);
      RunDisciplined(cfg, m, cash, es[..|es| - 1]);
      if es[|es| - 1].EntryEvent? {
        EntryDisciplined(cfg, m, sys, es[|es| - 1]);
      } else {
        StepImproves(cfg, m, sys, es[|es| - 1]);
      }
    }
  }

  /** In every state any run can reach, entries, failing calls and disagreement
      included, a position past RISK_ON carries no heat. */
  lemma {:induction false} NoHeatPastRiskOn(cfg: Config, m: Market, cash: real, es: seq<Event>, s: Symbol)
    requires s in RunSys(cfg, m, NewSys(cash), es).positions
    ensures var p := RunSys(cfg, m, NewSys(cash), es).positions[s]; p.phase != RiskOn ==> HeatOf(p) == 0.0
  {
    RunDisciplined(cfg, m, cash, es);
    var p := RunSys(cfg, m, NewSys(cash), es).positions[s];
    if p.phase != RiskOn {
      ZeroHeatPastRiskOn(p);
    }
  }

  function HeatOver(sys: Sys, symbols: seq<Symbol>): real {
    if symbols == [] then 0.0
    else
      var s := symbols[|symbols| - 1];
      HeatOver(sys, symbols[..|symbols| - 1]) + (if s in sys.positions then HeatOf(sys.positions[s]) else 0.0)
  }

  lemma {:induction false} BookHeatFalls(sys: Sys, sys1: Sys, symbols: seq<Symbol>)
    requires BookImproves(sys, sys1)
    ensures HeatOver(sys1, symbols) <= HeatOver(sys, symbols)
  {
    if symbols != [] {
      BookHeatFalls(sys, sys1, symbols[..|symbols| - 1]);
      var s := symbols[|symbols| - 1];
      if s in sys.positions {
        HeatFalls(sys.positions[s], sys1.positions[s]);
      }
    }
  }

  lemma {:induction false} ImprovesTrans(sys: Sys, sys1: Sys, sys2: Sys)
    requires BookImproves(sys, sys1) && BookImproves(sys1, sys2)
    ensures BookImproves(sys, sys2)
  {
  }

  /** Over any run without a new entry - with failing broker calls, forced stop
      changes, manual closes and restarts at any moment - every stop only moves
      toward profit, phases only advance, and the book's currency at risk never
      rises; a position past RISK_ON carries none. */
  lemma {:induction false} StopsAndHeatOnlyImprove(cfg: Config, m: Market, sys: Sys, es: seq<Event>,
                                                   symbols: seq<Symbol>)
    requires Disciplined(sys) && forall e :: e in es ==> !e.EntryEvent?
    ensures var sys1 := RunSys(cfg, m, sys, es);
            && Disciplined(sys1) && BookImproves(sys, sys1)
            && HeatOver(sys1, symbols) <= HeatOver(sys, symbols)
            && forall s :: s in sys1.positions && sys1.positions[s].phase != RiskOn ==>
                             HeatOf(sys1.positions[s]) == 0.0
  {
    var sys1 := RunSys(cfg, m, sys, es);
    if es != [] {
      var pre := es[..|es| - 1];
      StopsAndHeatOnlyImprove(cfg, m, sys, pre, symbols);
      StepImproves(cfg, m, RunSys(cfg, m, sys, pre), es[|es| - 1]);
      ImprovesTrans(sys, RunSys(cfg, m, sys, pre), sys1);
    }
    BookHeatFalls(sys, sys1, symbols);
    forall s | s in sys1.positions && sys1.positions[s].phase != RiskOn
      ensures HeatOf(sys1.positions[s]) == 0.0
    {
      ZeroHeatPastRiskOn(sys1.positions[s]);
    }
  }
}
