/** The adaptive exit engine. The functions describe one position and the broker
    book it is managed against (`World`); class `ExitManager` performs the same
    steps on `ManagedPosition` objects and is proved to agree with them, whether
    a call returns or raises part-way through. */
module ExitEngine {
  import opened Basics
  import opened PaperBroker
  import opened StopAdapters

  datatype Phase = RiskOn | Breakeven | Trailing | Exited

  datatype ExitReason = StopHit | TimeStop | WeekendFlatten | ManualClose

  datatype Telemetry = Telemetry(reason: ExitReason, price: real, realizedR: real, mfeR: real, capturedPct: real)

  datatype Position = Position(
    symbol: Symbol, direction: Side, entry: real, qty: real, atr: real, leg: Leg,
    stop: real, rValue: real, stopId: nat, phase: Phase, extreme: real,
    barsNoProgress: int, partialsTaken: seq<real>, remaining: real, lot: real,
    profitLocked: bool, telemetry: Option<Telemetry>)

  datatype Partial = Partial(atR: real, pct: real)

  datatype ProfitLock = ProfitLock(atR: real, lockR: real, trailK: real)

  datatype WeekendPolicy = Flatten | Tighten | Hold

  datatype ConfigValues = Config(
    kSlInitial: Leg -> real,
    kTrailByRegime: map<string, real>,
    partials: seq<Partial>,
    breakevenAtR: real,
    minRatchetStepAtr: real,
    maxBarsNoProgress: Leg -> int,
    eventTightenMinutes: real,
    weekendPolicy: WeekendPolicy,
    profitLock: Option<ProfitLock>)

  /** The trail table always has the two entries the engine looks up by name. */
  type Config = c: ConfigValues | "RANGE" in c.kTrailByRegime && "SHOCK" in c.kTrailByRegime
    witness Config(_ => 0.0, map["RANGE" := 0.0, "SHOCK" := 0.0], [], 0.0, 0.0, _ => 0, 0.0, Hold, None)

  datatype Regime = Regime(trend: string, shock: bool)

  datatype Bar = Bar(high: real, low: real, close: real, regime: Regime, eventMinutes: Option<real>,
                     cryptoWeekend: bool)

  datatype Action =
    | SkippedCorruptBar | ExitedOnWeekend | ExitedOnStop | ExitedOnTime
    | StopToBreakeven | Partial1 | Partial2 | ProfitLocked(lockR: real) | Trailed(k: real)

  /** A position together with the book it is managed against. */
  datatype World = World(pos: Position, book: Book)

  /** The result of an engine step: it returned, or an exception left it. */
  datatype Step<+T> = Done(w: World, value: T) | Raised(w: World) {
    predicate IsFailure() { Raised? }

    function PropagateFailure<U>(): Step<U>
      requires Raised?
    {
      Raised(w)
    }

    function Extract(): (World, T)
      requires Done?
    {
      (w, value)
    }

    function Returned(): Option<T> {
      if Done? then Some(value) else None
    }
  }

  /** What no step changes once a position is attached. */
  predicate SameTrade(p: Position, q: Position) {
    && q.symbol == p.symbol && q.direction == p.direction && q.entry == p.entry && q.qty == p.qty
    && q.atr == p.atr && q.leg == p.leg && q.rValue == p.rValue && q.lot == p.lot
  }

  /** q's stop is at least as far toward profit as p's. */
  predicate NoWider(p: Position, q: Position) {
    if p.direction.Buy? then q.stop >= p.stop else q.stop <= p.stop
  }

  predicate StopAtEntry(p: Position) {
    if p.direction.Buy? then p.stop >= p.entry else p.stop <= p.entry
  }

  /** Past RISK_ON the stop can no longer lose. */
  predicate RiskFree(p: Position) {
    p.phase == Breakeven || p.phase == Trailing ==> StopAtEntry(p)
  }

  // ---------- attach ----------

  function InitialStop(cfg: Config, direction: Side, entry: real, atr: real, leg: Leg, structure: Option<real>)
    : real
  {
    var dist := cfg.kSlInitial(leg) * atr;
    var widest := if structure.Some? then Max(dist, Abs(entry - structure.value)) else dist;
    if direction.Buy? then entry - widest else entry + widest
  }

  function Attached(s: Symbol, direction: Side, entry: real, qty: real, atr: real, leg: Leg, lot: real,
                    stop: real, stopId: nat): Position
  {
    Position(s, direction, entry, qty, atr, leg, stop, Abs(entry - stop), stopId, RiskOn, entry, 0, [], qty,
             lot, false, None)
  }

  /** `None` when the inputs are refused or the stop could not be placed. */
  function Attach(cfg: Config, m: Market, b: Book, s: Symbol, direction: Side, entry: real, qty: real,
                  atr: real, leg: Leg, structure: Option<real>, lot: real): (Book, Option<Position>)
  {
    if entry <= 0.0 || qty <= 0.0 || atr <= 0.0 || lot <= 0.0 then (b, None)
    else
      var stop := InitialStop(cfg, direction, entry, atr, leg, structure);
      var (b1, id) := PlaceStop(m, b, leg, s, qty, stop, direction);
      (b1, if id.None? then None
           else Some(Attached(s, direction, entry, qty, atr, leg, lot, stop, id.value)))
  }

  // ---------- the only way a stop moves ----------

  predicate Improving(p: Position, candidate: real) {
    if p.direction.Buy? then candidate > p.stop else candidate < p.stop
  }

  /** Too small a step to be worth a broker call; never in RISK_ON. */
  predicate Batched(cfg: Config, p: Position, candidate: real) {
    Abs(candidate - p.stop) < cfg.minRatchetStepAtr * p.atr && p.phase != RiskOn
  }

  /** A stop change that goes to the broker: improving and not batched away. */
  predicate Takes(cfg: Config, p: Position, candidate: real) {
    Improving(p, candidate) && !Batched(cfg, p, candidate)
  }

  function Ratchet(cfg: Config, w: World, candidate: real, force: bool): (r: Step<bool>)
    ensures r.w.pos == w.pos.(stop := r.w.pos.stop)
  {
    if !Improving(w.pos, candidate) then if force then Raised(w) else Done(w, false)
    else if Batched(cfg, w.pos, candidate) then Done(w, false)
    else
      var (b1, ok) := ModifyStop(w.book, w.pos.leg, w.pos.stopId, candidate);
      var w1 := World(w.pos.(stop := candidate), b1);
      if ok then Done(w1, true) else Raised(w1)
  }

  // ---------- helpers ----------

  function RMultiple(p: Position, price: real): real {
    var move := if p.direction.Buy? then price - p.entry else p.entry - price;
    if p.rValue != 0.0 then move / p.rValue else 0.0
  }

  function KTrail(cfg: Config, bar: Bar, leg: Leg): real {
    var base := if bar.regime.shock then cfg.kTrailByRegime["SHOCK"]
                else if bar.regime.trend in cfg.kTrailByRegime then cfg.kTrailByRegime[bar.regime.trend]
                else cfg.kTrailByRegime["RANGE"];
    var k := if bar.eventMinutes.Some? && bar.eventMinutes.value <= cfg.eventTightenMinutes then base / 2.0
             else base;
    if bar.cryptoWeekend && leg.Crypto? && cfg.weekendPolicy.Tighten? then k / 2.0 else k
  }

  function PercentOf(qty: real, pct: real): real {
    qty * pct / 100.0
  }

  /** The lot-floored slice of the original quantity a partial sells. */
  function Carve(p: Position, pct: real): real
    requires p.lot > 0.0
  {
    FloorLot(PercentOf(p.qty, pct), p.lot)
  }

  function TakePartial(m: Market, w: World, partial: Partial): (r: Step<()>)
    requires w.pos.lot > 0.0
    ensures SameTrade(w.pos, r.w.pos)
  {
    TakeQty(m, w, partial.atR, Carve(w.pos, partial.pct))
  }

  /** Sells qty at market, then re-places the stop for what remains. */
  function TakeQty(m: Market, w: World, atR: real, qty: real): (r: Step<()>)
    ensures SameTrade(w.pos, r.w.pos)
  {
    var p1 := w.pos.(partialsTaken := w.pos.partialsTaken + [atR]);
    if qty <= 0.0 then Done(World(p1, w.book), ())
    else
      var (b1, ok) := ExitMarket(m, w.book, p1.leg, p1.symbol, qty, p1.direction);
      if !ok then Raised(World(p1, b1))
      else
        var p2 := p1.(remaining := Max(0.0, p1.remaining - qty));
        if p2.remaining <= 0.0 then Done(World(p2, b1), ())
        else
          var (b2, id) := ReplaceStop(m, b1, p2.leg, p2.stopId, p2.symbol, p2.remaining, p2.stop, p2.direction);
          if id.None? then Raised(World(p2, b2)) else Done(World(p2.(stopId := id.value), b2), ())
  }

  function Report(p: Position, price: real, reason: ExitReason): Telemetry {
    var mfe := RMultiple(p, p.extreme);
    var realized := RMultiple(p, price);
    Telemetry(reason, price, realized, mfe, if mfe > 0.0 then realized / mfe * 100.0 else 0.0)
  }

  /** On a stop hit no order is sent: the resting stop has already sold. Any
      other exit cancels the stop, ignoring a failure, and closes at market. */
  function Exit(m: Market, w: World, price: real, reason: ExitReason): (r: Step<()>)
    requires w.pos.lot > 0.0
    ensures SameTrade(w.pos, r.w.pos) && r.w.pos.phase == Exited
  {
    var p1 := w.pos.(telemetry := Some(Report(w.pos, price, reason)), phase := Exited);
    if reason.StopHit? then Done(World(p1, w.book), ())
    else
      var b1 := CancelStop(w.book, p1.leg, p1.stopId).0;
      var qty := FloorLot(p1.remaining, p1.lot);
      if qty <= 0.0 then Done(World(p1, b1), ())
      else
        var (b2, ok) := ExitMarket(m, b1, p1.leg, p1.symbol, qty, p1.direction);
        if ok then Done(World(p1, b2), ()) else Raised(World(p1, b2))
  }

  // ---------- one bar ----------

  predicate FlattensOn(cfg: Config, p: Position, bar: Bar) {
    bar.cryptoWeekend && p.leg.Crypto? && cfg.weekendPolicy.Flatten?
  }

  predicate StopTouched(p: Position, bar: Bar) {
    if p.direction.Buy? then bar.low <= p.stop else bar.high >= p.stop
  }

  /** Extremes and the no-progress counter. */
  function Observe(p: Position, bar: Bar): Position {
    var e := if p.direction.Buy? then Max(p.extreme, bar.high) else Min(p.extreme, bar.low);
    if e != p.extreme then p.(extreme := e, barsNoProgress := 0)
    else p.(barsNoProgress := p.barsNoProgress + 1)
  }

  function BreakevenStage(cfg: Config, m: Market, w: World, rNow: real): (r: Step<seq<Action>>)
    requires w.pos.lot > 0.0
    ensures SameTrade(w.pos, r.w.pos)
  {
    if !(w.pos.phase == RiskOn && rNow >= cfg.breakevenAtR) then Done(w, [])
    else
      var (w1, moved) :- Ratchet(cfg, w, w.pos.entry, false);
      var a1 := if moved then [StopToBreakeven] else [];
      if cfg.partials != [] && cfg.partials[0].atR !in w1.pos.partialsTaken then
        var (w2, _) :- TakePartial(m, w1, cfg.partials[0]);
        Done(w2.(pos := w2.pos.(phase := Breakeven)), a1 + [Partial1])
      else Done(w1.(pos := w1.pos.(phase := Breakeven)), a1)
  }

  function TrailingStage(cfg: Config, m: Market, w: World, rNow: real): (r: Step<seq<Action>>)
    requires w.pos.lot > 0.0
    ensures SameTrade(w.pos, r.w.pos)
  {
    if !(w.pos.phase == Breakeven && |cfg.partials| > 1 && rNow >= cfg.partials[1].atR) then Done(w, [])
    else if cfg.partials[1].atR !in w.pos.partialsTaken then
      var (w1, _) :- TakePartial(m, w, cfg.partials[1]);
      Done(w1.(pos := w1.pos.(phase := Trailing)), [Partial2])
    else Done(w.(pos := w.pos.(phase := Trailing)), [])
  }

  function LockLevel(p: Position, lockR: real): real {
    if p.direction.Buy? then p.entry + lockR * p.rValue else p.entry - lockR * p.rValue
  }

  function LockStage(cfg: Config, w: World, rNow: real): (r: Step<seq<Action>>)
    ensures SameTrade(w.pos, r.w.pos)
  {
    if cfg.profitLock.None? || w.pos.profitLocked || rNow < cfg.profitLock.value.atR then Done(w, [])
    else
      var lockR := cfg.profitLock.value.lockR;
      var (w1, moved) :- Ratchet(cfg, w, LockLevel(w.pos, lockR), false);
      Done(w1.(pos := w1.pos.(profitLocked := true)), if moved then [ProfitLocked(lockR)] else [])
  }

  function TrailK(cfg: Config, p: Position, bar: Bar): real {
    var k := KTrail(cfg, bar, p.leg);
    if p.profitLocked && cfg.profitLock.Some? then Min(k, cfg.profitLock.value.trailK) else k
  }

  function Chandelier(p: Position, k: real): real {
    if p.direction.Buy? then p.extreme - k * p.atr else p.extreme + k * p.atr
  }

  function ChandelierStage(cfg: Config, w: World, bar: Bar): (r: Step<seq<Action>>)
    ensures SameTrade(w.pos, r.w.pos)
  {
    if !(w.pos.phase == Breakeven || w.pos.phase == Trailing || w.pos.profitLocked) then Done(w, [])
    else
      var k := TrailK(cfg, w.pos, bar);
      var (w1, moved) :- Ratchet(cfg, w, Chandelier(w.pos, k), false);
      Done(w1, if moved then [Trailed(k)] else [])
  }

  /** Steps 4 to 6 of a bar, once the exits have been ruled out. */
  function Manage(cfg: Config, m: Market, w: World, bar: Bar): (r: Step<seq<Action>>)
    requires w.pos.lot > 0.0
    ensures SameTrade(w.pos, r.w.pos)
  {
    var rNow := RMultiple(w.pos, bar.close);
    var (w1, a1) :- BreakevenStage(cfg, m, w, rNow);
    var (w2, a2) :- TrailingStage(cfg, m, w1, rNow);
    var (w3, a3) :- LockStage(cfg, w2, rNow);
    var (w4, a4) :- ChandelierStage(cfg, w3, bar);
    Done(w4, a1 + a2 + a3 + a4)
  }

  function OnBar(cfg: Config, m: Market, w: World, bar: Bar): (r: Step<seq<Action>>)
    requires w.pos.lot > 0.0
    ensures SameTrade(w.pos, r.w.pos)
  {
    if w.pos.phase == Exited then Done(w, [])
    else if bar.high < bar.low then Done(w, [SkippedCorruptBar])
    else if FlattensOn(cfg, w.pos, bar) then
      var (w1, _) :- Exit(m, w, bar.close, WeekendFlatten);
      Done(w1, [ExitedOnWeekend])
    else if StopTouched(w.pos, bar) then
      Done(Exit(m, w, w.pos.stop, StopHit).w, [ExitedOnStop])
    else
      var w1 := w.(pos := Observe(w.pos, bar));
      if w1.pos.barsNoProgress >= cfg.maxBarsNoProgress(w1.pos.leg) then
        var (w2, _) :- Exit(m, w1, bar.close, TimeStop);
        Done(w2, [ExitedOnTime])
      else Manage(cfg, m, w1, bar)
  }

  lemma {:induction false} ExitReports(m: Market, w: World, price: real, reason: ExitReason)
    requires w.pos.lot > 0.0
    ensures Exit(m, w, price, reason).w.pos
            == w.pos.(telemetry := Some(Report(w.pos, price, reason)), phase := Exited)
  {
  }

  /** A bar that closes nothing and is not corrupt is only observed and managed. */
  predicate Manages(cfg: Config, p: Position, bar: Bar) {
    && p.phase != Exited && bar.high >= bar.low && !FlattensOn(cfg, p, bar) && !StopTouched(p, bar)
    && Observe(p, bar).barsNoProgress < cfg.maxBarsNoProgress(p.leg)
  }

  lemma {:induction false} ManagingBar(cfg: Config, m: Market, w: World, bar: Bar)
    requires w.pos.lot > 0.0 && Manages(cfg, w.pos, bar)
    ensures OnBar(cfg, m, w, bar) == Manage(cfg, m, w.(pos := Observe(w.pos, bar)), bar)
  {
  }

  function ExitedAs(step: Step<()>, a: Action): Step<seq<Action>> {
    if step.Done? then Done(step.w, [a]) else Raised(step.w)
  }

  /** Any other bar leaves the position alone or exits it. */
  lemma {:induction false} ExitingBar(cfg: Config, m: Market, w: World, bar: Bar)
    requires w.pos.lot > 0.0 && !Manages(cfg, w.pos, bar)
    ensures var r := OnBar(cfg, m, w, bar);
            if w.pos.phase == Exited || bar.high < bar.low then r.Done? && r.w == w
            else if FlattensOn(cfg, w.pos, bar) then
              r == ExitedAs(Exit(m, w, bar.close, WeekendFlatten), ExitedOnWeekend)
            else if StopTouched(w.pos, bar) then r == ExitedAs(Exit(m, w, w.pos.stop, StopHit), ExitedOnStop)
            else r == ExitedAs(Exit(m, w.(pos := Observe(w.pos, bar)), bar.close, TimeStop), ExitedOnTime)
  {
  }

  /** What survives a restart: everything but the exit reports. */
  function SnapshotOf(positions: map<Symbol, Position>): map<Symbol, Position> {
    map s | s in positions :: positions[s].(telemetry := None)
  }

  // ---------- the engine object ----------

  class ManagedPosition {
    const symbol: Symbol
    const direction: Side
    const entry: real
    const qty: real
    const atr: real
    const leg: Leg
    const rValue: real
    const lot: real
    var stop: real
    var stopId: nat
    var phase: Phase
    var extreme: real
    var barsNoProgress: int
    var partialsTaken: seq<real>
    var remaining: real
    var profitLocked: bool
    var telemetry: Option<Telemetry>

    function Value(): Position
      reads this
    {
      Position(symbol, direction, entry, qty, atr, leg, stop, rValue, stopId, phase, extreme, barsNoProgress,
               partialsTaken, remaining, lot, profitLocked, telemetry)
    }

    constructor (p: Position)
      ensures Value() == p
    {
      symbol, direction, entry, qty, atr, leg := p.symbol, p.direction, p.entry, p.qty, p.atr, p.leg;
      stop, rValue, stopId, phase, extreme := p.stop, p.rValue, p.stopId, p.phase, p.extreme;
      barsNoProgress, partialsTaken, remaining, lot := p.barsNoProgress, p.partialsTaken, p.remaining, p.lot;
      profitLocked, telemetry := p.profitLocked, p.telemetry;
    }
  }

  class ExitManager {
    const cfg: Config
    const adapter: Adapter
    const broker: Broker
    var positions: map<Symbol, ManagedPosition>

    ghost predicate Valid()
      reads this, positions.Values
    {
      && adapter.Valid() && broker == adapter.broker
      && (forall s :: s in positions ==> positions[s].symbol == s && positions[s].lot > 0.0)
    }

    /** The managed positions as values. */
    ghost function Positions(): map<Symbol, Position>
      reads this, positions.Values
    {
      map s | s in positions :: positions[s].Value()
    }

    constructor (cfg: Config, adapter: Adapter)
      requires adapter.Valid()
      ensures Valid() && this.adapter == adapter && broker == adapter.broker && this.cfg == cfg
      ensures Positions() == map[]
    {
      this.cfg, this.adapter, this.broker, positions := cfg, adapter, adapter.broker, map[];
    }

    method Track(p: Position)
      requires Valid() && p.lot > 0.0
      modifies this
      ensures Valid()
      ensures Positions() == old(Positions())[p.symbol := p]
    {
      var pos := new ManagedPosition(p);
      positions := positions[p.symbol := pos];
    }

    method AttachStop(symbol: Symbol, direction: Side, entry: real, qty: real, atr: real, leg: Leg,
                      structure: Option<real>, lot: real) returns (ok: bool)
      requires Valid()
      modifies this, broker
      ensures Valid()
      ensures var (b, p) := Attach(cfg, broker.market, old(broker.State()), symbol, direction, entry, qty, atr,
                                   leg, structure, lot);
              && broker.State() == b && ok == p.Some?
              && Positions() == if p.Some? then old(Positions())[symbol := p.value] else old(Positions())
    {
      if entry <= 0.0 || qty <= 0.0 || atr <= 0.0 || lot <= 0.0 {
        return false;
      }
      var stop := InitialStop(cfg, direction, entry, atr, leg, structure);
      var id := adapter.Place(symbol, qty, stop, leg, direction);
      if id.None? {
        return false;
      }
      Track(Attached(symbol, direction, entry, qty, atr, leg, lot, stop, id.value));
      return true;
    }

    method RatchetStop(pos: ManagedPosition, candidate: real, force: bool) returns (r: Option<bool>)
      requires adapter.Valid() && broker == adapter.broker
      modifies pos, broker
      ensures var step := Ratchet(cfg, old(World(pos.Value(), broker.State())), candidate, force);
              World(pos.Value(), broker.State()) == step.w && r == step.Returned()
    {
      var improving := if pos.direction.Buy? then candidate > pos.stop else candidate < pos.stop;
      if !improving {
        return if force then None else Some(false);
      }
      if Batched(cfg, pos.Value(), candidate) {
        return Some(false);
      }
      pos.stop := candidate;
      var ok := adapter.Modify(pos.stopId, candidate, pos.leg);
      return if ok then Some(true) else None;
    }

    method SellPartial(pos: ManagedPosition, partial: Partial) returns (r: Option<()>)
      requires adapter.Valid() && broker == adapter.broker && pos.lot > 0.0
      modifies pos, broker
      ensures var step := TakePartial(broker.market, old(World(pos.Value(), broker.State())), partial);
              World(pos.Value(), broker.State()) == step.w && r == step.Returned()
    {
      var qty := Carve(pos.Value(), partial.pct);
      pos.partialsTaken := pos.partialsTaken + [partial.atR];
      if qty <= 0.0 {
        return Some(());
      }
      var ok := adapter.Exit(pos.symbol, qty, pos.leg, pos.direction);
      if !ok {
        return None;
      }
      pos.remaining := Max(0.0, pos.remaining - qty);
      if pos.remaining > 0.0 {
        var id := adapter.Replace(pos.stopId, pos.symbol, pos.remaining, pos.stop, pos.leg, pos.direction);
        if id.None? {
          return None;
        }
        pos.stopId := id.value;
      }
      return Some(());
    }

    method Close(pos: ManagedPosition, price: real, reason: ExitReason) returns (r: Option<()>)
      requires adapter.Valid() && broker == adapter.broker && pos.lot > 0.0
      modifies pos, broker
      ensures var step := Exit(broker.market, old(World(pos.Value(), broker.State())), price, reason);
              World(pos.Value(), broker.State()) == step.w && r == step.Returned()
    {
      pos.telemetry := Some(Report(pos.Value(), price, reason));
      pos.phase := Exited;
      if !reason.StopHit? {
        var _ := adapter.Cancel(pos.stopId, pos.leg);
        var qty := FloorLot(pos.remaining, pos.lot);
        if qty > 0.0 {
          var ok := adapter.Exit(pos.symbol, qty, pos.leg, pos.direction);
          if !ok {
            return None;
          }
        }
      }
      return Some(());
    }

    /** Raises for an unknown or already exited symbol without touching anything. */
    method ManualExit(symbol: Symbol, price: real) returns (r: Option<()>)
      requires Valid()
      modifies positions.Values, broker
      ensures Valid()
      ensures positions == old(positions)
      ensures symbol !in positions || old(positions[symbol].phase) == Exited ==>
                r == None && Positions() == old(Positions()) && broker.State() == old(broker.State())
      ensures symbol in positions && old(positions[symbol].phase) != Exited ==>
                var step := Exit(broker.market, old(World(positions[symbol].Value(), broker.State())), price,
                                 ManualClose);
                && broker.State() == step.w.book && r == step.Returned()
                && Positions() == old(Positions())[symbol := step.w.pos]
    {
      if symbol !in positions || positions[symbol].phase == Exited {
        return None;
      }
      r := Close(positions[symbol], price, ManualClose);
    }

    method ReachBreakeven(pos: ManagedPosition, rNow: real) returns (r: Option<seq<Action>>)
      requires adapter.Valid() && broker == adapter.broker && pos.lot > 0.0
      modifies pos, broker
      ensures var step := BreakevenStage(cfg, broker.market, old(World(pos.Value(), broker.State())), rNow);
              World(pos.Value(), broker.State()) == step.w && r == step.Returned()
    {
      var actions: seq<Action> := [];
      if pos.phase == RiskOn && rNow >= cfg.breakevenAtR {
        var moved := RatchetStop(pos, pos.entry, false);
        if moved.None? {
          return None;
        }
        if moved.value {
          actions := [StopToBreakeven];
        }
        if cfg.partials != [] && cfg.partials[0].atR !in pos.partialsTaken {
          var sold := SellPartial(pos, cfg.partials[0]);
          if sold.None? {
            return None;
          }
          actions := actions + [Partial1];
        }
        pos.phase := Breakeven;
      }
      return Some(actions);
    }

    method ReachTrailing(pos: ManagedPosition, rNow: real) returns (r: Option<seq<Action>>)
      requires adapter.Valid() && broker == adapter.broker && pos.lot > 0.0
      modifies pos, broker
      ensures var step := TrailingStage(cfg, broker.market, old(World(pos.Value(), broker.State())), rNow);
              World(pos.Value(), broker.State()) == step.w && r == step.Returned()
    {
      var actions: seq<Action> := [];
      if pos.phase == Breakeven && |cfg.partials| > 1 && rNow >= cfg.partials[1].atR {
        if cfg.partials[1].atR !in pos.partialsTaken {
          var sold := SellPartial(pos, cfg.partials[1]);
          if sold.None? {
            return None;
          }
          actions := [Partial2];
        }
        pos.phase := Trailing;
      }
      return Some(actions);
    }

    method LockProfit(pos: ManagedPosition, rNow: real) returns (r: Option<seq<Action>>)
      requires adapter.Valid() && broker == adapter.broker
      modifies pos, broker
      ensures var step := LockStage(cfg, old(World(pos.Value(), broker.State())), rNow);
              World(pos.Value(), broker.State()) == step.w && r == step.Returned()
    {
      var actions: seq<Action> := [];
      var pl := cfg.profitLock;
      if pl.Some? && !pos.profitLocked && rNow >= pl.value.atR {
        var moved := RatchetStop(pos, LockLevel(pos.Value(), pl.value.lockR), false);
        if moved.None? {
          return None;
        }
        if moved.value {
          actions := [ProfitLocked(pl.value.lockR)];
        }
        pos.profitLocked := true;
      }
      return Some(actions);
    }

    method TrailStop(pos: ManagedPosition, bar: Bar) returns (r: Option<seq<Action>>)
      requires adapter.Valid() && broker == adapter.broker
      modifies pos, broker
      ensures var step := ChandelierStage(cfg, old(World(pos.Value(), broker.State())), bar);
              World(pos.Value(), broker.State()) == step.w && r == step.Returned()
    {
      var actions: seq<Action> := [];
      if pos.phase == Breakeven || pos.phase == Trailing || pos.profitLocked {
        var k := TrailK(cfg, pos.Value(), bar);
        var moved := RatchetStop(pos, Chandelier(pos.Value(), k), false);
        if moved.None? {
          return None;
        }
        if moved.value {
          actions := [Trailed(k)];
        }
      }
      return Some(actions);
    }

    /** Step 2 of a bar: the favourable extreme, or one more bar without progress. */
    method NoteExtreme(pos: ManagedPosition, bar: Bar)
      modifies pos
      ensures pos.Value() == Observe(old(pos.Value()), bar)
    {
      var newExtreme := if pos.direction.Buy? then Max(pos.extreme, bar.high) else Min(pos.extreme, bar.low);
      if newExtreme != pos.extreme {
        pos.extreme := newExtreme;
        pos.barsNoProgress := 0;
      } else {
        pos.barsNoProgress := pos.barsNoProgress + 1;
      }
    }

    /** `on_bar` for a position that is on the books. */
    method OnPositionBar(pos: ManagedPosition, bar: Bar) returns (r: Option<seq<Action>>)
      requires adapter.Valid() && broker == adapter.broker && pos.lot > 0.0
      modifies pos, broker
      ensures var step := OnBar(cfg, broker.market, old(World(pos.Value(), broker.State())), bar);
              World(pos.Value(), broker.State()) == step.w && r == step.Returned()
    {
      if pos.phase == Exited {
        return Some([]);
      }
      if bar.high < bar.low {
        return Some([SkippedCorruptBar]);
      }
      if bar.cryptoWeekend && pos.leg.Crypto? && cfg.weekendPolicy.Flatten? {
        var closed := Close(pos, bar.close, WeekendFlatten);
        return if closed.None? then None else Some([ExitedOnWeekend]);
      }
      var hit := if pos.direction.Buy? then bar.low <= pos.stop else bar.high >= pos.stop;
      if hit {
        var _ := Close(pos, pos.stop, StopHit);
        return Some([ExitedOnStop]);
      }
      NoteExtreme(pos, bar);
      if pos.barsNoProgress >= cfg.maxBarsNoProgress(pos.leg) {
        var closed := Close(pos, bar.close, TimeStop);
        return if closed.None? then None else Some([ExitedOnTime]);
      }
      r := ManagePosition(pos, bar);
    }

    method ManagePosition(pos: ManagedPosition, bar: Bar) returns (r: Option<seq<Action>>)
      requires adapter.Valid() && broker == adapter.broker && pos.lot > 0.0
      modifies pos, broker
      ensures var step := Manage(cfg, broker.market, old(World(pos.Value(), broker.State())), bar);
              World(pos.Value(), broker.State()) == step.w && r == step.Returned()
    {
      var rNow := RMultiple(pos.Value(), bar.close);
      var a1 := ReachBreakeven(pos, rNow);
      if a1.None? {
        return None;
      }
      var a2 := ReachTrailing(pos, rNow);
      if a2.None? {
        return None;
      }
      var a3 := LockProfit(pos, rNow);
      if a3.None? {
        return None;
      }
      var a4 := TrailStop(pos, bar);
      return if a4.None? then None else Some(a1.value + a2.value + a3.value + a4.value);
    }

    /** An unknown symbol is ignored; every other position is left alone. */
    method HandleBar(symbol: Symbol, bar: Bar) returns (r: Option<seq<Action>>)
      requires Valid()
      modifies positions.Values, broker
      ensures Valid()
      ensures positions == old(positions)
      ensures symbol !in positions ==>
                r == Some([]) && Positions() == old(Positions()) && broker.State() == old(broker.State())
      ensures symbol in positions ==>
                var step := OnBar(cfg, broker.market, old(World(positions[symbol].Value(), broker.State())), bar);
                && broker.State() == step.w.book && r == step.Returned()
                && Positions() == old(Positions())[symbol := step.w.pos]
    {
      if symbol !in positions {
        return Some([]);
      }
      r := OnPositionBar(positions[symbol], bar);
    }

    /** `to_snapshot`: every field but the telemetry. */
    method ToSnapshot() returns (snapshot: map<Symbol, Position>)
      requires Valid()
      ensures snapshot == SnapshotOf(Positions())
    {
      snapshot := map s | s in positions :: positions[s].Value().(telemetry := None);
    }

    /** `from_snapshot`: a fresh engine on the same adapter. */
    constructor FromSnapshot(snapshot: map<Symbol, Position>, cfg: Config, adapter: Adapter)
      requires adapter.Valid()
      requires forall s :: s in snapshot ==> snapshot[s].symbol == s && snapshot[s].lot > 0.0
      ensures Valid() && this.adapter == adapter && broker == adapter.broker && this.cfg == cfg
      ensures Positions() == snapshot
    {
      this.cfg, this.adapter, this.broker, positions := cfg, adapter, adapter.broker, map[];
      new;
      var todo := snapshot.Keys;
      while todo != {}
        invariant todo <= snapshot.Keys
        invariant positions.Keys == snapshot.Keys - todo
        invariant forall s :: s in positions ==> fresh(positions[s]) && positions[s].Value() == snapshot[s]
        decreases todo
      {
        var s :| s in todo;
        var pos := new ManagedPosition(snapshot[s]);
        positions := positions[s := pos];
        todo := todo - {s};
      }
    }

    method ForceStopChange(symbol: Symbol, stop: real) returns (r: Option<bool>)
      requires Valid()
      requires symbol in positions
      modifies positions.Values, broker
      ensures Valid()
      ensures positions == old(positions)
      ensures var step := Ratchet(cfg, old(World(positions[symbol].Value(), broker.State())), stop, true);
              && broker.State() == step.w.book && r == step.Returned()
              && Positions() == old(Positions())[symbol := step.w.pos]
    {
      r := RatchetStop(positions[symbol], stop, true);
    }
  }

  /** Saving and restoring: the new engine manages the same symbols, every
      position that has no exit report yet comes back exactly as it was, and an
      exited one loses its report and nothing else. */
  method Restart(saved: ExitManager) returns (restored: ExitManager)
    requires saved.Valid()
    ensures fresh(restored) && restored.Valid()
    ensures restored.cfg == saved.cfg && restored.adapter == saved.adapter && restored.broker == saved.broker
    ensures restored.Positions().Keys == saved.Positions().Keys
    ensures forall s :: s in saved.Positions() ==>
                          var p, q := saved.Positions()[s], restored.Positions()[s];
                          if p.telemetry.None? then q == p else q.telemetry.None? && q.(telemetry := p.telemetry) == p
  {
    var snapshot := saved.ToSnapshot();
    restored := new ExitManager.FromSnapshot(snapshot, saved.cfg, saved.adapter);
  }
}
