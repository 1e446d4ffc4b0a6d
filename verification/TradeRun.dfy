/** Whole runs of the trading loop: ticks feed the broker and a window per
    symbol, bars close windows, entries attach, operators intervene, the process
    restarts. The engine and the broker agree throughout a run if and only if
    every event meets its condition in `Allowed`. */
module TradeRun {
  import opened Basics
  import opened PaperBroker
  import opened StopAdapters
  import opened Ledger
  import opened BookFacts
  import opened ExitEngine
  import opened Agreement
  import opened BarWindows
  import opened UsedIds

  /** `windows` holds the ticks of each symbol since its last bar; they live in the
      feed's memory, so a restart loses them and keeps the snapshot only. */
  datatype Sys = Sys(book: Book, positions: map<Symbol, Position>, windows: map<Symbol, seq<real>>)

  datatype Event =
    | TickEvent(symbol: Symbol, price: real)
    | BarEvent(symbol: Symbol, regime: Regime, eventMinutes: Option<real>, weekend: bool)
    | EntryEvent(symbol: Symbol, direction: Side, qty: real, atr: real, leg: Leg, structure: Option<real>, lot: real)
    | ForceEvent(symbol: Symbol, stop: real)
    | ManualEvent(symbol: Symbol, price: real)
    | RestartEvent

  function WindowOf(sys: Sys, s: Symbol): seq<real> {
    if s in sys.windows then sys.windows[s] else []
  }

  predicate Live(sys: Sys, s: Symbol) {
    s in sys.positions && sys.positions[s].phase != Exited
  }

  function Managing(sys: Sys, s: Symbol): World
    requires s in sys.positions
  {
    World(sys.positions[s], sys.book)
  }

  function Updated(sys: Sys, s: Symbol, w: World): Sys {
    sys.(book := w.book, positions := sys.positions[s := w.pos])
  }

  function Enter(cfg: Config, m: Market, sys: Sys, e: Event): Sys
    requires e.EntryEvent?
  {
    var (b1, r) := Place(m, sys.book, Payload(e.symbol, e.direction, e.qty, AtMarket));
    if r.Refused? || r.avg.None? then sys.(book := b1)
    else
      var (b2, p) := Attach(cfg, m, b1, e.symbol, e.direction, r.avg.value, r.filled, e.atr, e.leg, e.structure,
                            e.lot);
      sys.(book := b2, positions := if p.Some? then sys.positions[e.symbol := p.value] else sys.positions)
  }

  /** Lot sizes are positive; `attach` refuses anything else. */
  predicate Lotted(sys: Sys) {
    forall s :: s in sys.positions ==> sys.positions[s].lot > 0.0
  }

  function StepSys(cfg: Config, m: Market, sys: Sys, e: Event): (r: Sys)
    requires Lotted(sys)
    ensures Lotted(r)
  {
    match e
    case TickEvent(s, price) =>
      if price <= 0.0 then sys
      else sys.(book := Tick(m, sys.book, s, price), windows := sys.windows[s := WindowOf(sys, s) + [price]])
    case BarEvent(s, regime, eventMinutes, weekend) =>
      if WindowOf(sys, s) == [] then sys
      else if s !in sys.positions then sys.(windows := sys.windows[s := []])
      else
        var bar := BarOf(WindowOf(sys, s), regime, eventMinutes, weekend);
        Updated(sys, s, OnBar(cfg, m, Managing(sys, s), bar).w).(windows := sys.windows[s := []])
    case EntryEvent(_, _, _, _, _, _, _) => Enter(cfg, m, sys, e)
    case ForceEvent(s, stop) =>
      if s !in sys.positions then sys else Updated(sys, s, Ratchet(cfg, Managing(sys, s), stop, true).w)
    case ManualEvent(s, price) =>
      if !Live(sys, s) then sys else Updated(sys, s, Exit(m, Managing(sys, s), price, ManualClose).w)
    case RestartEvent => sys.(positions := SnapshotOf(sys.positions), windows := map[])
  }

  // ---------- what the loop must respect ----------

  /** No tick of the symbol's open window reaches the level. */
  predicate Clear(sys: Sys, s: Symbol, direction: Side, level: real) {
    forall x :: x in WindowOf(sys, s) ==> !Crosses(direction, level, x)
  }

  /** The stop of a live position has fired in its open window. */
  predicate StopFired(sys: Sys, s: Symbol) {
    Live(sys, s) && Fired(sys.positions[s], WindowOf(sys, s))
  }

  function EntryPrice(m: Market, b: Book, e: Event): real
    requires e.EntryEvent? && e.symbol in b.last
  {
    FillPrice(m, e.symbol, e.direction, e.qty, b.last[e.symbol])
  }

  /** Where attach will put the stop of an entry. */
  function EntryStop(cfg: Config, m: Market, b: Book, e: Event): real
    requires e.EntryEvent? && e.symbol in b.last
  {
    InitialStop(cfg, e.direction, EntryPrice(m, b, e), e.atr, e.leg, e.structure)
  }

  /** What attach and the exchange leg accept. */
  predicate Attachable(e: Event, entry: real)
    requires e.EntryEvent?
  {
    entry > 0.0 && e.qty > 0.0 && e.atr > 0.0 && e.lot > 0.0 && (e.leg.India? ==> Whole(e.qty))
  }

  /** The broker refuses the entry; or nothing is held of the symbol, attach accepts
      the fill, and no tick already in the open window reaches the new stop. */
  predicate EntryOk(cfg: Config, m: Market, sys: Sys, e: Event)
    requires e.EntryEvent?
  {
    Refuses(sys.book, e.symbol, e.direction, e.qty)
    || (&& (!Live(sys, e.symbol) || StopFired(sys, e.symbol))
        && Attachable(e, EntryPrice(m, sys.book, e))
        && Clear(sys, e.symbol, e.direction, EntryStop(cfg, m, sys.book, e)))
  }

  /** A forced level is not taken, comes after the stop has fired, or can be placed
      and no tick of the open window reaches it. */
  predicate ForceOk(cfg: Config, sys: Sys, s: Symbol, stop: real)
    requires Live(sys, s)
  {
    var p := sys.positions[s];
    !Takes(cfg, p, stop) || StopFired(sys, s) || (Placeable(p.leg, stop) && Clear(sys, s, p.direction, stop))
  }

  /** The conditions of agreement, event by event, from the state before the call.
      Ticks need none. */
  predicate Allowed(cfg: Config, m: Market, sys: Sys, e: Event)
    requires Lotted(sys)
  {
    match e
    case TickEvent(_, _) => true
    case RestartEvent => forall s :: s in sys.positions ==> !StopFired(sys, s)
    case BarEvent(s, regime, eventMinutes, weekend) =>
      Live(sys, s) && WindowOf(sys, s) != [] ==>
        BarOk(cfg, m, sys.book, sys.positions[s], BarOf(WindowOf(sys, s), regime, eventMinutes, weekend))
    case EntryEvent(_, _, _, _, _, _, _) => EntryOk(cfg, m, sys, e)
    case ForceEvent(s, stop) => Live(sys, s) ==> ForceOk(cfg, sys, s, stop)
    case ManualEvent(s, _) => Live(sys, s) ==> ExitOk(sys.book, sys.positions[s], StopFired(sys, s))
  }

  // ---------- agreement ----------

  /** What a reader of the two books sees of one symbol: a live position whose stop
      no tick of the open window has reached is held in exactly its remaining
      quantity under exactly one order, the engine's stop; otherwise nothing is held
      and nothing rests. */
  predicate SymbolAgrees(sys: Sys, s: Symbol) {
    if Live(sys, s) && !StopFired(sys, s) then
      var p := sys.positions[s];
      && p.remaining > 0.0
      && Holds(sys.book, s, Signed(p.direction, p.remaining),
               [Order(p.stopId, s, Closing(p.direction), p.remaining, p.stop)])
    else Flat(sys.book, s)
  }

  ghost predicate Agree(sys: Sys) {
    forall s :: SymbolAgrees(sys, s)
  }

  // ---------- the invariant ----------

  ghost predicate SymbolOk(sys: Sys, s: Symbol) {
    && (forall x :: x in WindowOf(sys, s) ==> x > 0.0)
    && (s in sys.positions ==> PositionOk(sys.positions[s], sys.book, WindowOf(sys, s), s))
    && (s !in sys.positions ==> Flat(sys.book, s))
  }

  /** A live position agrees with the broker, an exited one is closed there. */
  ghost predicate PositionOk(p: Position, b: Book, window: seq<real>, s: Symbol) {
    && p.symbol == s && p.lot > 0.0
    && (if p.phase == Exited then Closed(p, b) else Sized(p) && InWindow(p, b, window))
  }

  ghost predicate Inv(sys: Sys, start: real) {
    Good(sys.book, start) && forall s :: SymbolOk(sys, s)
  }

  /** An untouched symbol stays as it is. */
  lemma {:induction false} SameSymbolOk(sys: Sys, sys1: Sys, t: Symbol)
    requires SymbolOk(sys, t) && StaysDead(sys.book, sys1.book)
    requires Held(sys1.book, t) == Held(sys.book, t) && OrdersFor(sys1.book.open, t) == OrdersFor(sys.book.open, t)
    requires t in sys1.positions <==> t in sys.positions
    requires t in sys.positions ==> sys1.positions[t] == sys.positions[t]
    requires WindowOf(sys1, t) == WindowOf(sys, t)
    ensures SymbolOk(sys1, t)
  {
    if t in sys.positions && Dead(sys.book, sys.positions[t].stopId) {
      assert Dead(sys1.book, sys.positions[t].stopId);
    }
  }

  lemma {:induction false} OthersOk(sys: Sys, sys1: Sys, s: Symbol, start: real)
    requires Inv(sys, start) && Elsewhere(sys.book, sys1.book, s) && StaysDead(sys.book, sys1.book)
    requires forall t :: t != s ==> (t in sys1.positions <==> t in sys.positions)
    requires forall t :: t != s && t in sys.positions ==> sys1.positions[t] == sys.positions[t]
    requires forall t :: t != s ==> WindowOf(sys1, t) == WindowOf(sys, t)
    requires Good(sys1.book, start) && SymbolOk(sys1, s)
    ensures Inv(sys1, start)
  {
    forall t
      ensures SymbolOk(sys1, t)
    {
      assert SymbolOk(sys, t);
      if t != s {
        SameSymbolOk(sys, sys1, t);
      }
    }
  }

  lemma {:induction false} TickStep(cfg: Config, m: Market, sys: Sys, s: Symbol, price: real, start: real)
    requires Inv(sys, start) && Lotted(sys)
    ensures Inv(StepSys(cfg, m, sys, TickEvent(s, price)), start)
  {
    if price > 0.0 {
      var sys1 := StepSys(cfg, m, sys, TickEvent(s, price));
      assert SymbolOk(sys, s);
      OpStaysDead(m, sys.book, TickOp(s, price), sys1.book);
      if Live(sys, s) {
        TickInWindow(m, sys.positions[s], sys.book, WindowOf(sys, s), price, start);
      } else {
        QuietTick(m, sys.book, s, price, start);
      }
      TickedOk(sys, sys1, s, price);
      OthersOk(sys, sys1, s, start);
    }
  }

  lemma {:induction false} TickedOk(sys: Sys, sys1: Sys, s: Symbol, price: real)
    requires SymbolOk(sys, s) && price > 0.0 && StaysDead(sys.book, sys1.book)
    requires sys1.positions == sys.positions && sys1.windows == sys.windows[s := WindowOf(sys, s) + [price]]
    requires if Live(sys, s) then InWindow(sys.positions[s], sys1.book, WindowOf(sys1, s)) else Flat(sys1.book, s)
    ensures SymbolOk(sys1, s)
  {
    assert forall x :: x in WindowOf(sys1, s) <==> x in WindowOf(sys, s) || x == price;
    if s in sys.positions && Dead(sys.book, sys.positions[s].stopId) {
      assert Dead(sys1.book, sys.positions[s].stopId);
    }
  }

  /** One managed position moves on; its window stays or is closed. */
  lemma {:induction false} MoveOk(sys: Sys, s: Symbol, w1: World, sys1: Sys, start: real)
    requires Inv(sys, start)
    requires sys1 == Updated(sys, s, w1).(windows := sys1.windows)
    requires sys1.windows == sys.windows || sys1.windows == sys.windows[s := []]
    requires Good(w1.book, start) && Elsewhere(sys.book, w1.book, s) && StaysDead(sys.book, w1.book)
    requires PositionOk(w1.pos, w1.book, WindowOf(sys1, s), s)
    ensures Inv(sys1, start)
  {
    assert SymbolOk(sys, s);
    assert WindowOf(sys1, s) == [] || WindowOf(sys1, s) == WindowOf(sys, s);
    OthersOk(sys, sys1, s, start);
  }

  /** What the invariant says of a live position. */
  lemma {:induction false} LiveAgreed(sys: Sys, s: Symbol, start: real)
    requires Inv(sys, start) && Live(sys, s)
    ensures Sized(sys.positions[s]) && sys.positions[s].symbol == s
    ensures InWindow(sys.positions[s], sys.book, WindowOf(sys, s))
    ensures forall x :: x in WindowOf(sys, s) ==> x > 0.0
  {
    assert SymbolOk(sys, s);
  }

  lemma {:induction false} ClosedWindow(sys: Sys, s: Symbol, start: real)
    requires Inv(sys, start) && !Live(sys, s)
    ensures Inv(sys.(windows := sys.windows[s := []]), start)
  {
    assert SymbolOk(sys, s);
    OthersOk(sys, sys.(windows := sys.windows[s := []]), s, start);
  }

  /** Agreement in the state after one position has moved on and its window closed. */
  lemma {:induction false} MovedMatches(sys: Sys, s: Symbol, w1: World)
    requires w1.pos.symbol == s
    ensures SymbolAgrees(Updated(sys, s, w1).(windows := sys.windows[s := []]), s) <==> Matches(w1.pos, w1.book)
  {
    var sys1 := Updated(sys, s, w1).(windows := sys.windows[s := []]);
    assert WindowOf(sys1, s) == [];
  }

  lemma {:induction false} LiveBar(cfg: Config, m: Market, sys: Sys, s: Symbol, bar: Bar, start: real)
    requires Inv(sys, start) && Live(sys, s) && sys.positions[s].lot > 0.0
    requires WindowOf(sys, s) != [] && bar == BarOf(WindowOf(sys, s), bar.regime, bar.eventMinutes, bar.cryptoWeekend)
    ensures var sys1 := Updated(sys, s, OnBar(cfg, m, Managing(sys, s), bar).w).(windows := sys.windows[s := []]);
            if BarOk(cfg, m, sys.book, sys.positions[s], bar) then Inv(sys1, start) else !SymbolAgrees(sys1, s)
  {
    var w := Managing(sys, s);
    LiveAgreed(sys, s, start);
    BarAgreesIff(cfg, m, w, bar, WindowOf(sys, s), start);
    var w1 := OnBar(cfg, m, w, bar).w;
    if BarOk(cfg, m, sys.book, sys.positions[s], bar) {
      BarStaysDead(cfg, m, w, bar);
      MoveOk(sys, s, w1, Updated(sys, s, w1).(windows := sys.windows[s := []]), start);
    } else {
      MovedMatches(sys, s, w1);
    }
  }

  lemma {:induction false} BarStep(cfg: Config, m: Market, sys: Sys, e: Event, start: real)
    requires Inv(sys, start) && e.BarEvent? && Lotted(sys)
    ensures var sys1 := StepSys(cfg, m, sys, e);
            if Allowed(cfg, m, sys, e) then Inv(sys1, start) else !SymbolAgrees(sys1, e.symbol)
  {
    var s := e.symbol;
    if WindowOf(sys, s) != [] {
      var bar := BarOf(WindowOf(sys, s), e.regime, e.eventMinutes, e.weekend);
      if Live(sys, s) {
        LiveBar(cfg, m, sys, s, bar, start);
      } else {
        ClosedWindow(sys, s, start);
        if s in sys.positions {
          assert sys.positions[s := sys.positions[s]] == sys.positions;
        }
      }
    }
  }

  /** A forced change of an exited position finds its stop gone. */
  lemma {:induction false} ForceExited(cfg: Config, w: World, stop: real)
    requires Closed(w.pos, w.book)
    ensures var r := Ratchet(cfg, w, stop, true);
            r.w.book == w.book && r.w.pos == w.pos.(stop := r.w.pos.stop) && Closed(r.w.pos, r.w.book)
  {
  }

  lemma {:induction false} ForceLive(cfg: Config, m: Market, sys: Sys, s: Symbol, stop: real, w1: World, start: real)
    requires Inv(sys, start) && Live(sys, s) && w1 == Ratchet(cfg, Managing(sys, s), stop, true).w
    ensures if ForceOk(cfg, sys, s, stop) then Inv(Updated(sys, s, w1), start)
            else !SymbolAgrees(Updated(sys, s, w1), s)
  {
    var w := Managing(sys, s);
    LiveAgreed(sys, s, start);
    ForceMidWindowAgreesIff(cfg, w, stop, WindowOf(sys, s), start);
    if ForceOk(cfg, sys, s, stop) {
      RatchetStaysDead(cfg, m, w, stop, true);
      MoveOk(sys, s, w1, Updated(sys, s, w1), start);
    } else {
      NotFlat(cfg, w, stop, start);
      assert WindowOf(Updated(sys, s, w1), s) == WindowOf(sys, s);
    }
  }

  lemma {:induction false} ForceStep(cfg: Config, m: Market, sys: Sys, s: Symbol, stop: real, start: real)
    requires Inv(sys, start) && Lotted(sys)
    ensures var sys1 := StepSys(cfg, m, sys, ForceEvent(s, stop));
            if Allowed(cfg, m, sys, ForceEvent(s, stop)) then Inv(sys1, start) else !SymbolAgrees(sys1, s)
  {
    if Live(sys, s) {
      ForceLive(cfg, m, sys, s, stop, Ratchet(cfg, Managing(sys, s), stop, true).w, start);
    } else if s in sys.positions {
      var w := Managing(sys, s);
      assert SymbolOk(sys, s);
      ForceExited(cfg, w, stop);
      RatchetStaysDead(cfg, m, w, stop, true);
      var w1 := Ratchet(cfg, w, stop, true).w;
      MoveOk(sys, s, w1, Updated(sys, s, w1), start);
    }
  }

  lemma {:induction false} ManualLive(m: Market, sys: Sys, s: Symbol, price: real, w1: World, start: real)
    requires Inv(sys, start) && Live(sys, s) && sys.positions[s].lot > 0.0
    requires w1 == Exit(m, Managing(sys, s), price, ManualClose).w
    ensures if ExitOk(sys.book, sys.positions[s], StopFired(sys, s)) then Inv(Updated(sys, s, w1), start)
            else !SymbolAgrees(Updated(sys, s, w1), s)
  {
    var w := Managing(sys, s);
    LiveAgreed(sys, s, start);
    MidWindowExitFlatIff(m, w, WindowOf(sys, s), price, ManualClose, start);
    ExitReports(m, w, price, ManualClose);
    if ExitOk(sys.book, w.pos, StopFired(sys, s)) {
      ExitStaysDead(m, w, price, ManualClose);
      MoveOk(sys, s, w1, Updated(sys, s, w1), start);
    }
  }

  lemma {:induction false} ManualStep(cfg: Config, m: Market, sys: Sys, s: Symbol, price: real, start: real)
    requires Inv(sys, start) && Lotted(sys)
    ensures var sys1 := StepSys(cfg, m, sys, ManualEvent(s, price));
            if Allowed(cfg, m, sys, ManualEvent(s, price)) then Inv(sys1, start) else !SymbolAgrees(sys1, s)
  {
    if Live(sys, s) {
      var w1 := Exit(m, Managing(sys, s), price, ManualClose).w;
      assert StepSys(cfg, m, sys, ManualEvent(s, price)) == Updated(sys, s, w1);
      ManualLive(m, sys, s, price, w1, start);
    }
  }

  lemma {:induction false} RestartedOk(sys: Sys, sys1: Sys, s: Symbol)
    requires SymbolOk(sys, s) && sys1 == sys.(positions := SnapshotOf(sys.positions), windows := map[])
    ensures SymbolOk(sys1, s) <==> !StopFired(sys, s)
    ensures Live(sys, s) ==> sys1.positions[s] == sys.positions[s]
  {
    assert WindowOf(sys1, s) == [];
  }

  /** A restart loses the open windows. It keeps every live position exactly and
      keeps the agreement if and only if no live position's stop has fired in the
      window that is lost. */
  lemma {:induction false} RestartAgreesIff(cfg: Config, m: Market, sys: Sys, start: real)
    requires Inv(sys, start) && Lotted(sys)
    ensures var sys1 := StepSys(cfg, m, sys, RestartEvent);
            && (if Allowed(cfg, m, sys, RestartEvent) then Inv(sys1, start) else !Agree(sys1))
            && forall s :: Live(sys, s) ==> s in sys1.positions && sys1.positions[s] == sys.positions[s]
  {
    var sys1 := StepSys(cfg, m, sys, RestartEvent);
    forall s
      ensures SymbolOk(sys1, s) <==> !StopFired(sys, s)
      ensures StopFired(sys, s) ==> !SymbolAgrees(sys1, s)
      ensures Live(sys, s) ==> s in sys1.positions && sys1.positions[s] == sys.positions[s]
    {
      assert SymbolOk(sys, s);
      RestartedOk(sys, sys1, s);
    }
    if !Allowed(cfg, m, sys, RestartEvent) {
      var s :| s in sys.positions && StopFired(sys, s);
      assert !SymbolAgrees(sys1, s);
    }
  }

  // ---------- entries ----------

  /** What a fill does, whatever was held before. */
  lemma {:induction false} EntryFill(m: Market, b: Book, e: Event)
    requires e.EntryEvent? && !Refuses(b, e.symbol, e.direction, e.qty)
    ensures var (b1, r) := Place(m, b, Payload(e.symbol, e.direction, e.qty, AtMarket));
            && r.Accepted? && r.avg == Some(EntryPrice(m, b, e)) && r.filled == e.qty > 0.0
            && Held(b1, e.symbol) == Held(b, e.symbol) + Signed(e.direction, e.qty) && b1.open == b.open
  {
  }

  /** What attach does, whatever was held before. */
  lemma {:induction false} AttachEffect(cfg: Config, m: Market, b: Book, e: Event, entry: real)
    requires e.EntryEvent?
    ensures var (b1, p) := Attach(cfg, m, b, e.symbol, e.direction, entry, e.qty, e.atr, e.leg, e.structure, e.lot);
            && (p.Some? <==> Attachable(e, entry)) && (p.None? ==> b1 == b)
            && (p.Some? ==>
                  && p.value.phase == RiskOn && p.value.symbol == e.symbol && Held(b1, e.symbol) == Held(b, e.symbol)
                  && |OrdersFor(b1.open, e.symbol)| == |OrdersFor(b.open, e.symbol)| + 1)
  {
    if Attachable(e, entry) {
      var b1 := Attach(cfg, m, b, e.symbol, e.direction, entry, e.qty, e.atr, e.leg, e.structure, e.lot).0;
      assert b1.open[..|b1.open| - 1] == b.open;
    }
  }

  /** Attaching to a fresh fill protects it from the first instant. */
  lemma {:induction false} AttachProtects(cfg: Config, m: Market, b: Book, e: Event, entry: real, start: real)
    requires Good(b, start) && e.EntryEvent? && Attachable(e, entry)
    requires Holds(b, e.symbol, Signed(e.direction, e.qty), [])
    ensures var (b1, p) := Attach(cfg, m, b, e.symbol, e.direction, entry, e.qty, e.atr, e.leg, e.structure, e.lot);
            && p.Some? && p.value.symbol == e.symbol && p.value.phase == RiskOn
            && p.value.direction == e.direction
            && p.value.stop == InitialStop(cfg, e.direction, entry, e.atr, e.leg, e.structure)
            && Sized(p.value) && Protected(p.value, b1)
            && Good(b1, start) && Elsewhere(b, b1, e.symbol)
  {
    var stop := InitialStop(cfg, e.direction, entry, e.atr, e.leg, e.structure);
    assert ClosingAction(b, e.symbol) == Closing(e.direction);
    StopOrder(m, b, e.symbol, Closing(e.direction), e.qty, stop, start);
  }

  /** Fill, then attach: from a flat symbol to a protected position. */
  lemma {:induction false} FillThenAttach(cfg: Config, m: Market, b: Book, e: Event, b1: Book, start: real)
    requires Good(b, start) && e.EntryEvent? && Flat(b, e.symbol)
    requires !Refuses(b, e.symbol, e.direction, e.qty) && Attachable(e, EntryPrice(m, b, e))
    requires b1 == Place(m, b, Payload(e.symbol, e.direction, e.qty, AtMarket)).0
    ensures var (b2, p) := Attach(cfg, m, b1, e.symbol, e.direction, EntryPrice(m, b, e), e.qty, e.atr, e.leg,
                                  e.structure, e.lot);
            && p.Some? && p.value.symbol == e.symbol && p.value.phase == RiskOn
            && p.value.direction == e.direction && p.value.stop == EntryStop(cfg, m, b, e)
            && Sized(p.value) && Protected(p.value, b2) && Good(b2, start) && Elsewhere(b, b2, e.symbol)
  {
    MarketOrder(m, b, e.symbol, e.direction, e.qty, start);
    AttachProtects(cfg, m, b1, e, EntryPrice(m, b, e), start);
  }

  lemma {:induction false} EnterStaysDead(cfg: Config, m: Market, sys: Sys, e: Event)
    requires e.EntryEvent?
    ensures StaysDead(sys.book, Enter(cfg, m, sys, e).book)
  {
    var p := Payload(e.symbol, e.direction, e.qty, AtMarket);
    var (b1, r) := Place(m, sys.book, p);
    PlaceStaysDead(m, sys.book, p);
    if r.Accepted? && r.avg.Some? {
      AttachStaysDead(cfg, m, b1, e.symbol, e.direction, r.avg.value, r.filled, e.atr, e.leg, e.structure, e.lot);
      Chain(sys.book, b1, Enter(cfg, m, sys, e).book);
    }
  }

  lemma {:induction false} EntryRefused(cfg: Config, m: Market, sys: Sys, e: Event, start: real)
    requires Inv(sys, start) && e.EntryEvent? && Refuses(sys.book, e.symbol, e.direction, e.qty)
    ensures Inv(Enter(cfg, m, sys, e), start)
  {
    RefusedOrder(m, sys.book, e.symbol, e.direction, e.qty, start);
    var sys1 := Enter(cfg, m, sys, e);
    EnterStaysDead(cfg, m, sys, e);
    assert SymbolOk(sys, e.symbol);
    SameSymbolOk(sys, sys1, e.symbol);
    OthersOk(sys, sys1, e.symbol, start);
  }

  /** An entry that the broker fills, in its parts. */
  lemma {:induction false} EnterIs(cfg: Config, m: Market, sys: Sys, e: Event)
    returns (b1: Book, b2: Book, p: Option<Position>)
    requires e.EntryEvent? && !Refuses(sys.book, e.symbol, e.direction, e.qty)
    ensures b1 == Place(m, sys.book, Payload(e.symbol, e.direction, e.qty, AtMarket)).0
    ensures (b2, p) == Attach(cfg, m, b1, e.symbol, e.direction, EntryPrice(m, sys.book, e), e.qty, e.atr, e.leg,
                              e.structure, e.lot)
    ensures Enter(cfg, m, sys, e)
         == sys.(book := b2, positions := if p.Some? then sys.positions[e.symbol := p.value] else sys.positions)
  {
    EntryFill(m, sys.book, e);
    b1 := Place(m, sys.book, Payload(e.symbol, e.direction, e.qty, AtMarket)).0;
    var out := Attach(cfg, m, b1, e.symbol, e.direction, EntryPrice(m, sys.book, e), e.qty, e.atr, e.leg, e.structure,
                      e.lot);
    b2, p := out.0, out.1;
  }

  lemma {:induction false} EntryAccepted(cfg: Config, m: Market, sys: Sys, e: Event, start: real)
    requires Inv(sys, start) && e.EntryEvent? && !Refuses(sys.book, e.symbol, e.direction, e.qty)
    requires Flat(sys.book, e.symbol) && Attachable(e, EntryPrice(m, sys.book, e))
    ensures var sys1 := Enter(cfg, m, sys, e);
            && sys1.windows == sys.windows && e.symbol in sys1.positions
            && sys1.positions == sys.positions[e.symbol := sys1.positions[e.symbol]]
            && var p := sys1.positions[e.symbol];
            && p.symbol == e.symbol && p.direction == e.direction && p.stop == EntryStop(cfg, m, sys.book, e)
            && p.phase == RiskOn && Sized(p) && Protected(p, sys1.book)
            && Good(sys1.book, start) && Elsewhere(sys.book, sys1.book, e.symbol)
  {
    var b1, b2, p := EnterIs(cfg, m, sys, e);
    FillThenAttach(cfg, m, sys.book, e, b1, start);
  }

  lemma {:induction false} EnteredOkIff(sys: Sys, sys1: Sys, s: Symbol)
    requires SymbolOk(sys, s) && sys1.windows == sys.windows && s in sys1.positions
    requires var p := sys1.positions[s];
             p.symbol == s && p.phase != Exited && Sized(p) && Protected(p, sys1.book)
    ensures var p := sys1.positions[s];
            if Clear(sys, s, p.direction, p.stop) then SymbolOk(sys1, s) else !SymbolAgrees(sys1, s)
  {
    var p := sys1.positions[s];
    assert WindowOf(sys1, s) == WindowOf(sys, s);
    assert Clear(sys, s, p.direction, p.stop) <==> !Fired(p, WindowOf(sys1, s));
  }

  /** A fill that attach refuses, or on top of a position, leaves the books apart. */
  lemma {:induction false} EntryClashes(cfg: Config, m: Market, sys: Sys, e: Event, start: real)
    requires Inv(sys, start) && e.EntryEvent? && !Refuses(sys.book, e.symbol, e.direction, e.qty)
    requires !Flat(sys.book, e.symbol) || !Attachable(e, EntryPrice(m, sys.book, e))
    ensures !SymbolAgrees(Enter(cfg, m, sys, e), e.symbol)
  {
    assert SymbolOk(sys, e.symbol);
    EntryFill(m, sys.book, e);
    var b1 := Place(m, sys.book, Payload(e.symbol, e.direction, e.qty, AtMarket)).0;
    AttachEffect(cfg, m, b1, e, EntryPrice(m, sys.book, e));
    var sys1 := Enter(cfg, m, sys, e);
    assert WindowOf(sys1, e.symbol) == WindowOf(sys, e.symbol);
  }

  /** An entry keeps the agreement if and only if the broker refuses it, or nothing is
      held of the symbol, attach accepts the fill and no tick already in the open
      window reaches the new stop. */
  lemma {:induction false} EntryAgreesIff(cfg: Config, m: Market, sys: Sys, e: Event, start: real)
    requires Inv(sys, start) && e.EntryEvent?
    ensures var sys1 := Enter(cfg, m, sys, e);
            if EntryOk(cfg, m, sys, e) then Inv(sys1, start) else !SymbolAgrees(sys1, e.symbol)
  {
    var s, sys1 := e.symbol, Enter(cfg, m, sys, e);
    assert SymbolOk(sys, s);
    if Refuses(sys.book, s, e.direction, e.qty) {
      EntryRefused(cfg, m, sys, e, start);
    } else if Flat(sys.book, s) && Attachable(e, EntryPrice(m, sys.book, e)) {
      EntryAccepted(cfg, m, sys, e, start);
      EnteredOkIff(sys, sys1, s);
      if Clear(sys, s, e.direction, EntryStop(cfg, m, sys.book, e)) {
        EnterStaysDead(cfg, m, sys, e);
        OthersOk(sys, sys1, s, start);
      }
    } else {
      EntryClashes(cfg, m, sys, e, start);
    }
  }

  // ---------- any step ----------

  /** From an agreed state any event leads to an agreed one if and only if it meets
      its condition. */
  lemma {:induction false} StepAgreesIff(cfg: Config, m: Market, sys: Sys, e: Event, start: real)
    requires Inv(sys, start) && Lotted(sys)
    ensures var sys1 := StepSys(cfg, m, sys, e);
            if Allowed(cfg, m, sys, e) then Inv(sys1, start) else !Agree(sys1)
  {
    match e
    case TickEvent(s, price) => TickStep(cfg, m, sys, s, price, start);
    case BarEvent(_, _, _, _) => BarStep(cfg, m, sys, e, start);
    case EntryEvent(_, _, _, _, _, _, _) => EntryAgreesIff(cfg, m, sys, e, start);
    case ForceEvent(s, stop) => ForceStep(cfg, m, sys, s, stop, start);
    case ManualEvent(s, price) => ManualStep(cfg, m, sys, s, price, start);
    case RestartEvent => RestartAgreesIff(cfg, m, sys, start);
  }

  // ---------- runs ----------

  function NewSys(cash: real): Sys {
    Sys(NewBook(cash), map[], map[])
  }

  function RunSys(cfg: Config, m: Market, sys: Sys, es: seq<Event>): (r: Sys)
    requires Lotted(sys)
    ensures Lotted(r)
  {
    if es == [] then sys else StepSys(cfg, m, RunSys(cfg, m, sys, es[..|es| - 1]), es[|es| - 1])
  }

  /** The prices of a symbol's ticks since its last bar or the last restart. */
  function TicksSince(es: seq<Event>, s: Symbol): seq<real> {
    if es == [] then []
    else
      var before := TicksSince(es[..|es| - 1], s);
      match es[|es| - 1]
      case TickEvent(symbol, price) => if symbol == s && price > 0.0 then before + [price] else before
      case BarEvent(symbol, _, _, _) => if symbol == s then [] else before
      case RestartEvent => []
      case _ => before
  }

  /** The engine's window is made of exactly those, on any run, whatever else happens. */
  lemma {:induction false} WindowIsTicksSince(cfg: Config, m: Market, cash: real, es: seq<Event>, s: Symbol)
    ensures WindowOf(RunSys(cfg, m, NewSys(cash), es), s) == TicksSince(es, s)
  {
    if es != [] {
      WindowIsTicksSince(cfg, m, cash, es[..|es| - 1], s);
    }
  }

  predicate AllowedRun(cfg: Config, m: Market, sys: Sys, es: seq<Event>)
    requires Lotted(sys)
  {
    es == []
    || (AllowedRun(cfg, m, sys, es[..|es| - 1])
        && Allowed(cfg, m, RunSys(cfg, m, sys, es[..|es| - 1]), es[|es| - 1]))
  }

  lemma {:induction false} InvAgrees(sys: Sys, start: real)
    requires Inv(sys, start)
    ensures Agree(sys)
  {
    forall s
      ensures SymbolAgrees(sys, s)
    {
      assert SymbolOk(sys, s);
    }
  }

  lemma {:induction false} NewSysOk(cash: real)
    ensures Inv(NewSys(cash), cash)
  {
    RunExact(Market((_, _) => 0.0, (_, _, _, _) => 0.0), cash, []);
    assert forall s :: SymbolOk(NewSys(cash), s);
  }

  lemma {:induction false} RunKeeps(cfg: Config, m: Market, cash: real, es: seq<Event>)
    requires AllowedRun(cfg, m, NewSys(cash), es)
    ensures Inv(RunSys(cfg, m, NewSys(cash), es), cash)
  {
    if es == [] {
      NewSysOk(cash);
    } else {
      RunKeeps(cfg, m, cash, es[..|es| - 1]);
      StepAgreesIff(cfg, m, RunSys(cfg, m, NewSys(cash), es[..|es| - 1]), es[|es| - 1], cash);
    }
  }

  /** The engine and the broker agree in every state of the run. */
  ghost predicate AgreeThroughout(cfg: Config, m: Market, sys: Sys, es: seq<Event>)
    requires Lotted(sys)
  {
    Agree(RunSys(cfg, m, sys, es)) && (es != [] ==> AgreeThroughout(cfg, m, sys, es[..|es| - 1]))
  }

  /** Over any run of ticks, bars, entries, forced stop changes, manual closes and
      restarts, for any number of symbols, any configuration and any impact and cost
      functions: the two agree throughout if and only if every event meets its
      condition. */
  lemma {:induction false} RunAgreesIff(cfg: Config, m: Market, cash: real, es: seq<Event>)
    ensures AgreeThroughout(cfg, m, NewSys(cash), es) <==> AllowedRun(cfg, m, NewSys(cash), es)
  {
    if es == [] {
      NewSysOk(cash);
      InvAgrees(NewSys(cash), cash);
    } else {
      var init := es[..|es| - 1];
      RunAgreesIff(cfg, m, cash, init);
      if AllowedRun(cfg, m, NewSys(cash), init) {
        RunKeeps(cfg, m, cash, init);
        StepAgreesIff(cfg, m, RunSys(cfg, m, NewSys(cash), init), es[|es| - 1], cash);
        if AllowedRun(cfg, m, NewSys(cash), es) {
          InvAgrees(RunSys(cfg, m, NewSys(cash), es), cash);
        }
      }
    }
  }

  /** In every state such a run reaches, in the middle of a window or between two
      bars: a live position whose stop no tick of the open window has reached is held
      at the broker in exactly its remaining quantity and exactly one order rests for
      its symbol - the engine's stop id, the closing side, the engine's level, the
      remaining quantity. In every other symbol nothing is held and nothing rests. */
  lemma {:induction false} EngineAndBrokerAgree(cfg: Config, m: Market, cash: real, es: seq<Event>, s: Symbol)
    requires AllowedRun(cfg, m, NewSys(cash), es)
    ensures var sys := RunSys(cfg, m, NewSys(cash), es);
            if Live(sys, s) && !StopFired(sys, s) then
              var p := sys.positions[s];
              && p.remaining > 0.0
              && Held(sys.book, s) == Signed(p.direction, p.remaining)
              && OrdersFor(sys.book.open, s)
                 == [Order(p.stopId, s, Closing(p.direction), p.remaining, p.stop)]
            else Held(sys.book, s) == 0.0 && OrdersFor(sys.book.open, s) == []
  {
    RunKeeps(cfg, m, cash, es);
    InvAgrees(RunSys(cfg, m, NewSys(cash), es), cash);
    assert SymbolAgrees(RunSys(cfg, m, NewSys(cash), es), s);
  }

  /** At no point of such a run, bar boundary or not, is a managed trade held the
      wrong way round or beyond its entry size; no fill ever carried any holding
      through zero; and while nothing is live in a symbol its fills cancel out. */
  lemma {:induction false} NoPhantomPosition(cfg: Config, m: Market, cash: real, es: seq<Event>, s: Symbol)
    requires AllowedRun(cfg, m, NewSys(cash), es)
    ensures var sys := RunSys(cfg, m, NewSys(cash), es);
            && NoFlips(sys.book.fills)
            && (Live(sys, s) ==>
                  var p := sys.positions[s]; 0.0 <= Signed(p.direction, Held(sys.book, s)) <= p.qty)
            && (!Live(sys, s) ==> Net(sys.book.fills, s) == 0.0)
  {
    RunKeeps(cfg, m, cash, es);
    var sys := RunSys(cfg, m, NewSys(cash), es);
    assert SymbolOk(sys, s);
    assert Held(sys.book, s) == Net(sys.book.fills, s);
  }

  /** The bar that closes a window reports a stop hit exactly when the broker's stop
      fired inside the window, that is when the holding is already gone; only a
      weekend flatten, which is tested first, never reports one. It raises only on
      the exchange leg, with the holding still there, or as such a flatten. */
  lemma {:induction false} StopHitReportedIffFired(cfg: Config, m: Market, cash: real, es: seq<Event>, e: Event)
    requires AllowedRun(cfg, m, NewSys(cash), es) && e.BarEvent?
    requires var sys := RunSys(cfg, m, NewSys(cash), es);
             Allowed(cfg, m, sys, e) && Live(sys, e.symbol) && WindowOf(sys, e.symbol) != []
    ensures var sys := RunSys(cfg, m, NewSys(cash), es);
            var p := sys.positions[e.symbol];
            var bar := BarOf(WindowOf(sys, e.symbol), e.regime, e.eventMinutes, e.weekend);
            var r := OnBar(cfg, m, Managing(sys, e.symbol), bar);
            if FlattensOn(cfg, p, bar) then r.Done? ==> r.value == [ExitedOnWeekend]
            else if r.Raised? then p.leg.India? && Held(sys.book, e.symbol) != 0.0
            else ExitedOnStop in r.value <==> Held(sys.book, e.symbol) == 0.0
  {
    RunKeeps(cfg, m, cash, es);
    var sys := RunSys(cfg, m, NewSys(cash), es);
    var s := e.symbol;
    var bar := BarOf(WindowOf(sys, s), e.regime, e.eventMinutes, e.weekend);
    LiveAgreed(sys, s, cash);
    BarSeesFired(sys.positions[s], WindowOf(sys, s), bar);
    BarAgreesIff(cfg, m, Managing(sys, s), bar, WindowOf(sys, s), cash);
    if FlattensOn(cfg, sys.positions[s], bar) {
      ExitingBar(cfg, m, Managing(sys, s), bar);
    }
  }

  /** The fills of such a run never flip a long into a short, so `equity()` is
      cash plus marked holdings throughout. */
  lemma {:induction false} EquityExactOnManagedRuns(cfg: Config, m: Market, cash: real, es: seq<Event>)
    requires AllowedRun(cfg, m, NewSys(cash), es)
    ensures var b := RunSys(cfg, m, NewSys(cash), es).book;
            Equity(b) == b.cash + MarkedValue(b, |b.listed|)
  {
    RunKeeps(cfg, m, cash, es);
    var b := RunSys(cfg, m, NewSys(cash), es).book;
    forall s
      ensures !FlippedShort(b.fills, s)
    {
      NoFlipsNoFlippedShort(b.fills, s);
    }
    NoShortBasis(b, |b.listed|);
    EquityGap(b);
  }
}
