/** The broker sees every tick, the engine one window of ticks at a time. Across
    a whole window and the bar that closes it the two still agree, and the
    engine reports a stop hit exactly when the broker's stop fired inside. */
module BarWindows {
  import opened Basics
  import opened PaperBroker
  import opened StopAdapters
  import opened Ledger
  import opened BookFacts
  import opened ExitEngine
  import opened Agreement
  import opened UsedIds

  // ---------- windows ----------

  function High(window: seq<real>): real
    requires window != []
  {
    if |window| == 1 then window[0] else Max(High(window[..|window| - 1]), window[|window| - 1])
  }

  function Low(window: seq<real>): real
    requires window != []
  {
    if |window| == 1 then window[0] else Min(Low(window[..|window| - 1]), window[|window| - 1])
  }

  function BarOf(window: seq<real>, regime: Regime, eventMinutes: Option<real>, weekend: bool): Bar
    requires window != []
  {
    Bar(High(window), Low(window), window[|window| - 1], regime, eventMinutes, weekend)
  }

  lemma {:induction false} HighLow(window: seq<real>)
    requires window != []
    ensures High(window) in window && Low(window) in window
    ensures forall x :: x in window ==> Low(window) <= x <= High(window)
  {
    if |window| > 1 {
      HighLow(window[..|window| - 1]);
      assert window == window[..|window| - 1] + [window[|window| - 1]];
    }
  }

  predicate Crosses(direction: Side, level: real, price: real) {
    if direction.Buy? then price <= level else price >= level
  }

  predicate Touches(p: Position, price: real) {
    Crosses(p.direction, p.stop, price)
  }

  /** Some tick of the window reached the stop. */
  predicate Fired(p: Position, window: seq<real>) {
    exists x :: x in window && Touches(p, x)
  }

  lemma {:induction false} BarSeesFired(p: Position, window: seq<real>, bar: Bar)
    requires window != [] && bar.high == High(window) && bar.low == Low(window)
    ensures StopTouched(p, bar) <==> Fired(p, window)
    ensures bar.low <= bar.high
  {
    HighLow(window);
  }

  /** Nothing held, nothing resting, the stop's id used up. */
  ghost predicate Closed(p: Position, b: Book) {
    Flat(b, p.symbol) && Dead(b, p.stopId)
  }

  /** Inside a window: closed once the stop has fired, protected until then. */
  ghost predicate InWindow(p: Position, b: Book, window: seq<real>) {
    if Fired(p, window) then Closed(p, b) else Protected(p, b)
  }

  /** One tick of the managed symbol. */
  lemma {:induction false} TickInWindow(m: Market, p: Position, b: Book, window: seq<real>, price: real, start: real)
    requires Good(b, start) && p.remaining > 0.0 && InWindow(p, b, window) && price > 0.0
    ensures var b1 := Tick(m, b, p.symbol, price);
            && InWindow(p, b1, window + [price]) && Elsewhere(b, b1, p.symbol) && Good(b1, start)
            && b1.last == b.last[p.symbol := price]
  {
    TickGood(m, b, p.symbol, price, start);
    assert forall x :: x in window + [price] <==> x in window || x == price;
    assert Fired(p, window + [price]) <==> Fired(p, window) || Touches(p, price);
    if !Fired(p, window) && Touches(p, price) {
      FiringTick(m, b, StopOrderOf(p), price, start);
    } else {
      QuietTick(m, b, p.symbol, price, start);
    }
  }

  // ---------- the bar that closes a window ----------

  lemma {:induction false} ClosedIsDead(m: Market, p: Position, b: Book, qty: real, start: real)
    requires Good(b, start) && Protected(p, b)
    ensures var b1 := CancelStop(b, p.leg, p.stopId).0;
            Dead(b1, p.stopId) && Dead(ExitMarket(m, b1, p.leg, p.symbol, qty, p.direction).0, p.stopId)
  {
    CancelledIsDead(p, b, start);
    ExitMarketStaysDead(m, CancelStop(b, p.leg, p.stopId).0, p.leg, p.symbol, qty, p.direction);
  }

  /** An active exit is: cancel the stop, whatever comes of it, then close the whole lots. */
  lemma {:induction false} ExitIsCancelThenClose(m: Market, w: World, price: real, reason: ExitReason)
    requires w.pos.lot > 0.0 && !reason.StopHit?
    ensures var p, c, r := w.pos, FloorLot(w.pos.remaining, w.pos.lot), Exit(m, w, price, reason);
            var b1 := CancelStop(w.book, p.leg, p.stopId).0;
            var (b2, ok) := ExitMarket(m, b1, p.leg, p.symbol, c, p.direction);
            if c <= 0.0 then r.Done? && r.w.book == b1 else r.w.book == b2 && r.Done? == ok
  {
  }

  /** Other symbols and prices are untouched, and the book is still good. */
  ghost predicate Tidy(b: Book, b1: Book, s: Symbol, start: real) {
    Good(b1, start) && Elsewhere(b, b1, s) && b1.last == b.last
  }

  /** A market close sent while everything is still held, the stop cancelled. */
  lemma {:induction false} CloseWhenHeld(m: Market, p: Position, b: Book, c: real, start: real)
    requires Good(b, start) && 0.0 < c <= p.remaining
    requires Holds(b, p.symbol, Signed(p.direction, p.remaining), [])
    ensures var (b1, ok) := ExitMarket(m, b, p.leg, p.symbol, c, p.direction);
            && Holds(b1, p.symbol, Signed(p.direction, if CanClose(b, p, c) then p.remaining - c else p.remaining), [])
            && (ok <==> !p.leg.India? || CanClose(b, p, c))
            && Tidy(b, b1, p.symbol, start)
  {
    if CanClose(b, p, c) {
      ExitMarketReduces(m, p, b, c, start);
    } else if p.leg.India? && !Whole(c) {
    } else {
      RefusedOrder(m, b, p.symbol, Closing(p.direction), c, start);
      ExitMarketOrder(m, p, b, c);
    }
  }

  /** A market close sent when nothing is held: it opens a position unless the
      broker refuses it. The MT5 side sells, whatever the direction was. */
  lemma {:induction false} CloseWhenFlat(m: Market, p: Position, b: Book, c: real, start: real)
    requires Good(b, start) && Flat(b, p.symbol) && c > 0.0
    ensures var b1 := ExitMarket(m, b, p.leg, p.symbol, c, p.direction).0;
            && (Flat(b1, p.symbol) <==> p.symbol !in b.last || (p.leg.India? && !CanClose(b, p, c)))
            && (Flat(b1, p.symbol) ==> Tidy(b, b1, p.symbol, start))
  {
    if !p.leg.India? || Whole(c) {
      var side := if p.leg.India? then Closing(p.direction) else Sell;
      BlindClose(m, p, b, c, side);
      OrderWhenFlat(m, b, p.symbol, side, c, start);
    }
  }

  lemma {:induction false} BlindClose(m: Market, p: Position, b: Book, c: real, side: Side)
    requires Flat(b, p.symbol) && (p.leg.India? ==> Whole(c))
    requires side == if p.leg.India? then Closing(p.direction) else Sell
    ensures ExitMarket(m, b, p.leg, p.symbol, c, p.direction).0 == Place(m, b, Payload(p.symbol, side, c, AtMarket)).0
    ensures c > 0.0 ==> (Refuses(b, p.symbol, side, c)
                         <==> p.symbol !in b.last || (p.leg.India? && !CanClose(b, p, c)))
  {
    assert ClosingAction(b, p.symbol) == Sell;
  }

  lemma {:induction false} OrderWhenFlat(m: Market, b: Book, s: Symbol, side: Side, c: real, start: real)
    requires Good(b, start) && Flat(b, s) && c > 0.0
    ensures var (b1, r) := Place(m, b, Payload(s, side, c, AtMarket));
            && (Flat(b1, s) <==> Refuses(b, s, side, c)) && (r.Refused? <==> Refuses(b, s, side, c))
            && (Flat(b1, s) ==> Tidy(b, b1, s, start))
  {
    if Refuses(b, s, side, c) {
      RefusedOrder(m, b, s, side, c, start);
    } else {
      MarketOrder(m, b, s, side, c, start);
    }
  }

  /** Whether an active exit ends flat. Before the stop has fired everything held
      must be whole lots and the close must go through; afterwards the close
      must not go through, or be of nothing. */
  predicate ExitOk(b: Book, p: Position, fired: bool)
    requires p.lot > 0.0
  {
    var c := FloorLot(p.remaining, p.lot);
    if fired then c <= 0.0 || p.symbol !in b.last || (p.leg.India? && !CanClose(b, p, c))
    else IsLots(p.remaining, p.lot) && CanClose(b, p, p.remaining)
  }

  /** Cancelling the stop moves neither cash nor prices. */
  lemma {:induction false} CancelKeepsFunds(p: Position, b: Book, qty: real, start: real)
    requires Good(b, start) && Protected(p, b)
    ensures var b1 := CancelStop(b, p.leg, p.stopId).0;
            CanClose(b1, p, qty) == CanClose(b, p, qty)
            && Holds(b1, p.symbol, Signed(p.direction, p.remaining), []) && Tidy(b, b1, p.symbol, start)
  {
    CancelStopClears(p, b, start);
  }

  lemma {:induction false} CancelThenClose(m: Market, p: Position, b: Book, b1: Book, c: real, start: real)
    requires Good(b, start) && Protected(p, b) && 0.0 < c <= p.remaining
    requires b1 == CancelStop(b, p.leg, p.stopId).0
    ensures var (b2, ok) := ExitMarket(m, b1, p.leg, p.symbol, c, p.direction);
            && Holds(b2, p.symbol, Signed(p.direction, if CanClose(b, p, c) then p.remaining - c else p.remaining), [])
            && (ok <==> !p.leg.India? || CanClose(b, p, c)) && Dead(b2, p.stopId) && Tidy(b, b2, p.symbol, start)
  {
    CancelKeepsFunds(p, b, c, start);
    ClosedIsDead(m, p, b, c, start);
    CloseWhenHeld(m, p, b1, c, start);
  }

  /** What an active exit of a protected position leaves held: the part that is no
      whole lot - everything, if the close is refused - and no order for it. */
  lemma {:induction false} ExitLeaves(m: Market, w: World, price: real, reason: ExitReason, start: real)
    requires Good(w.book, start) && Protected(w.pos, w.book) && w.pos.lot > 0.0 && w.pos.remaining > 0.0
    requires !reason.StopHit?
    ensures var p, c, r := w.pos, FloorLot(w.pos.remaining, w.pos.lot), Exit(m, w, price, reason);
            var sold := if c > 0.0 && CanClose(w.book, p, c) then c else 0.0;
            && Holds(r.w.book, p.symbol, Signed(p.direction, p.remaining - sold), [])
            && (r.Done? <==> c <= 0.0 || !p.leg.India? || CanClose(w.book, p, c))
            && 0.0 <= p.remaining - c < p.lot
            && Dead(r.w.book, p.stopId) && Tidy(w.book, r.w.book, p.symbol, start)
  {
    var p, c := w.pos, FloorLot(w.pos.remaining, w.pos.lot);
    var b1 := CancelStop(w.book, p.leg, p.stopId).0;
    FloorLotIsGreatest(p.remaining, p.lot);
    ExitIsCancelThenClose(m, w, price, reason);
    if c > 0.0 {
      CancelThenClose(m, p, w.book, b1, c, start);
    } else {
      CancelStopClears(p, w.book, start);
      CancelledIsDead(p, w.book, start);
    }
  }

  /** An active exit of a protected position leaves nothing held and nothing resting
      if and only if what remains is whole lots and the market close of it goes
      through; then it returns. */
  lemma {:induction false} ExitFlattensIff(m: Market, w: World, price: real, reason: ExitReason, start: real)
    requires Good(w.book, start) && Protected(w.pos, w.book) && w.pos.lot > 0.0 && w.pos.remaining > 0.0
    requires !reason.StopHit?
    ensures var r := Exit(m, w, price, reason);
            && (Flat(r.w.book, w.pos.symbol) <==> ExitOk(w.book, w.pos, false))
            && (ExitOk(w.book, w.pos, false) ==> r.Done?)
            && Dead(r.w.book, w.pos.stopId) && Tidy(w.book, r.w.book, w.pos.symbol, start)
  {
    ExitLeaves(m, w, price, reason, start);
  }

  /** An odd remainder stays: the engine is EXITED, the call returned, and less than
      a lot is held with no stop and no manager. */
  lemma {:induction false} OddLotIsLeftBehind(m: Market, w: World, price: real, reason: ExitReason, start: real)
    requires Good(w.book, start) && Protected(w.pos, w.book) && w.pos.lot > 0.0 && w.pos.remaining > 0.0
    requires !reason.StopHit? && !IsLots(w.pos.remaining, w.pos.lot)
    requires var c := FloorLot(w.pos.remaining, w.pos.lot); c <= 0.0 || CanClose(w.book, w.pos, c)
    ensures var p, c, r := w.pos, FloorLot(w.pos.remaining, w.pos.lot), Exit(m, w, price, reason);
            && r.Done? && r.w.pos.phase == Exited && 0.0 < p.remaining - Max(c, 0.0) < p.lot
            && Holds(r.w.book, p.symbol, Signed(p.direction, p.remaining - Max(c, 0.0)), [])
  {
    ExitLeaves(m, w, price, reason, start);
    FloorLotNonNegative(w.pos.remaining, w.pos.lot);
  }

  lemma {:induction false} ExitAfterFire(m: Market, w: World, price: real, reason: ExitReason, start: real)
    requires Good(w.book, start) && w.pos.lot > 0.0 && Closed(w.pos, w.book) && !reason.StopHit?
    ensures var b1 := Exit(m, w, price, reason).w.book;
            && (Flat(b1, w.pos.symbol) <==> ExitOk(w.book, w.pos, true)) && Dead(b1, w.pos.stopId)
            && (Flat(b1, w.pos.symbol) ==> Tidy(w.book, b1, w.pos.symbol, start))
  {
    var c := FloorLot(w.pos.remaining, w.pos.lot);
    ExitIsCancelThenClose(m, w, price, reason);
    ExitStaysDead(m, w, price, reason);
    assert CancelStop(w.book, w.pos.leg, w.pos.stopId) == (w.book, false);
    if c > 0.0 {
      CloseWhenFlat(m, w.pos, w.book, c, start);
    }
  }

  /** Closing at market part-way through a window (a manual close, or a weekend
      flatten, which is tested before the stop hit) ends with nothing held, nothing
      resting and the stop's id used up if and only if `ExitOk` holds. Once the stop
      has fired, a close that goes through opens a position the engine knows
      nothing about. */
  lemma {:induction false} MidWindowExitFlatIff(m: Market, w: World, window: seq<real>, price: real,
                                                reason: ExitReason, start: real)
    requires Good(w.book, start) && w.pos.lot > 0.0 && w.pos.remaining > 0.0 && !reason.StopHit?
    requires InWindow(w.pos, w.book, window)
    ensures var b1 := Exit(m, w, price, reason).w.book;
            && (Flat(b1, w.pos.symbol) <==> ExitOk(w.book, w.pos, Fired(w.pos, window))) && Dead(b1, w.pos.stopId)
            && (Flat(b1, w.pos.symbol) ==> Tidy(w.book, b1, w.pos.symbol, start))
  {
    if Fired(w.pos, window) {
      ExitAfterFire(m, w, price, reason, start);
    } else {
      ExitFlattensIff(m, w, price, reason, start);
    }
  }

  /** A bar that does not reach the stop leaves an agreed position agreed. */
  lemma {:induction false} ObserveAgrees(p: Position, bar: Bar, b: Book, start: real)
    requires Good(b, start) && Sized(p) && Protected(p, b) && bar.high > 0.0 && bar.low > 0.0 && !StopTouched(p, bar)
    ensures Agreed(World(Observe(p, bar), b), start)
  {
    assert StopOrderOf(Observe(p, bar)) == StopOrderOf(p);
  }

  /** What a bar may be given: the prices of the ticks since the last one. */
  ghost predicate ClosesWindow(bar: Bar, window: seq<real>) {
    && window != [] && bar.high == High(window) && bar.low == Low(window) && bar.close == window[|window| - 1]
    && forall x :: x in window ==> x > 0.0
  }

  lemma {:induction false} ManageReports(cfg: Config, m: Market, w: World, bar: Bar)
    requires w.pos.lot > 0.0
    ensures var r := Manage(cfg, m, w, bar); r.Done? ==> ExitedOnStop !in r.value
  {
    var rNow := RMultiple(w.pos, bar.close);
    var r1 := BreakevenStage(cfg, m, w, rNow);
    if r1.Done? {
      var r2 := TrailingStage(cfg, m, r1.w, rNow);
      if r2.Done? {
        var r3 := LockStage(cfg, r2.w, rNow);
        assert r3.Done? ==> ExitedOnStop !in r1.value + r2.value + r3.value;
      }
    }
  }

  /** What a reader of the two books sees: flat if the engine is EXITED, protected
      otherwise. */
  predicate Matches(p: Position, b: Book) {
    if p.phase == Exited then Flat(b, p.symbol) else p.remaining > 0.0 && Protected(p, b)
  }

  /** They match after a bar, and the engine can go on from there. */
  ghost predicate Rests(w: World, r: Step<seq<Action>>, start: real) {
    && Matches(r.w.pos, r.w.book) && Tidy(w.book, r.w.book, w.pos.symbol, start)
    && (if r.w.pos.phase == Exited then Dead(r.w.book, r.w.pos.stopId) else Sized(r.w.pos))
  }

  /** The call raised only where the exchange leg refused a partial, and otherwise
      reported a stop hit iff the broker's stop fired inside the window. */
  ghost predicate Reports(p: Position, r: Step<seq<Action>>, window: seq<real>) {
    if r.Raised? then p.leg.India? && !Fired(p, window) else ExitedOnStop in r.value <==> Fired(p, window)
  }

  /** A bar that sends a market close for the whole position. */
  predicate ExitsActively(cfg: Config, p: Position, bar: Bar) {
    && p.phase != Exited && bar.low <= bar.high
    && (FlattensOn(cfg, p, bar)
        || (!StopTouched(p, bar) && Observe(p, bar).barsNoProgress >= cfg.maxBarsNoProgress(p.leg)))
  }

  /** What a bar needs: an active exit must end flat; the stages of a managing bar
      must be given what they ask. A stop hit needs nothing. */
  predicate BarOk(cfg: Config, m: Market, b: Book, p: Position, bar: Bar)
    requires p.lot > 0.0
  {
    && (ExitsActively(cfg, p, bar) ==> ExitOk(b, p, StopTouched(p, bar)))
    && (Manages(cfg, p, bar) ==> ManageOk(cfg, m, World(Observe(p, bar), b), bar))
  }

  lemma {:induction false} ManageNeverExits(cfg: Config, m: Market, w: World, bar: Bar)
    requires w.pos.lot > 0.0 && w.pos.phase != Exited
    ensures Manage(cfg, m, w, bar).w.pos.phase != Exited
  {
    var rNow := RMultiple(w.pos, bar.close);
    ManageEnds(cfg, m, w, bar);
    LadderNeverExits(cfg, m, w, rNow);
  }

  lemma {:induction false} LadderNeverExits(cfg: Config, m: Market, w: World, rNow: real)
    requires w.pos.lot > 0.0 && w.pos.phase != Exited
    ensures var r1 := BreakevenStage(cfg, m, w, rNow);
            r1.w.pos.phase != Exited && TrailingStage(cfg, m, r1.w, rNow).w.pos.phase != Exited
  {
    var w1 := BreakevenStage(cfg, m, w, rNow).w;
    assert w1.pos.phase != Exited;
  }

  lemma {:induction false} ManagingBarAgreesIff(cfg: Config, m: Market, w: World, bar: Bar, window: seq<real>,
                                                start: real)
    requires Good(w.book, start) && Sized(w.pos) && Protected(w.pos, w.book)
    requires ClosesWindow(bar, window) && !Fired(w.pos, window) && Manages(cfg, w.pos, bar)
    ensures var r := OnBar(cfg, m, w, bar);
            if BarOk(cfg, m, w.book, w.pos, bar) then Rests(w, r, start) && Reports(w.pos, r, window)
            else !Matches(r.w.pos, r.w.book)
  {
    var w1 := w.(pos := Observe(w.pos, bar));
    HighLow(window);
    ObserveAgrees(w.pos, bar, w.book, start);
    ManagingBar(cfg, m, w, bar);
    ManageAgreesIff(cfg, m, w1, bar, start);
    ManageReports(cfg, m, w1, bar);
    ManageNeverExits(cfg, m, w1, bar);
    if !ManageOk(cfg, m, w1, bar) {
      LostIsNotProtected(Manage(cfg, m, w1, bar).w);
    }
  }

  lemma {:induction false} ExitRests(m: Market, w: World, p: Position, price: real, reason: ExitReason, a: Action,
                                     window: seq<real>, start: real)
    requires Good(w.book, start) && p.lot > 0.0 && p.remaining > 0.0 && InWindow(p, w.book, window)
    requires p.symbol == w.pos.symbol && !reason.StopHit?
    ensures var r := ExitedAs(Exit(m, w.(pos := p), price, reason), a);
            && r.w.pos.phase == Exited
            && (if ExitOk(w.book, p, Fired(p, window)) then
                  Rests(w, r, start) && (!Fired(p, window) ==> r.Done? && r.value == [a])
                else !Matches(r.w.pos, r.w.book))
  {
    MidWindowExitFlatIff(m, w.(pos := p), window, price, reason, start);
    if !Fired(p, window) {
      ExitFlattensIff(m, w.(pos := p), price, reason, start);
    }
  }

  /** The same position with new extremes. */
  predicate OnlySeen(p: Position, p1: Position) {
    p1 == p.(extreme := p1.extreme, barsNoProgress := p1.barsNoProgress)
  }

  lemma {:induction false} SeenChangesNothing(p: Position, p1: Position, b: Book, window: seq<real>)
    requires OnlySeen(p, p1) && p.lot > 0.0
    ensures Fired(p1, window) <==> Fired(p, window)
    ensures InWindow(p1, b, window) <==> InWindow(p, b, window)
    ensures forall fired :: ExitOk(b, p1, fired) <==> ExitOk(b, p, fired)
  {
    forall x | x in window
      ensures Touches(p1, x) <==> Touches(p, x)
    {
    }
    assert StopOrderOf(p1) == StopOrderOf(p);
  }

  /** The exit that such a bar performs. */
  lemma {:induction false} ActiveExit(cfg: Config, m: Market, w: World, bar: Bar)
    returns (p1: Position, reason: ExitReason, a: Action)
    requires w.pos.lot > 0.0 && ExitsActively(cfg, w.pos, bar)
    ensures OnlySeen(w.pos, p1) && !reason.StopHit? && a != ExitedOnStop
    ensures OnBar(cfg, m, w, bar) == ExitedAs(Exit(m, w.(pos := p1), bar.close, reason), a)
    ensures FlattensOn(cfg, w.pos, bar) || !StopTouched(w.pos, bar)
  {
    ExitingBar(cfg, m, w, bar);
    if FlattensOn(cfg, w.pos, bar) {
      p1, reason, a := w.pos, WeekendFlatten, ExitedOnWeekend;
    } else {
      p1, reason, a := Observe(w.pos, bar), TimeStop, ExitedOnTime;
    }
  }

  lemma {:induction false} ExitingBarAgreesIff(cfg: Config, m: Market, w: World, bar: Bar, window: seq<real>,
                                               start: real)
    requires Good(w.book, start) && Sized(w.pos) && InWindow(w.pos, w.book, window)
    requires ExitsActively(cfg, w.pos, bar) && (StopTouched(w.pos, bar) <==> Fired(w.pos, window))
    ensures var r := OnBar(cfg, m, w, bar);
            if ExitOk(w.book, w.pos, Fired(w.pos, window)) then
              Rests(w, r, start) && (Fired(w.pos, window) || Reports(w.pos, r, window))
            else !Matches(r.w.pos, r.w.book)
  {
    var p1, reason, a := ActiveExit(cfg, m, w, bar);
    SeenChangesNothing(w.pos, p1, w.book, window);
    ExitRests(m, w, p1, bar.close, reason, a, window, start);
  }

  /** Main step: after a bar whose window agreed the two books match again if and only
      if it meets `BarOk`. Unless the bar is a weekend flatten of a position whose
      stop has fired, it then reports a stop hit exactly when the broker's stop
      fired inside the window, and raises only where the exchange leg refuses a
      partial. */
  lemma {:induction false} BarAgreesIff(cfg: Config, m: Market, w: World, bar: Bar, window: seq<real>, start: real)
    requires Good(w.book, start) && Sized(w.pos) && InWindow(w.pos, w.book, window) && ClosesWindow(bar, window)
    ensures var r := OnBar(cfg, m, w, bar);
            if BarOk(cfg, m, w.book, w.pos, bar) then
              && Rests(w, r, start)
              && ((FlattensOn(cfg, w.pos, bar) && Fired(w.pos, window)) || Reports(w.pos, r, window))
            else !Matches(r.w.pos, r.w.book)
  {
    BarSeesFired(w.pos, window, bar);
    if ExitsActively(cfg, w.pos, bar) {
      ExitingBarAgreesIff(cfg, m, w, bar, window, start);
    } else if Manages(cfg, w.pos, bar) {
      ManagingBarAgreesIff(cfg, m, w, bar, window, start);
    } else {
      ExitingBar(cfg, m, w, bar);
    }
  }

  // ---------- exactly when a step breaks the agreement ----------

  /** A tick the broker sees and no window ever shows the engine keeps the two in
      agreement exactly when it does not reach the stop; if it does, the broker is
      flat and the engine still believes it is in the trade. */
  lemma {:induction false} UnseenTickAgreesIff(m: Market, p: Position, b: Book, price: real, start: real)
    requires Good(b, start) && p.remaining > 0.0 && Protected(p, b) && price > 0.0
    ensures var b1 := Tick(m, b, p.symbol, price);
            && (Protected(p, b1) <==> !Touches(p, price))
            && (Touches(p, price) ==> Flat(b1, p.symbol))
  {
    assert InWindow(p, b, []);
    TickInWindow(m, p, b, [], price, start);
    assert price in [] + [price];
  }

  /** Once the stop has fired, a stop change finds nothing to change. */
  lemma {:induction false} ForceAfterFire(cfg: Config, w: World, stop: real, window: seq<real>)
    requires Closed(w.pos, w.book) && Fired(w.pos, window) && Takes(cfg, w.pos, stop)
    ensures var r := Ratchet(cfg, w, stop, true);
            && r.w.book == w.book && r.w.pos == w.pos.(stop := stop) && Fired(r.w.pos, window)
  {
    var x :| x in window && Touches(w.pos, x);
    assert Touches(w.pos.(stop := stop), x);
  }

  /** A forced stop change in the middle of a window keeps the agreement exactly
      when the change is not taken, the old stop has already fired, or the new
      level can be placed and no tick of the window so far reaches it. */
  lemma {:induction false} ForceMidWindowAgreesIff(cfg: Config, w: World, stop: real, window: seq<real>, start: real)
    requires Good(w.book, start) && w.pos.remaining > 0.0 && InWindow(w.pos, w.book, window)
    ensures var r := Ratchet(cfg, w, stop, true);
            && Good(r.w.book, start) && Elsewhere(w.book, r.w.book, w.pos.symbol)
            && (InWindow(r.w.pos, r.w.book, window)
                <==> !Takes(cfg, w.pos, stop) || Fired(w.pos, window)
                     || (Placeable(w.pos.leg, stop) && forall x :: x in window ==> !Crosses(w.pos.direction, stop, x)))
  {
    if Takes(cfg, w.pos, stop) {
      if Fired(w.pos, window) {
        ForceAfterFire(cfg, w, stop, window);
      } else {
        RatchetAgreesIff(cfg, w, stop, true, start);
        assert Ratchet(cfg, w, stop, true).w.pos == w.pos.(stop := stop);
        NotFlat(cfg, w, stop, start);
      }
    }
  }

  /** A stop change of a protected position sells nothing. */
  lemma {:induction false} NotFlat(cfg: Config, w: World, stop: real, start: real)
    requires Good(w.book, start) && w.pos.remaining > 0.0 && Protected(w.pos, w.book) && Takes(cfg, w.pos, stop)
    ensures Held(Ratchet(cfg, w, stop, true).w.book, w.pos.symbol) == Signed(w.pos.direction, w.pos.remaining)
  {
    if Placeable(w.pos.leg, stop) {
      ModifyStopAgrees(w.pos, w.book, stop, start);
    } else {
      LevelCancels(cfg, w, stop, true, start);
    }
  }

  /** A level that a tick of the window has passed: the bar that closes the window
      calls it a stop hit and sends nothing, while the broker still holds
      everything - under a live stop, or under none if the level cancelled it. */
  lemma {:induction false} ForcedPastATick(cfg: Config, m: Market, w: World, stop: real, window: seq<real>, bar: Bar,
                                           start: real)
    requires Good(w.book, start) && Sized(w.pos) && InWindow(w.pos, w.book, window)
    requires Takes(cfg, w.pos, stop) && !Fired(w.pos, window)
    requires exists x :: x in window && Crosses(w.pos.direction, stop, x)
    requires ClosesWindow(bar, window) && !FlattensOn(cfg, w.pos, bar)
    ensures var r := OnBar(cfg, m, Ratchet(cfg, w, stop, true).w, bar);
            var p1 := w.pos.(stop := stop);
            && r.Done? && r.value == [ExitedOnStop] && r.w.pos.phase == Exited
            && Holds(r.w.book, p1.symbol, Signed(p1.direction, p1.remaining),
                     if Placeable(p1.leg, stop) then [StopOrderOf(p1)] else [])
  {
    if Placeable(w.pos.leg, stop) {
      ModifyStopAgrees(w.pos, w.book, stop, start);
    } else {
      LevelCancels(cfg, w, stop, true, start);
    }
    var w1 := Ratchet(cfg, w, stop, true).w;
    assert Fired(w1.pos, window);
    BarSeesFired(w1.pos, window, bar);
    ExitingBar(cfg, m, w1, bar);
  }

  function Ticked(m: Market, b: Book, s: Symbol, prices: seq<real>): Book {
    if prices == [] then b else Tick(m, Ticked(m, b, s, prices[..|prices| - 1]), s, prices[|prices| - 1])
  }

  lemma {:induction false} UnprotectedStays(m: Market, b: Book, s: Symbol, qty: real, prices: seq<real>, start: real)
    requires Good(b, start) && Holds(b, s, qty, []) && forall x :: x in prices ==> x > 0.0
    ensures Good(Ticked(m, b, s, prices), start) && Holds(Ticked(m, b, s, prices), s, qty, [])
  {
    if prices != [] {
      var init := prices[..|prices| - 1];
      assert forall x :: x in init ==> x in prices;
      assert prices[|prices| - 1] in prices;
      UnprotectedStays(m, b, s, qty, init, start);
      QuietTick(m, Ticked(m, b, s, init), s, prices[|prices| - 1], start);
    }
  }

  /** A forced level at or below zero on the MT5 leg takes the stop away, whatever
      ticks follow. For a short the next bar is then a stop hit by the engine's
      level: it sends nothing, and the whole short stays without a stop. */
  lemma {:induction false} ForcedToCancel(cfg: Config, m: Market, w: World, stop: real, window: seq<real>,
                                          prices: seq<real>, bar: Bar, start: real)
    requires Good(w.book, start) && Sized(w.pos) && InWindow(w.pos, w.book, window) && !Fired(w.pos, window)
    requires Takes(cfg, w.pos, stop) && !Placeable(w.pos.leg, stop)
    requires ClosesWindow(bar, window + prices) && !FlattensOn(cfg, w.pos, bar)
    ensures var w1 := Ratchet(cfg, w, stop, true).w;
            var b2 := Ticked(m, w1.book, w.pos.symbol, prices);
            var r := OnBar(cfg, m, w1.(book := b2), bar);
            && w1.pos == w.pos.(stop := stop)
            && Holds(b2, w.pos.symbol, Signed(w.pos.direction, w.pos.remaining), [])
            && (w.pos.direction.Sell? ==>
                  r.Done? && r.value == [ExitedOnStop] && r.w.pos.phase == Exited && r.w.book == b2)
  {
    LevelCancels(cfg, w, stop, true, start);
    var w1 := Ratchet(cfg, w, stop, true).w;
    assert forall x :: x in prices ==> x in window + prices;
    UnprotectedStays(m, w1.book, w.pos.symbol, Signed(w.pos.direction, w.pos.remaining), prices, start);
    HighLow(window + prices);
    if w.pos.direction.Sell? {
      ExitingBar(cfg, m, w1.(book := Ticked(m, w1.book, w.pos.symbol, prices)), bar);
    }
  }

  /** No stop is left behind and the books match: the state a partial must leave. */
  predicate Covered(p: Position, b: Book) {
    p.remaining > 0.0 && Protected(p, b)
  }

  lemma {:induction false} RefusedPartial(m: Market, w: World, partial: Partial, start: real)
    requires Good(w.book, start) && Protected(w.pos, w.book) && Sized(w.pos)
    requires var c := Carve(w.pos, partial.pct); c > 0.0 && !CanClose(w.book, w.pos, c)
    ensures var r := TakePartial(m, w, partial); !(r.Done? && Covered(r.w.pos, r.w.book))
  {
    var p, b, c := w.pos, w.book, Carve(w.pos, partial.pct);
    if !p.leg.India? || Whole(c) {
      RefusedOrder(m, b, p.symbol, Closing(p.direction), c, start);
      ExitMarketOrder(m, p, b, c);
    }
    if !p.leg.India? {
      var b1 := ExitMarket(m, b, p.leg, p.symbol, c, p.direction).0;
      ServerModifyHeld(b1, p.stopId, p.stop, p.symbol);
    }
  }

  /** On the MT5 leg a stop at or below zero is cancelled when it is re-placed. */
  lemma {:induction false} CancelledByPartial(m: Market, w: World, partial: Partial, start: real)
    requires Good(w.book, start) && Protected(w.pos, w.book) && Sized(w.pos) && !Placeable(w.pos.leg, w.pos.stop)
    requires var c := Carve(w.pos, partial.pct); 0.0 < c < w.pos.remaining && CanClose(w.book, w.pos, c)
    ensures var r := TakePartial(m, w, partial); !Covered(r.w.pos, r.w.book)
  {
    var p, c := w.pos, Carve(w.pos, partial.pct);
    ExitMarketReduces(m, p, w.book, c, start);
    DropOrder(ExitMarket(m, w.book, p.leg, p.symbol, c, p.direction).0, StopOrderOf(p), start);
  }

  /** A partial keeps the agreement exactly when it sells nothing, or less than
      what remains, the market close of it goes through and the stop can be placed
      again. A carve of the whole remainder leaves the old stop resting; one that
      cannot be paid for is swallowed on the MT5 leg while the engine books it. */
  lemma {:induction false} PartialAgreesIff(m: Market, w: World, partial: Partial, start: real)
    requires Good(w.book, start) && Protected(w.pos, w.book) && Sized(w.pos)
    ensures var r := TakePartial(m, w, partial);
            var c := Carve(w.pos, partial.pct);
            r.Done? && Covered(r.w.pos, r.w.book)
            <==> c <= 0.0 || (c < w.pos.remaining && CanClose(w.book, w.pos, c) && Placeable(w.pos.leg, w.pos.stop))
  {
    var p, b, c := w.pos, w.book, Carve(w.pos, partial.pct);
    if c > 0.0 && !CanClose(b, p, c) {
      RefusedPartial(m, w, partial, start);
    } else if c >= p.remaining {
      assert TakePartial(m, w, partial).w.pos.remaining <= 0.0 || TakePartial(m, w, partial).Raised?;
    } else if c <= 0.0 || Placeable(p.leg, p.stop) {
      TakeSizedAgrees(m, w, partial.atR, c, start);
    } else {
      CancelledByPartial(m, w, partial, start);
    }
  }
}
