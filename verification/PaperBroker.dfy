/** The paper broker: cash, holdings, resting stop orders and the fill log.
    `Book` is the broker's state as a value, with one function per operation;
    class `Broker` holds the same state in fields and every method is proved to
    move the fields exactly as the function moves the value. */
module PaperBroker {
  import opened Basics

  /** The two pricing models the broker is configured with: square-root impact
      (as a fraction of price) and the cost schedule (currency per fill). */
  datatype Market = Market(
    slip: (Symbol, real) -> real,
    cost: (Symbol, Side, real, real) -> real)

  datatype Order = Order(id: nat, symbol: Symbol, action: Side, qty: real, trigger: real)

  datatype Fill = Fill(id: nat, symbol: Symbol, action: Side, qty: real, price: real, cost: real)

  datatype Holding = Holding(qty: real, avg: real)

  datatype PriceType = AtMarket | StopMarket(trigger: real)

  datatype Payload = Payload(symbol: Symbol, action: Side, qty: real, kind: PriceType)

  datatype Reply = Accepted(id: nat, filled: real, avg: Option<real>) | Refused(reason: string)

  /** `open` keeps the resting orders in the order they were placed, `listed`
      the symbols of `positions` in the order they were first filled. */
  datatype Book = Book(
    cash: real,
    last: map<Symbol, real>,
    listed: seq<Symbol>,
    positions: map<Symbol, Holding>,
    open: seq<Order>,
    fills: seq<Fill>,
    costs: real,
    nextId: nat)

  function NewBook(cash: real): Book {
    Book(cash, map[], [], map[], [], [], 0.0, 1)
  }

  // ---------- reading a book ----------

  function HoldingOf(b: Book, s: Symbol): Holding {
    if s in b.positions then b.positions[s] else Holding(0.0, 0.0)
  }

  function Held(b: Book, s: Symbol): real {
    HoldingOf(b, s).qty
  }

  function OrdersFor(open: seq<Order>, s: Symbol): seq<Order> {
    if open == [] then []
    else
      var rest := OrdersFor(open[..|open| - 1], s);
      var o := open[|open| - 1];
      if o.symbol == s then rest + [o] else rest
  }

  function Find(open: seq<Order>, id: nat): (r: Option<Order>)
    ensures r.Some? ==> r.value in open && r.value.id == id
    ensures r.None? ==> forall o :: o in open ==> o.id != id
  {
    if open == [] then None
    else if open[|open| - 1].id == id then Some(open[|open| - 1])
    else Find(open[..|open| - 1], id)
  }

  /** `del open_orders[id]`. */
  function Without(open: seq<Order>, id: nat): (r: seq<Order>)
    ensures forall o :: o in r <==> o in open && o.id != id
  {
    if open == [] then []
    else
      var rest := Without(open[..|open| - 1], id);
      var o := open[|open| - 1];
      assert open == open[..|open| - 1] + [o];
      if o.id == id then rest else rest + [o]
  }

  /** The resting order with o's id becomes o; its place in the queue is kept. */
  function Put(open: seq<Order>, o: Order): (r: seq<Order>)
    ensures |r| == |open|
    ensures forall i :: 0 <= i < |open| ==> r[i] == if open[i].id == o.id then o else open[i]
  {
    if open == [] then []
    else
      var rest := Put(open[..|open| - 1], o);
      var last := open[|open| - 1];
      rest + [if last.id == o.id then o else last]
  }

  // ---------- the operations ----------

  function FillPrice(m: Market, s: Symbol, side: Side, qty: real, ref: real): real {
    if side.Buy? then ref * (1.0 + m.slip(s, qty)) else ref * (1.0 - m.slip(s, qty))
  }

  /** The average of a long holding after a buy. */
  function Blend(was: Holding, qty: real, price: real): real
    requires was.qty + qty != 0.0
  {
    ((if was.qty > 0.0 then was.avg * was.qty else 0.0) + qty * price) / (was.qty + qty)
  }

  /** What a fill adds to cash. */
  function Proceeds(f: Fill): real {
    if f.action.Buy? then -f.qty * f.price - f.cost else f.qty * f.price - f.cost
  }

  /** The new average: the flip branch first, then the long-side blend; a short
      that is opened or extended keeps whatever average it had. */
  function NewHolding(was: Holding, side: Side, qty: real, price: real): Holding {
    var signed := Signed(side, qty);
    var newQty := was.qty + signed;
    var avg :=
      if was.qty != 0.0 && (was.qty > 0.0) != (newQty > 0.0) && newQty != 0.0 then price
      else if signed > 0.0 && newQty > 0.0 then Blend(was, signed, price)
      else was.avg;
    Holding(newQty, if newQty == 0.0 then 0.0 else avg)
  }

  function FillOf(m: Market, id: nat, s: Symbol, side: Side, qty: real, ref: real): Fill {
    var price := FillPrice(m, s, side, qty, ref);
    Fill(id, s, side, qty, price, m.cost(s, side, qty, price))
  }

  function Apply(b: Book, f: Fill): Book {
    b.(cash := b.cash + Proceeds(f),
       listed := if f.symbol in b.positions then b.listed else b.listed + [f.symbol],
       positions := b.positions[f.symbol := NewHolding(HoldingOf(b, f.symbol), f.action, f.qty, f.price)],
       fills := b.fills + [f],
       costs := b.costs + f.cost)
  }

  predicate Hit(o: Order, price: real) {
    if o.action.Sell? then price <= o.trigger else price >= o.trigger
  }

  function StopRef(o: Order, price: real): real {
    if o.action.Sell? then Min(o.trigger, price) else Max(o.trigger, price)
  }

  function Fire(m: Market, b: Book, o: Order, price: real): Book {
    Apply(b.(open := Without(b.open, o.id)),
          FillOf(m, o.id, o.symbol, o.action, o.qty, StopRef(o, price)))
  }

  function TickOne(m: Market, b: Book, o: Order, s: Symbol, price: real): Book {
    if o.symbol == s && Hit(o, price) then Fire(m, b, o, price) else b
  }

  /** The loop over the snapshot of resting orders, oldest first. */
  function TickAll(m: Market, b: Book, snapshot: seq<Order>, s: Symbol, price: real): Book {
    if snapshot == [] then b
    else
      TickOne(m, TickAll(m, b, snapshot[..|snapshot| - 1], s, price), snapshot[|snapshot| - 1], s, price)
  }

  function Tick(m: Market, b: Book, s: Symbol, price: real): Book {
    TickAll(m, b.(last := b.last[s := price]), b.open, s, price)
  }

  function Place(m: Market, b: Book, p: Payload): (Book, Reply) {
    if p.qty <= 0.0 then (b, Refused("invalid quantity"))
    else if p.kind.AtMarket? && p.symbol !in b.last then (b, Refused("no market data"))
    else
      var b1 := b.(nextId := b.nextId + 1);
      match p.kind
      case StopMarket(trigger) =>
        (b1.(open := b1.open + [Order(b.nextId, p.symbol, p.action, p.qty, trigger)]),
         Accepted(b.nextId, 0.0, None))
      case AtMarket =>
        var ref := b.last[p.symbol];
        if p.action.Buy? && p.qty * ref > b.cash then (b1, Refused("insufficient_margin"))
        else
          var f := FillOf(m, b.nextId, p.symbol, p.action, p.qty, ref);
          (Apply(b1, f), Accepted(b.nextId, p.qty, Some(f.price)))
  }

  function Modify(b: Book, id: nat, trigger: real): (Book, bool) {
    match Find(b.open, id)
    case None => (b, false)
    case Some(o) => (b.(open := Put(b.open, o.(trigger := trigger))), true)
  }

  function Cancel(b: Book, id: nat): (Book, bool) {
    if Find(b.open, id).None? then (b, false) else (b.(open := Without(b.open, id)), true)
  }

  /** Assignment to a resting order's quantity, as the MT5 side of the paper
      server does after a partial close. */
  function Resize(b: Book, id: nat, qty: real): Book {
    match Find(b.open, id)
    case None => b
    case Some(o) => b.(open := Put(b.open, o.(qty := qty)))
  }

  /** `equity()`: two passes over the holdings. */
  function Unrealized(b: Book, n: nat): real
    requires n <= |b.listed|
  {
    if n == 0 then 0.0
    else
      var s := b.listed[n - 1];
      var h := HoldingOf(b, s);
      var mark := if s in b.last then b.last[s] else h.avg;
      Unrealized(b, n - 1) + (if h.qty != 0.0 then h.qty * (mark - h.avg) else 0.0)
  }

  function LongBasis(b: Book, n: nat): real
    requires n <= |b.listed|
  {
    if n == 0 then 0.0
    else
      var h := HoldingOf(b, b.listed[n - 1]);
      LongBasis(b, n - 1) + (if h.qty > 0.0 then h.qty * h.avg else 0.0)
  }

  function Equity(b: Book): real {
    b.cash + Unrealized(b, |b.listed|) + LongBasis(b, |b.listed|)
  }

  // ---------- the broker object ----------

  class Broker {
    const market: Market
    var cash: real
    var last: map<Symbol, real>
    var listed: seq<Symbol>
    var positions: map<Symbol, Holding>
    var openOrders: seq<Order>
    var fills: seq<Fill>
    var totalCosts: real
    var nextId: nat

    function State(): Book
      reads this
    {
      Book(cash, last, listed, positions, openOrders, fills, totalCosts, nextId)
    }

    constructor (market: Market, startingCash: real)
      ensures this.market == market
      ensures State() == NewBook(startingCash)
    {
      this.market := market;
      cash, last, listed, positions := startingCash, map[], [], map[];
      openOrders, fills, totalCosts, nextId := [], [], 0.0, 1;
    }

    method OnTick(symbol: Symbol, price: real) returns (r: Option<seq<Fill>>)
      modifies this
      ensures r.None? <==> price <= 0.0
      ensures r.None? ==> State() == old(State())
      ensures r.Some? ==> State() == Tick(market, old(State()), symbol, price)
      ensures r.Some? ==> fills == old(fills) + r.value
    {
      if price <= 0.0 {
        return None;
      }
      last := last[symbol := price];
      ghost var start := State();
      var snapshot := openOrders;
      var triggered: seq<Fill> := [];
      for i := 0 to |snapshot|
        invariant State() == TickAll(market, start, snapshot[..i], symbol, price)
        invariant fills == start.fills + triggered
      {
        var order := snapshot[i];
        assert snapshot[..i + 1][..i] == snapshot[..i];
        if order.symbol == symbol {
          var trig := order.trigger;
          var hit := if order.action.Sell? then price <= trig else price >= trig;
          if hit {
            openOrders := Without(openOrders, order.id);
            var ref := if order.action.Sell? then Min(trig, price) else Max(trig, price);
            var f := RecordFill(order.id, symbol, order.action, order.qty, ref);
            triggered := triggered + [f];
          }
        }
      }
      assert snapshot[..|snapshot|] == snapshot;
      return Some(triggered);
    }

    method PlaceOrder(p: Payload) returns (r: Reply)
      modifies this
      ensures (State(), r) == Place(market, old(State()), p)
    {
      if p.qty <= 0.0 {
        return Refused("invalid quantity");
      }
      if p.symbol !in last && p.kind.AtMarket? {
        return Refused("no market data");
      }
      var oid := nextId;
      nextId := nextId + 1;
      if p.kind.StopMarket? {
        openOrders := openOrders + [Order(oid, p.symbol, p.action, p.qty, p.kind.trigger)];
        return Accepted(oid, 0.0, None);
      }
      var ref := last[p.symbol];
      var notional := p.qty * ref;
      if p.action.Buy? && notional > cash {
        return Refused("insufficient_margin");
      }
      var f := RecordFill(oid, p.symbol, p.action, p.qty, ref);
      return Accepted(oid, p.qty, Some(f.price));
    }

    method ModifyOrder(id: nat, trigger: real) returns (ok: bool)
      modifies this
      ensures (State(), ok) == Modify(old(State()), id, trigger)
    {
      var order := Find(openOrders, id);
      if order.None? {
        return false;
      }
      openOrders := Put(openOrders, order.value.(trigger := trigger));
      return true;
    }

    method CancelOrder(id: nat) returns (ok: bool)
      modifies this
      ensures (State(), ok) == Cancel(old(State()), id)
    {
      if Find(openOrders, id).None? {
        return false;
      }
      openOrders := Without(openOrders, id);
      return true;
    }

    method ResizeOrder(id: nat, qty: real)
      modifies this
      ensures State() == Resize(old(State()), id, qty)
    {
      var order := Find(openOrders, id);
      if order.Some? {
        openOrders := Put(openOrders, order.value.(qty := qty));
      }
    }

    /** `_fill`. */
    method RecordFill(id: nat, symbol: Symbol, action: Side, qty: real, refPrice: real) returns (f: Fill)
      modifies this
      ensures f == FillOf(market, id, symbol, action, qty, refPrice)
      ensures State() == Apply(old(State()), f)
    {
      var price := FillPrice(market, symbol, action, qty, refPrice);
      var cost := market.cost(symbol, action, qty, price);
      if symbol !in positions {
        listed := listed + [symbol];
        positions := positions[symbol := Holding(0.0, 0.0)];
      }
      var pos := positions[symbol];
      var signed := if action.Buy? then qty else -qty;
      var newQty := pos.qty + signed;
      var avg := pos.avg;
      if pos.qty != 0.0 && (pos.qty > 0.0) != (newQty > 0.0) && newQty != 0.0 {
        avg := price;
      } else if signed > 0.0 && newQty > 0.0 {
        avg := Blend(pos, signed, price);
      }
      if newQty == 0.0 {
        avg := 0.0;
      }
      positions := positions[symbol := Holding(newQty, avg)];
      assert positions == old(positions)[symbol := Holding(newQty, avg)];
      f := Fill(id, symbol, action, qty, price, cost);
      cash := cash + Proceeds(f);
      totalCosts := totalCosts + cost;
      fills := fills + [f];
    }

    method ComputeEquity() returns (e: real)
      requires forall s :: s in listed ==> s in positions
      ensures e == Equity(State())
    {
      var unrealized, basis := 0.0, 0.0;
      for i := 0 to |listed|
        invariant unrealized == Unrealized(State(), i)
      {
        var s := listed[i];
        var p := positions[s];
        if p.qty != 0.0 {
          var mark := if s in last then last[s] else p.avg;
          unrealized := unrealized + p.qty * (mark - p.avg);
        }
      }
      for i := 0 to |listed|
        invariant basis == LongBasis(State(), i)
      {
        var p := positions[listed[i]];
        if p.qty > 0.0 {
          basis := basis + Abs(p.qty) * p.avg;
        }
      }
      return cash + unrealized + basis;
    }
  }
}
