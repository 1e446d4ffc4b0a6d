/** What each broker operation does to one symbol's holding and resting orders,
    and that it does nothing to any other symbol's. */
module BookFacts {
  import opened Basics
  import opened PaperBroker
  import opened StopAdapters
  import opened Ledger

  // ---------- the fill log never carries a holding through zero ----------

  predicate ThroughZero(before: real, after: real) {
    (before > 0.0 && after < 0.0) || (before < 0.0 && after > 0.0)
  }

  predicate NoFlips(fills: seq<Fill>) {
    if fills == [] then true
    else
      var pre, s := fills[..|fills| - 1], fills[|fills| - 1].symbol;
      NoFlips(pre) && !ThroughZero(Net(pre, s), Net(fills, s))
  }

  lemma {:induction false} NoFlipsNoFlippedShort(fills: seq<Fill>, s: Symbol)
    requires NoFlips(fills)
    ensures !FlippedShort(fills, s)
  {
    if fills != [] {
      NoFlipsNoFlippedShort(fills[..|fills| - 1], s);
    }
  }

  /** The book invariant carried through every run of the trading system. */
  ghost predicate Good(b: Book, start: real) {
    Exact(b, start) && NoFlips(b.fills)
  }

  // ---------- one symbol's slice of the book ----------

  predicate Flat(b: Book, s: Symbol) {
    Held(b, s) == 0.0 && OrdersFor(b.open, s) == []
  }

  predicate Holds(b: Book, s: Symbol, qty: real, orders: seq<Order>) {
    Held(b, s) == qty && OrdersFor(b.open, s) == orders
  }

  /** Nothing happened to other symbols. */
  ghost predicate Elsewhere(b: Book, b1: Book, s: Symbol) {
    forall t :: t != s ==> Held(b1, t) == Held(b, t) && OrdersFor(b1.open, t) == OrdersFor(b.open, t)
  }

  lemma {:induction false} OrdersForIn(open: seq<Order>, s: Symbol)
    ensures forall o :: o in OrdersFor(open, s) <==> o in open && o.symbol == s
  {
    if open != [] {
      OrdersForIn(open[..|open| - 1], s);
      assert open == open[..|open| - 1] + [open[|open| - 1]];
    }
  }

  lemma {:induction false} SoleOrder(open: seq<Order>, o: Order)
    requires Increasing(open) && OrdersFor(open, o.symbol) == [o]
    ensures Find(open, o.id) == Some(o)
    ensures forall x :: x in open && x.id == o.id ==> x == o
  {
    OrdersForIn(open, o.symbol);
    assert o in OrdersFor(open, o.symbol);
    var i :| 0 <= i < |open| && open[i] == o;
    forall x | x in open && x.id == o.id
      ensures x == o
    {
      var j :| 0 <= j < |open| && open[j] == x;
      assert !(i < j) && !(j < i);
    }
  }

  lemma {:induction false} OrdersForWithout(open: seq<Order>, id: nat, s: Symbol)
    ensures OrdersFor(Without(open, id), s) == Without(OrdersFor(open, s), id)
  {
    if open != [] {
      var init, o := open[..|open| - 1], open[|open| - 1];
      OrdersForWithout(init, id, s);
      var rest := Without(init, id);
      var mine := OrdersFor(init, s);
      assert (rest + [o])[..|rest + [o]| - 1] == rest;
      assert (mine + [o])[..|mine + [o]| - 1] == mine;
    }
  }

  lemma {:induction false} OrdersForPut(open: seq<Order>, o: Order, s: Symbol)
    requires forall x :: x in open && x.id == o.id ==> x.symbol == o.symbol
    ensures OrdersFor(Put(open, o), s) == Put(OrdersFor(open, s), o)
  {
    if open != [] {
      var init, last := open[..|open| - 1], open[|open| - 1];
      assert last in open;
      OrdersForPut(init, o, s);
      var rest := Put(init, o);
      var mine := OrdersFor(init, s);
      var put := [if last.id == o.id then o else last];
      assert (rest + put)[..|rest + put| - 1] == rest;
      assert (mine + [last])[..|mine + [last]| - 1] == mine;
    }
  }

  lemma {:induction false} PutAbsent(open: seq<Order>, o: Order)
    requires forall x :: x in open ==> x.id != o.id
    ensures Put(open, o) == open
  {
    if open != [] {
      PutAbsent(open[..|open| - 1], o);
      assert open[|open| - 1] in open;
    }
  }

  // ---------- one operation at a time ----------

  lemma {:induction false} ApplyEffect(b: Book, f: Fill)
    requires NoFlips(b.fills) && Held(b, f.symbol) == Net(b.fills, f.symbol)
    requires !ThroughZero(Held(b, f.symbol), Held(b, f.symbol) + Signed(f.action, f.qty))
    ensures Held(Apply(b, f), f.symbol) == Held(b, f.symbol) + Signed(f.action, f.qty)
    ensures forall t :: t != f.symbol ==> Held(Apply(b, f), t) == Held(b, t)
    ensures NoFlips(Apply(b, f).fills)
  {
    var fills := Apply(b, f).fills;
    assert fills[..|fills| - 1] == b.fills;
  }

  lemma {:induction false} MarketOrderFill(m: Market, b: Book, s: Symbol, side: Side, qty: real)
    requires s in b.last && qty > 0.0 && (side.Sell? || qty * b.last[s] <= b.cash)
    ensures var f := FillOf(m, b.nextId, s, side, qty, b.last[s]);
            Place(m, b, Payload(s, side, qty, AtMarket))
            == (Apply(b.(nextId := b.nextId + 1), f), Accepted(b.nextId, qty, Some(f.price)))
  {
  }

  /** A market order that the margin check lets through and that does not carry
      the holding through zero. */
  lemma {:induction false} MarketOrder(m: Market, b: Book, s: Symbol, side: Side, qty: real, start: real)
    requires Good(b, start) && s in b.last && qty > 0.0
    requires side.Sell? || qty * b.last[s] <= b.cash
    requires !ThroughZero(Held(b, s), Held(b, s) + Signed(side, qty))
    ensures var (b1, r) := Place(m, b, Payload(s, side, qty, AtMarket));
            && r == Accepted(b.nextId, qty, Some(FillPrice(m, s, side, qty, b.last[s])))
            && Holds(b1, s, Held(b, s) + Signed(side, qty), OrdersFor(b.open, s))
            && Elsewhere(b, b1, s) && Good(b1, start) && b1.last == b.last
            && b1.cash == b.cash + Proceeds(FillOf(m, b.nextId, s, side, qty, b.last[s]))
  {
    var p := Payload(s, side, qty, AtMarket);
    var b1 := Place(m, b, p).0;
    var f := FillOf(m, b.nextId, s, side, qty, b.last[s]);
    assert Exact(b1, start) by {
      PlaceKeeps(m, b, p, start);
      PlaceExact(m, b, p, start);
    }
    var b0 := b.(nextId := b.nextId + 1);
    MarketOrderFill(m, b, s, side, qty);
    assert Held(b0, s) == Held(b, s) == Net(b.fills, s);
    ApplyEffect(b0, f);
    assert forall t :: Held(b0, t) == Held(b, t);
  }

  /** A market order that the broker refuses: no quantity, no price, or no cash. */
  predicate Refuses(b: Book, s: Symbol, side: Side, qty: real) {
    qty <= 0.0 || s !in b.last || (side.Buy? && qty * b.last[s] > b.cash)
  }

  /** The books match but for the counter of ids. */
  predicate SameBut(b: Book, b1: Book) {
    b1 == b.(nextId := b1.nextId)
  }

  lemma {:induction false} RefusedOrder(m: Market, b: Book, s: Symbol, side: Side, qty: real, start: real)
    requires Good(b, start) && Refuses(b, s, side, qty)
    ensures var (b1, r) := Place(m, b, Payload(s, side, qty, AtMarket));
            SameBut(b, b1) && r.Refused? && Good(b1, start) && forall t :: Held(b1, t) == Held(b, t)
  {
    if qty > 0.0 && s in b.last {
      IssuedStaysGood(b, b.(nextId := b.nextId + 1), start);
    }
  }

  lemma {:induction false} IssuedStaysGood(b: Book, b1: Book, start: real)
    requires Good(b, start) && b1 == b.(nextId := b.nextId + 1)
    ensures Good(b1, start)
  {
    var _ := IssueId(b, start);
    SameBasis(b, b1);
  }

  lemma {:induction false} StopOrder(m: Market, b: Book, s: Symbol, side: Side, qty: real, trigger: real, start: real)
    requires Good(b, start) && qty > 0.0
    ensures var (b1, r) := Place(m, b, Payload(s, side, qty, StopMarket(trigger)));
            && r == Accepted(b.nextId, 0.0, None)
            && Holds(b1, s, Held(b, s), OrdersFor(b.open, s) + [Order(b.nextId, s, side, qty, trigger)])
            && Elsewhere(b, b1, s) && Good(b1, start) && b1.last == b.last && b1.cash == b.cash
            && b1.fills == b.fills
  {
    var p := Payload(s, side, qty, StopMarket(trigger));
    var b1 := Place(m, b, p).0;
    PlaceKeeps(m, b, p, start);
    PlaceExact(m, b, p, start);
    assert b1.open[..|b1.open| - 1] == b.open;
  }

  lemma {:induction false} RewriteOrder(b: Book, o: Order, o1: Order, start: real)
    requires Good(b, start) && OrdersFor(b.open, o.symbol) == [o]
    requires o1.id == o.id && o1.symbol == o.symbol && o1.qty > 0.0
    ensures var b1 := b.(open := Put(b.open, o1));
            Holds(b1, o.symbol, Held(b, o.symbol), [o1]) && Elsewhere(b, b1, o.symbol) && Good(b1, start)
  {
    var b1 := b.(open := Put(b.open, o1));
    SoleOrder(b.open, o);
    PutKeepsOrder(b.open, o1);
    EditKeeps(b, Put(b.open, o1), start);
    PutPriced(b, o1);
    forall t
      ensures OrdersFor(b1.open, t) == if t == o.symbol then [o1] else OrdersFor(b.open, t)
    {
      OrdersForPut(b.open, o1, t);
      OrdersForIn(b.open, t);
      if t != o.symbol {
        PutAbsent(OrdersFor(b.open, t), o1);
      } else {
        assert Put([o], o1) == [o1];
      }
    }
  }

  lemma {:induction false} WithoutStaysGood(b: Book, b1: Book, id: nat, start: real)
    requires Good(b, start) && b1 == b.(open := Without(b.open, id))
    ensures Good(b1, start)
  {
    WithoutKeepsOrder(b.open, id);
    EditKeeps(b, Without(b.open, id), start);
    SameBasis(b, b1);
  }

  lemma {:induction false} DropOrder(b: Book, o: Order, start: real)
    requires Good(b, start) && OrdersFor(b.open, o.symbol) == [o]
    ensures var (b1, ok) := Cancel(b, o.id);
            && ok && b1 == b.(open := Without(b.open, o.id))
            && Holds(b1, o.symbol, Held(b, o.symbol), []) && Elsewhere(b, b1, o.symbol) && Good(b1, start)
  {
    var b1 := b.(open := Without(b.open, o.id));
    SoleOrder(b.open, o);
    WithoutStaysGood(b, b1, o.id, start);
    forall t
      ensures OrdersFor(b1.open, t) == if t == o.symbol then [] else OrdersFor(b.open, t)
    {
      OrdersForWithout(b.open, o.id, t);
      OrdersForIn(b.open, t);
      if t != o.symbol {
        WithoutAbsent(OrdersFor(b.open, t), o.id);
      } else {
        assert Without([o], o.id) == [];
      }
    }
  }

  // ---------- ticks ----------

  /** Only the ticked symbol's orders matter to a tick. */
  lemma {:induction false} TickSeesOwnOrders(m: Market, b: Book, snapshot: seq<Order>, s: Symbol, price: real)
    ensures TickAll(m, b, snapshot, s, price) == TickAll(m, b, OrdersFor(snapshot, s), s, price)
  {
    if snapshot != [] {
      var init, o := snapshot[..|snapshot| - 1], snapshot[|snapshot| - 1];
      TickSeesOwnOrders(m, b, init, s, price);
      var mine := OrdersFor(init, s);
      assert (mine + [o])[..|mine + [o]| - 1] == mine;
    }
  }

  lemma {:induction false} TickGood(m: Market, b: Book, s: Symbol, price: real, start: real)
    requires Exact(b, start) && price > 0.0
    ensures Exact(Tick(m, b, s, price), start) && Tick(m, b, s, price).last == b.last[s := price]
  {
    OpKeeps(m, b, TickOp(s, price), start);
    OpExact(m, b, TickOp(s, price), start);
    var b1 := b.(last := b.last[s := price]);
    SameMoney(b, b1, start);
    SameBasis(b, b1);
    TickExact(m, b1, b1.open, |b1.open|, s, price, start);
    assert b1.open[..|b1.open|] == b1.open;
  }

  /** A tick on a symbol with no resting order, or whose one order it does not
      cross, only moves the last price. */
  lemma {:induction false} QuietTick(m: Market, b: Book, s: Symbol, price: real, start: real)
    requires Good(b, start) && price > 0.0
    requires var mine := OrdersFor(b.open, s); |mine| <= 1 && (|mine| == 1 ==> !Hit(mine[0], price))
    ensures Tick(m, b, s, price) == b.(last := b.last[s := price]) && Good(Tick(m, b, s, price), start)
  {
    var b1 := b.(last := b.last[s := price]);
    TickSeesOwnOrders(m, b1, b.open, s, price);
    var mine := OrdersFor(b.open, s);
    if |mine| == 1 {
      assert mine[..0] == [];
    }
    TickGood(m, b, s, price, start);
  }

  /** A tick that crosses the symbol's one resting stop fills it in full. */
  lemma {:induction false} FiringTick(m: Market, b: Book, o: Order, price: real, start: real)
    requires Good(b, start) && price > 0.0
    requires OrdersFor(b.open, o.symbol) == [o] && Hit(o, price)
    requires !ThroughZero(Held(b, o.symbol), Held(b, o.symbol) + Signed(o.action, o.qty))
    ensures var b1 := Tick(m, b, o.symbol, price);
            && Holds(b1, o.symbol, Held(b, o.symbol) + Signed(o.action, o.qty), [])
            && Elsewhere(b, b1, o.symbol) && Good(b1, start) && Dead(b1, o.id)
  {
    var s := o.symbol;
    var bt := b.(last := b.last[s := price]);
    TickSeesOwnOrders(m, bt, b.open, s, price);
    assert [o][..0] == [];
    assert Tick(m, b, s, price) == Fire(m, bt, o, price);
    TickGood(m, b, s, price, start);
    DropOrder(b, o, start);
    var b1 := Tick(m, b, s, price);
    assert b1.fills[..|b1.fills| - 1] == b.fills;
    assert Held(b, s) == Net(b.fills, s) && Held(b1, s) == Net(b1.fills, s);
    assert forall t :: t != s ==> Held(b1, t) == Held(b, t);
    assert b1.open == Without(b.open, o.id);
  }
}
