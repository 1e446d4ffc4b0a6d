/** What every run of the broker keeps: the books are a fold of the fill log,
    order ids live and die once, fired stops never do better than their trigger,
    and `equity()` is exact unless a fill carried a long straight into a short. */
module Ledger {
  import opened Basics
  import opened PaperBroker
  import opened StopAdapters

  // ---------- runs ----------

  /** Everything a client of the broker can do to it. */
  datatype Op =
    | TickOp(symbol: Symbol, price: real)
    | PlaceOp(payload: Payload)
    | ModifyOp(id: nat, trigger: real)
    | CancelOp(id: nat)
    | SyncOp(id: nat)

  function Apply1(m: Market, b: Book, op: Op): Book {
    match op
    case TickOp(s, price) => if price <= 0.0 then b else Tick(m, b, s, price)
    case PlaceOp(p) => Place(m, b, p).0
    case ModifyOp(id, trigger) => Modify(b, id, trigger).0
    case CancelOp(id) => Cancel(b, id).0
    case SyncOp(id) => SyncQty(b, id)
  }

  function Run(m: Market, b: Book, ops: seq<Op>): Book {
    if ops == [] then b else Apply1(m, Run(m, b, ops[..|ops| - 1]), ops[|ops| - 1])
  }

  // ---------- the fill log ----------

  /** Signed quantity of the fills in s. */
  function Net(fills: seq<Fill>, s: Symbol): real {
    if fills == [] then 0.0
    else
      var f := fills[|fills| - 1];
      Net(fills[..|fills| - 1], s) + (if f.symbol == s then Signed(f.action, f.qty) else 0.0)
  }

  /** Cash the fills brought in: minus signed notional, minus costs. */
  function CashFlow(fills: seq<Fill>): real {
    if fills == [] then 0.0
    else
      var f := fills[|fills| - 1];
      CashFlow(fills[..|fills| - 1]) - Signed(f.action, f.qty) * f.price - f.cost
  }

  function CostSum(fills: seq<Fill>): real {
    if fills == [] then 0.0 else CostSum(fills[..|fills| - 1]) + fills[|fills| - 1].cost
  }

  ghost predicate Listed(b: Book) {
    && (forall s :: s in b.listed <==> s in b.positions)
    && (forall i, j :: 0 <= i < j < |b.listed| ==> b.listed[i] != b.listed[j])
  }

  ghost predicate Balanced(b: Book, start: real) {
    && b.cash == start + CashFlow(b.fills)
    && b.costs == CostSum(b.fills)
    && (forall s :: Held(b, s) == Net(b.fills, s))
    && Listed(b)
  }

  ghost predicate Increasing(open: seq<Order>) {
    forall i, j :: 0 <= i < j < |open| ==> open[i].id < open[j].id
  }

  ghost predicate FilledOnce(fills: seq<Fill>) {
    forall i, j :: 0 <= i < j < |fills| ==> fills[i].id != fills[j].id
  }

  ghost predicate Unused(b: Book, id: nat) {
    (forall o :: o in b.open ==> o.id != id) && (forall f :: f in b.fills ==> f.id != id)
  }

  /** Resting ids increase, every used id is below the counter, no id is in the
      fill log twice, and none is both resting and filled. */
  ghost predicate Orderly(b: Book) {
    && Increasing(b.open)
    && (forall o :: o in b.open ==> o.id < b.nextId)
    && FilledOnce(b.fills)
    && (forall f :: f in b.fills ==> f.id < b.nextId)
    && (forall o, f :: o in b.open && f in b.fills ==> o.id != f.id)
  }

  ghost predicate Sound(b: Book, start: real) {
    Orderly(b) && Balanced(b, start)
  }

  lemma {:induction false} ApplyBalances(b: Book, f: Fill, start: real)
    requires Balanced(b, start)
    ensures Balanced(Apply(b, f), start)
  {
    var b1 := Apply(b, f);
    assert b1.fills[..|b1.fills| - 1] == b.fills;
    assert Signed(f.action, f.qty) * f.price == if f.action.Buy? then f.qty * f.price else -(f.qty * f.price);
    forall s
      ensures Held(b1, s) == Net(b1.fills, s)
    {
      assert Held(b, s) == Net(b.fills, s);
    }
  }

  lemma {:induction false} WithoutKeepsOrder(open: seq<Order>, id: nat)
    requires Increasing(open)
    ensures Increasing(Without(open, id))
  {
    if open != [] {
      var init := open[..|open| - 1];
      WithoutKeepsOrder(init, id);
      var rest := Without(init, id);
      forall i | 0 <= i < |rest|
        ensures rest[i].id < open[|open| - 1].id
      {
        assert rest[i] in init;
      }
    }
  }

  /** Firing a resting stop. */
  lemma {:induction false} FireKeeps(m: Market, b: Book, o: Order, price: real, start: real)
    requires Sound(b, start) && o in b.open
    ensures Sound(Fire(m, b, o, price), start)
  {
    var b1 := b.(open := Without(b.open, o.id));
    var f := FillOf(m, o.id, o.symbol, o.action, o.qty, StopRef(o, price));
    assert Orderly(b1) by {
      WithoutKeepsOrder(b.open, o.id);
    }
    SameMoney(b, b1, start);
    ApplyBalances(b1, f, start);
    ApplyOrders(b1, f);
  }

  lemma {:induction false} ApplyOrders(b: Book, f: Fill)
    requires Orderly(b) && f.id < b.nextId && Unused(b, f.id)
    ensures Orderly(Apply(b, f))
  {
  }

  lemma {:induction false} SameMoney(b: Book, b1: Book, start: real)
    requires Balanced(b, start)
    requires b1.cash == b.cash && b1.costs == b.costs && b1.fills == b.fills
    requires b1.positions == b.positions && b1.listed == b.listed
    ensures Balanced(b1, start)
  {
    forall s
      ensures Held(b1, s) == Net(b1.fills, s)
    {
      assert Held(b, s) == Net(b.fills, s);
    }
  }

  lemma {:induction false} TickKeeps(m: Market, b: Book, snapshot: seq<Order>, k: nat, s: Symbol, price: real,
                                     start: real)
    requires Sound(b, start) && k <= |snapshot| && snapshot == b.open
    ensures var b1 := TickAll(m, b, snapshot[..k], s, price);
            && Sound(b1, start) && b1.nextId == b.nextId
            && (forall j :: k <= j < |snapshot| ==> snapshot[j] in b1.open)
  {
    if k > 0 {
      TickKeeps(m, b, snapshot, k - 1, s, price, start);
      assert snapshot[..k][..k - 1] == snapshot[..k - 1];
      var b1 := TickAll(m, b, snapshot[..k - 1], s, price);
      var o := snapshot[k - 1];
      if o.symbol == s && Hit(o, price) {
        FireKeeps(m, b1, o, price, start);
      }
    }
  }

  ghost predicate Resting(open: seq<Order>, id: nat) {
    exists o :: o in open && o.id == id
  }

  /** Rewriting or dropping resting orders, with no fill. */
  lemma {:induction false} EditKeeps(b: Book, open: seq<Order>, start: real)
    requires Sound(b, start) && Increasing(open)
    requires forall o :: o in open ==> Resting(b.open, o.id)
    ensures Sound(b.(open := open), start)
  {
    SameMoney(b, b.(open := open), start);
  }

  lemma {:induction false} PutKeepsOrder(open: seq<Order>, o: Order)
    requires Increasing(open)
    ensures Increasing(Put(open, o))
    ensures forall x :: x in Put(open, o) ==> Resting(open, x.id)
  {
    var r := Put(open, o);
    forall x | x in r
      ensures Resting(open, x.id)
    {
      var i :| 0 <= i < |r| && r[i] == x;
      assert open[i] in open && open[i].id == x.id;
    }
  }

  lemma {:induction false} IssueId(b: Book, start: real) returns (b1: Book)
    requires Sound(b, start)
    ensures b1 == b.(nextId := b.nextId + 1) && Sound(b1, start) && Unused(b1, b.nextId)
  {
    b1 := b.(nextId := b.nextId + 1);
    SameMoney(b, b1, start);
  }

  lemma {:induction false} RestKeeps(b: Book, o: Order, start: real)
    requires Sound(b, start) && Unused(b, o.id) && o.id + 1 == b.nextId
    ensures Sound(b.(open := b.open + [o]), start)
  {
    SameMoney(b, b.(open := b.open + [o]), start);
    forall x | x in b.open
      ensures x.id < o.id
    {
      assert x.id != o.id;
    }
  }

  /** A market fill under a freshly issued id. */
  lemma {:induction false} FillKeeps(b: Book, f: Fill, start: real)
    requires Sound(b, start) && f.id == b.nextId
    ensures Sound(Apply(b.(nextId := b.nextId + 1), f), start)
  {
    var b1 := IssueId(b, start);
    ApplyBalances(b1, f, start);
    ApplyOrders(b1, f);
  }

  lemma {:induction false} RestFreshKeeps(b: Book, o: Order, start: real)
    requires Sound(b, start) && o.id == b.nextId
    ensures Sound(b.(nextId := b.nextId + 1, open := b.open + [o]), start)
  {
    var b1 := IssueId(b, start);
    RestKeeps(b1, o, start);
    assert b1.(open := b1.open + [o]) == b.(nextId := b.nextId + 1, open := b.open + [o]);
  }

  lemma {:induction false} PlaceStopKeeps(m: Market, b: Book, p: Payload, start: real)
    requires Sound(b, start) && p.qty > 0.0 && p.kind.StopMarket?
    ensures Sound(Place(m, b, p).0, start)
  {
    RestFreshKeeps(b, Order(b.nextId, p.symbol, p.action, p.qty, p.kind.trigger), start);
  }

  /** A market order uses up an id and fills in full or not at all. */
  lemma {:induction false} MarketOutcome(m: Market, b: Book, p: Payload)
    requires p.qty > 0.0 && p.kind.AtMarket? && p.symbol in b.last
    ensures var b1 := b.(nextId := b.nextId + 1);
            var f := FillOf(m, b.nextId, p.symbol, p.action, p.qty, b.last[p.symbol]);
            Place(m, b, p).0 == b1 || Place(m, b, p).0 == Apply(b1, f)
  {
  }

  lemma {:induction false} PlaceMarketKeeps(m: Market, b: Book, p: Payload, b1: Book, start: real)
    requires Sound(b, start) && p.qty > 0.0 && p.kind.AtMarket? && p.symbol in b.last
    requires b1 == Place(m, b, p).0
    ensures Sound(b1, start)
  {
    MarketOutcome(m, b, p);
    var _ := IssueId(b, start);
    FillKeeps(b, FillOf(m, b.nextId, p.symbol, p.action, p.qty, b.last[p.symbol]), start);
  }

  lemma {:induction false} PlaceKeeps(m: Market, b: Book, p: Payload, start: real)
    requires Sound(b, start)
    ensures Sound(Place(m, b, p).0, start)
  {
    if p.qty > 0.0 {
      if p.kind.StopMarket? {
        PlaceStopKeeps(m, b, p, start);
      } else if p.symbol in b.last {
        PlaceMarketKeeps(m, b, p, Place(m, b, p).0, start);
      }
    }
  }

  lemma {:induction false} TickOpKeeps(m: Market, b: Book, s: Symbol, price: real, start: real)
    requires Sound(b, start)
    ensures Sound(Tick(m, b, s, price), start)
  {
    var b1 := b.(last := b.last[s := price]);
    SameMoney(b, b1, start);
    assert b.open[..|b.open|] == b.open;
    TickKeeps(m, b1, b.open, |b.open|, s, price, start);
  }

  lemma {:induction false} ModifyKeeps(b: Book, id: nat, trigger: real, start: real)
    requires Sound(b, start)
    ensures Sound(Modify(b, id, trigger).0, start)
  {
    var found := Find(b.open, id);
    if found.Some? {
      var o := found.value.(trigger := trigger);
      PutKeepsOrder(b.open, o);
      EditKeeps(b, Put(b.open, o), start);
    }
  }

  lemma {:induction false} SyncKeeps(b: Book, id: nat, start: real)
    requires Sound(b, start)
    ensures Sound(SyncQty(b, id), start)
  {
    var found := Find(b.open, id);
    if found.Some? {
      var o := found.value.(qty := Min(found.value.qty, Abs(Held(b, found.value.symbol))));
      PutKeepsOrder(b.open, o);
      EditKeeps(b, Put(b.open, o), start);
    }
  }

  lemma {:induction false} OpKeeps(m: Market, b: Book, op: Op, start: real)
    requires Sound(b, start)
    ensures Sound(Apply1(m, b, op), start)
  {
    match op
    case TickOp(s, price) =>
      TickOpKeeps(m, b, s, price, start);
    case PlaceOp(p) =>
      PlaceKeeps(m, b, p, start);
    case ModifyOp(id, trigger) =>
      ModifyKeeps(b, id, trigger, start);
    case CancelOp(id) =>
      WithoutKeepsOrder(b.open, id);
      EditKeeps(b, Without(b.open, id), start);
    case SyncOp(id) =>
      SyncKeeps(b, id, start);
  }

  /** In every reachable state cash, holdings and costs are the fold of the fill
      log, and no order id was filled twice or rests after its fill. */
  lemma {:induction false} LedgerIsFoldOfFills(m: Market, start: real, ops: seq<Op>)
    ensures Sound(Run(m, NewBook(start), ops), start)
  {
    if ops == [] {
      assert forall s :: Held(NewBook(start), s) == Net([], s);
    } else {
      LedgerIsFoldOfFills(m, start, ops[..|ops| - 1]);
      OpKeeps(m, Run(m, NewBook(start), ops[..|ops| - 1]), ops[|ops| - 1], start);
    }
  }

  // ---------- an id lives once ----------

  /** The id has been handed out and is not resting: fired, filled or cancelled. */
  ghost predicate Dead(b: Book, id: nat) {
    id < b.nextId && forall o :: o in b.open ==> o.id != id
  }

  ghost predicate NoNewFill(b: Book, b1: Book, id: nat) {
    b.fills <= b1.fills && forall k :: |b.fills| <= k < |b1.fills| ==> b1.fills[k].id != id
  }

  lemma {:induction false} TickNeverRevives(m: Market, b: Book, snapshot: seq<Order>, s: Symbol, price: real, id: nat)
    requires Dead(b, id) && forall o :: o in snapshot ==> o.id != id
    ensures Dead(TickAll(m, b, snapshot, s, price), id)
    ensures NoNewFill(b, TickAll(m, b, snapshot, s, price), id)
  {
    if snapshot != [] {
      TickNeverRevives(m, b, snapshot[..|snapshot| - 1], s, price, id);
    }
  }

  lemma {:induction false} OpNeverRevives(m: Market, b: Book, op: Op, id: nat)
    requires Dead(b, id)
    ensures Dead(Apply1(m, b, op), id) && NoNewFill(b, Apply1(m, b, op), id)
  {
    match op
    case TickOp(s, price) =>
      TickNeverRevives(m, b.(last := b.last[s := price]), b.open, s, price, id);
    case PlaceOp(_) =>
    case ModifyOp(i, trigger) =>
      if Find(b.open, i).Some? {
        PutKeepsIds(b.open, Find(b.open, i).value.(trigger := trigger), id);
      }
    case CancelOp(_) =>
    case SyncOp(i) =>
      if Find(b.open, i).Some? {
        var o := Find(b.open, i).value;
        PutKeepsIds(b.open, o.(qty := Min(o.qty, Abs(Held(b, o.symbol)))), id);
      }
  }

  lemma {:induction false} PutKeepsIds(open: seq<Order>, o: Order, id: nat)
    requires forall x :: x in open ==> x.id != id
    ensures forall x :: x in Put(open, o) ==> x.id != id
  {
    var r := Put(open, o);
    forall x | x in r
      ensures x.id != id
    {
      var i :| 0 <= i < |r| && r[i] == x;
      assert open[i] in open;
    }
  }

  /** A fired, filled or cancelled id never fires again, whatever the broker is
      asked to do afterwards; and the fill log is only ever appended to. */
  lemma {:induction false} DeadIdNeverFiresAgain(m: Market, b: Book, ops: seq<Op>, id: nat)
    requires Dead(b, id)
    ensures Dead(Run(m, b, ops), id) && NoNewFill(b, Run(m, b, ops), id)
  {
    if ops != [] {
      DeadIdNeverFiresAgain(m, b, ops[..|ops| - 1], id);
      OpNeverRevives(m, Run(m, b, ops[..|ops| - 1]), ops[|ops| - 1], id);
    }
  }

  // ---------- what one tick does ----------

  predicate Crossed(o: Order, s: Symbol, price: real) {
    o.symbol == s && Hit(o, price)
  }

  function Uncrossed(open: seq<Order>, s: Symbol, price: real): seq<Order> {
    if open == [] then []
    else
      var o := open[|open| - 1];
      Uncrossed(open[..|open| - 1], s, price) + (if Crossed(o, s, price) then [] else [o])
  }

  /** The fills of the crossed stops, oldest order first. */
  function StopFills(m: Market, open: seq<Order>, s: Symbol, price: real): seq<Fill> {
    if open == [] then []
    else
      var o := open[|open| - 1];
      StopFills(m, open[..|open| - 1], s, price)
      + (if Crossed(o, s, price) then [FillOf(m, o.id, s, o.action, o.qty, price)] else [])
  }

  lemma {:induction false} UncrossedFrom(open: seq<Order>, s: Symbol, price: real)
    ensures forall o :: o in Uncrossed(open, s, price) ==> o in open
  {
    if open != [] {
      UncrossedFrom(open[..|open| - 1], s, price);
    }
  }

  lemma {:induction false} WithoutConcat(xs: seq<Order>, ys: seq<Order>, id: nat)
    ensures Without(xs + ys, id) == Without(xs, id) + Without(ys, id)
  {
    if ys == [] {
      assert xs + ys == xs;
    } else {
      var init := ys[..|ys| - 1];
      assert (xs + ys)[..|xs + ys| - 1] == xs + init;
      WithoutConcat(xs, init, id);
    }
  }

  lemma {:induction false} WithoutMiddle(pre: seq<Order>, o: Order, post: seq<Order>)
    requires forall x :: x in pre || x in post ==> x.id != o.id
    ensures Without(pre + [o] + post, o.id) == pre + post
  {
    WithoutConcat(pre + [o], post, o.id);
    WithoutConcat(pre, [o], o.id);
    WithoutAbsent(pre, o.id);
    WithoutAbsent(post, o.id);
    assert [o][..0] == [];
  }

  lemma {:induction false} WithoutAbsent(open: seq<Order>, id: nat)
    requires forall x :: x in open ==> x.id != id
    ensures Without(open, id) == open
  {
    if open != [] {
      WithoutAbsent(open[..|open| - 1], id);
      assert open[|open| - 1] in open;
    }
  }

  /** The scan reaches o, with the kept orders before it and the unseen ones after. */
  lemma {:induction false} TickMiddle(m: Market, b: Book, kept: seq<Order>, o: Order, rest: seq<Order>, s: Symbol,
                                      price: real)
    requires b.open == kept + [o] + rest && forall x :: x in kept || x in rest ==> x.id != o.id
    ensures var b1 := TickOne(m, b, o, s, price);
            if Crossed(o, s, price) then
              b1.open == kept + rest && b1.fills == b.fills + [FillOf(m, o.id, s, o.action, o.qty, price)]
            else b1 == b
  {
    if Crossed(o, s, price) {
      WithoutMiddle(kept, o, rest);
      assert StopRef(o, price) == price;
    }
  }

  lemma {:induction false} ScanNext(m: Market, b: Book, pre: seq<Order>, o: Order, s: Symbol, price: real)
    ensures TickAll(m, b, pre + [o], s, price) == TickOne(m, TickAll(m, b, pre, s, price), o, s, price)
    ensures Uncrossed(pre + [o], s, price) == Uncrossed(pre, s, price) + (if Crossed(o, s, price) then [] else [o])
    ensures StopFills(m, pre + [o], s, price)
         == StopFills(m, pre, s, price)
            + (if Crossed(o, s, price) then [FillOf(m, o.id, s, o.action, o.qty, price)] else [])
  {
    assert (pre + [o])[..|pre|] == pre;
  }

  lemma {:induction false} OthersDiffer(open: seq<Order>, k: nat)
    requires Increasing(open) && k < |open|
    ensures forall x :: x in open[..k] || x in open[k + 1..] ==> x.id != open[k].id
  {
  }

  /** After the scan of `seen`, with `rest` still to come. */
  predicate Scanned(m: Market, b: Book, seen: seq<Order>, rest: seq<Order>, s: Symbol, price: real) {
    var b1 := TickAll(m, b, seen, s, price);
    b1.open == Uncrossed(seen, s, price) + rest && b1.fills == b.fills + StopFills(m, seen, s, price)
  }

  lemma {:induction false} ScannedNext(m: Market, b: Book, seen: seq<Order>, o: Order, rest: seq<Order>, s: Symbol,
                                       price: real)
    requires Scanned(m, b, seen, [o] + rest, s, price)
    requires forall x :: x in seen || x in rest ==> x.id != o.id
    ensures Scanned(m, b, seen + [o], rest, s, price)
  {
    ScanNext(m, b, seen, o, s, price);
    UncrossedFrom(seen, s, price);
    var b1, kept, fired := TickAll(m, b, seen, s, price), Uncrossed(seen, s, price), StopFills(m, seen, s, price);
    assert b1.open == kept + [o] + rest;
    TickMiddle(m, b1, kept, o, rest, s, price);
    if Crossed(o, s, price) {
      var f := FillOf(m, o.id, s, o.action, o.qty, price);
      assert b.fills + fired + [f] == b.fills + (fired + [f]);
      assert kept + [] == kept;
    } else {
      assert fired + [] == fired;
    }
  }

  lemma {:induction false} TickPrefix(m: Market, b: Book, k: nat, s: Symbol, price: real)
    requires Increasing(b.open) && k <= |b.open|
    ensures Scanned(m, b, b.open[..k], b.open[k..], s, price)
  {
    if k > 0 {
      TickPrefix(m, b, k - 1, s, price);
      var o, rest := b.open[k - 1], b.open[k..];
      assert b.open[..k] == b.open[..k - 1] + [o] && b.open[k - 1..] == [o] + rest;
      OthersDiffer(b.open, k - 1);
      ScannedNext(m, b, b.open[..k - 1], o, rest, s, price);
    }
  }

  /** A tick fires exactly the resting stops it crosses, oldest first, each for
      its full quantity at the (possibly gapped) tick price, and leaves every
      other order alone. */
  lemma {:induction false} TickFiresExactlyTheCrossedStops(m: Market, b: Book, s: Symbol, price: real)
    requires Increasing(b.open)
    ensures Tick(m, b, s, price).open == Uncrossed(b.open, s, price)
    ensures Tick(m, b, s, price).fills == b.fills + StopFills(m, b.open, s, price)
  {
    assert b.open[..|b.open|] == b.open && b.open[|b.open|..] == [];
    TickPrefix(m, b.(last := b.last[s := price]), |b.open|, s, price);
  }

  /** With non-negative impact a fired stop is never filled better than its trigger. */
  lemma {:induction false} StopNeverBeatsTrigger(m: Market, o: Order, s: Symbol, price: real)
    requires price > 0.0 && m.slip(s, o.qty) >= 0.0 && Crossed(o, s, price)
    ensures var f := FillOf(m, o.id, s, o.action, o.qty, StopRef(o, price));
            if o.action.Sell? then f.price <= price <= o.trigger else f.price >= price >= o.trigger
  {
    var slip := m.slip(s, o.qty);
    Distribute(1.0, slip, price);
    assert price * (1.0 + slip) == price + slip * price;
    assert price * (1.0 - slip) == price - slip * price;
    assert slip * price >= 0.0;
  }

  // ---------- equity ----------

  /** Signed holdings at last price. */
  function MarkedValue(b: Book, n: nat): real
    requires n <= |b.listed|
  {
    if n == 0 then 0.0
    else
      var s := b.listed[n - 1];
      MarkedValue(b, n - 1) + Held(b, s) * (if s in b.last then b.last[s] else 0.0)
  }

  /** The basis recorded on short holdings. */
  function ShortBasis(b: Book, n: nat): real
    requires n <= |b.listed|
  {
    if n == 0 then 0.0
    else
      var h := HoldingOf(b, b.listed[n - 1]);
      ShortBasis(b, n - 1) + (if h.qty < 0.0 then -h.qty * h.avg else 0.0)
  }

  ghost predicate Marked(b: Book) {
    forall s :: s in b.positions ==> s in b.last
  }

  lemma {:induction false} EquityPrefix(b: Book, n: nat)
    requires Listed(b) && Marked(b) && n <= |b.listed|
    ensures Unrealized(b, n) + LongBasis(b, n) == MarkedValue(b, n) + ShortBasis(b, n)
  {
    if n > 0 {
      EquityPrefix(b, n - 1);
      var s := b.listed[n - 1];
      var h := HoldingOf(b, s);
      assert s in b.listed && s in b.positions;
      assert h.qty * (b.last[s] - h.avg) == h.qty * b.last[s] - h.qty * h.avg;
    }
  }

  /** `equity()` overstates cash plus marked holdings by the basis it carries on
      short positions, no more and no less. */
  lemma {:induction false} EquityGap(b: Book)
    requires Listed(b) && Marked(b)
    ensures Equity(b) == b.cash + MarkedValue(b, |b.listed|) + ShortBasis(b, |b.listed|)
  {
    EquityPrefix(b, |b.listed|);
  }

  /** The holding in s is a short that was opened by a fill out of a long. */
  predicate FlippedShort(fills: seq<Fill>, s: Symbol) {
    if fills == [] then false
    else
      var pre := fills[..|fills| - 1];
      if fills[|fills| - 1].symbol != s then FlippedShort(pre, s)
      else if Net(fills, s) >= 0.0 then false
      else Net(pre, s) > 0.0 || (Net(pre, s) < 0.0 && FlippedShort(pre, s))
  }

  /** Impact stayed below 100 percent on every fill. */
  predicate PositiveFills(fills: seq<Fill>) {
    forall f :: f in fills ==> f.price > 0.0
  }

  lemma {:induction false} PositiveFillsNext(fills: seq<Fill>, f: Fill)
    ensures PositiveFills(fills + [f]) <==> PositiveFills(fills) && f.price > 0.0
  {
    assert f in fills + [f];
    assert forall g :: g in fills ==> g in fills + [f];
  }

  ghost predicate Priced(b: Book) {
    && Marked(b)
    && (forall s :: s in b.last ==> b.last[s] > 0.0)
    && (forall o :: o in b.open ==> o.qty > 0.0)
  }

  /** A flat holding has no basis, nor has a short one unless it came out of a
      long; then the basis is a fill price. */
  ghost predicate BasisRule(b: Book, s: Symbol) {
    var h := HoldingOf(b, s);
    && (h.qty == 0.0 ==> h.avg == 0.0)
    && (h.qty < 0.0 && !FlippedShort(b.fills, s) ==> h.avg == 0.0)
    && (h.qty < 0.0 && FlippedShort(b.fills, s) && PositiveFills(b.fills) ==> h.avg > 0.0)
  }

  ghost predicate Based(b: Book) {
    forall s :: BasisRule(b, s)
  }

  lemma {:induction false} ApplyBased(b: Book, f: Fill, start: real)
    requires Balanced(b, start) && Based(b) && f.qty > 0.0
    ensures Based(Apply(b, f))
  {
    var b1 := Apply(b, f);
    assert b1.fills[..|b1.fills| - 1] == b.fills;
    ApplyBalances(b, f, start);
    PositiveFillsNext(b.fills, f);
    forall s
      ensures BasisRule(b1, s)
    {
      assert BasisRule(b, s);
      assert Held(b, s) == Net(b.fills, s) && Held(b1, s) == Net(b1.fills, s);
    }
  }

  /** A fill has a positive price exactly when a sale's impact stays below 100
      percent (a purchase's above -100 percent). */
  lemma {:induction false} FillPricePositiveIff(m: Market, s: Symbol, side: Side, qty: real, ref: real)
    requires ref > 0.0
    ensures FillPrice(m, s, side, qty, ref) > 0.0
            <==> if side.Buy? then m.slip(s, qty) > -1.0 else m.slip(s, qty) < 1.0
  {
    var slip := m.slip(s, qty);
    ScaledPositiveIff(1.0 + slip, ref);
    ScaledPositiveIff(1.0 - slip, ref);
    assert FillPrice(m, s, side, qty, ref) == if side.Buy? then ref * (1.0 + slip) else ref * (1.0 - slip);
  }

  lemma {:induction false} ScaledPositiveIff(factor: real, ref: real)
    requires ref > 0.0
    ensures ref * factor > 0.0 <==> factor > 0.0
  {
    if factor > 0.0 {
      assert ref * factor > 0.0;
    } else {
      MulMono(factor, 0.0, ref);
    }
  }

  lemma {:induction false} SameBasis(b: Book, b1: Book)
    requires Based(b) && b1.positions == b.positions && b1.fills == b.fills
    ensures Based(b1)
  {
    forall s
      ensures BasisRule(b1, s)
    {
      assert BasisRule(b, s);
    }
  }

  ghost predicate Exact(b: Book, start: real) {
    Sound(b, start) && Priced(b) && Based(b)
  }

  lemma {:induction false} FireExact(m: Market, b: Book, o: Order, price: real, start: real)
    requires Exact(b, start) && o in b.open && o.symbol in b.last && price > 0.0 && Hit(o, price)
    ensures var b1 := Fire(m, b, o, price); Priced(b1) && Based(b1) && b1.last == b.last
  {
    var b1 := b.(open := Without(b.open, o.id));
    SameBasis(b, b1);
    SameMoney(b, b1, start);
    ApplyBased(b1, FillOf(m, o.id, o.symbol, o.action, o.qty, StopRef(o, price)), start);
  }

  lemma {:induction false} TickExact(m: Market, b: Book, snapshot: seq<Order>, k: nat, s: Symbol, price: real,
                                     start: real)
    requires Exact(b, start) && k <= |snapshot| && snapshot == b.open
    requires price > 0.0 && s in b.last
    ensures var b1 := TickAll(m, b, snapshot[..k], s, price);
            Priced(b1) && Based(b1) && b1.last == b.last
  {
    if k > 0 {
      TickExact(m, b, snapshot, k - 1, s, price, start);
      TickKeeps(m, b, snapshot, k - 1, s, price, start);
      assert snapshot[..k][..k - 1] == snapshot[..k - 1];
      var b1 := TickAll(m, b, snapshot[..k - 1], s, price);
      var o := snapshot[k - 1];
      if o.symbol == s && Hit(o, price) {
        FireExact(m, b1, o, price, start);
      }
    }
  }

  lemma {:induction false} IssueExact(b: Book, b1: Book, start: real)
    requires Exact(b, start) && b1 == b.(nextId := b.nextId + 1)
    ensures Balanced(b1, start) && Priced(b1) && Based(b1)
  {
    SameBasis(b, b1);
    SameMoney(b, b1, start);
  }

  lemma {:induction false} FillExact(m: Market, b: Book, s: Symbol, side: Side, qty: real, start: real)
    requires Exact(b, start) && s in b.last && qty > 0.0
    ensures var b1 := Apply(b.(nextId := b.nextId + 1), FillOf(m, b.nextId, s, side, qty, b.last[s]));
            Priced(b1) && Based(b1)
  {
    var b1 := b.(nextId := b.nextId + 1);
    IssueExact(b, b1, start);
    ApplyBased(b1, FillOf(m, b.nextId, s, side, qty, b.last[s]), start);
  }

  lemma {:induction false} RestExact(b: Book, o: Order, start: real)
    requires Exact(b, start) && o.qty > 0.0
    ensures var b1 := b.(nextId := b.nextId + 1, open := b.open + [o]); Priced(b1) && Based(b1)
  {
    SameBasis(b, b.(nextId := b.nextId + 1, open := b.open + [o]));
  }

  lemma {:induction false} PlaceExact(m: Market, b: Book, p: Payload, start: real)
    requires Exact(b, start)
    ensures Priced(Place(m, b, p).0) && Based(Place(m, b, p).0)
  {
    if p.qty > 0.0 {
      match p.kind
      case StopMarket(trigger) =>
        RestExact(b, Order(b.nextId, p.symbol, p.action, p.qty, trigger), start);
      case AtMarket =>
        IssueExact(b, b.(nextId := b.nextId + 1), start);
        if p.symbol in b.last {
          FillExact(m, b, p.symbol, p.action, p.qty, start);
        }
    }
  }

  lemma {:induction false} PutPriced(b: Book, o: Order)
    requires Priced(b) && Based(b) && o.qty > 0.0
    ensures Priced(b.(open := Put(b.open, o))) && Based(b.(open := Put(b.open, o)))
  {
    var b1 := b.(open := Put(b.open, o));
    SameBasis(b, b1);
    forall x | x in b1.open
      ensures x.qty > 0.0
    {
      var i :| 0 <= i < |b1.open| && b1.open[i] == x;
      assert b.open[i] in b.open;
    }
  }

  lemma {:induction false} OpExact(m: Market, b: Book, op: Op, start: real)
    requires Exact(b, start)
    ensures Priced(Apply1(m, b, op)) && Based(Apply1(m, b, op))
  {
    match op
    case TickOp(s, price) =>
      if price > 0.0 {
        var b1 := b.(last := b.last[s := price]);
        SameBasis(b, b1);
        SameMoney(b, b1, start);
        TickExact(m, b1, b.open, |b.open|, s, price, start);
        assert b.open[..|b.open|] == b.open;
      }
    case PlaceOp(p) =>
      PlaceExact(m, b, p, start);
    case ModifyOp(id, trigger) =>
      if Find(b.open, id).Some? {
        PutPriced(b, Find(b.open, id).value.(trigger := trigger));
      }
    case CancelOp(id) =>
      SameBasis(b, Cancel(b, id).0);
    case SyncOp(id) =>
      if Find(b.open, id).Some? {
        var o := Find(b.open, id).value;
        var held := Abs(Held(b, o.symbol));
        if held > 0.0 {
          PutPriced(b, o.(qty := Min(o.qty, held)));
        }
      }
  }

  lemma {:induction false} RunExact(m: Market, start: real, ops: seq<Op>)
    ensures Exact(Run(m, NewBook(start), ops), start)
  {
    LedgerIsFoldOfFills(m, start, ops);
    if ops != [] {
      RunExact(m, start, ops[..|ops| - 1]);
      OpExact(m, Run(m, NewBook(start), ops[..|ops| - 1]), ops[|ops| - 1], start);
    }
  }

  lemma {:induction false} NoShortBasis(b: Book, n: nat)
    requires Based(b) && n <= |b.listed| && forall s :: !FlippedShort(b.fills, s)
    ensures ShortBasis(b, n) == 0.0
  {
    if n > 0 {
      NoShortBasis(b, n - 1);
      assert BasisRule(b, b.listed[n - 1]);
    }
  }

  lemma {:induction false} ShortBasisSign(b: Book, n: nat)
    requires Based(b) && n <= |b.listed| && PositiveFills(b.fills)
    ensures ShortBasis(b, n) >= 0.0
    ensures ShortBasis(b, n) == 0.0 <==> forall i :: 0 <= i < n && Held(b, b.listed[i]) < 0.0 ==>
                                                  !FlippedShort(b.fills, b.listed[i])
  {
    if n > 0 {
      ShortBasisSign(b, n - 1);
      var s := b.listed[n - 1];
      var h := HoldingOf(b, s);
      assert BasisRule(b, s);
      if h.qty < 0.0 && h.avg > 0.0 {
        MulMonoStrict(0.0, -h.qty, h.avg);
      }
    }
  }

  lemma {:induction false} FlippedIsShort(fills: seq<Fill>, s: Symbol)
    ensures FlippedShort(fills, s) ==> Net(fills, s) < 0.0
  {
    if fills != [] {
      FlippedIsShort(fills[..|fills| - 1], s);
    }
  }

  lemma {:induction false} FlippedIsListed(b: Book, start: real, s: Symbol)
    requires Balanced(b, start) && FlippedShort(b.fills, s)
    ensures Held(b, s) < 0.0 && exists i :: 0 <= i < |b.listed| && b.listed[i] == s
  {
    FlippedIsShort(b.fills, s);
    assert Held(b, s) == Net(b.fills, s);
    assert s in b.positions && s in b.listed;
  }

  /** On every run, whatever the impact and the costs, `equity()` is cash plus
      marked holdings when no open short was entered by a fill that carried a
      long through zero - and only then, as long as every fill had a positive
      price; otherwise it is larger. */
  lemma {:induction false} EquityExactIffNoFlippedShort(m: Market, start: real, ops: seq<Op>)
    ensures var b := Run(m, NewBook(start), ops);
            var worth := b.cash + MarkedValue(b, |b.listed|);
            && ((forall s :: !FlippedShort(b.fills, s)) ==> Equity(b) == worth)
            && (PositiveFills(b.fills) ==>
                  Equity(b) >= worth && (Equity(b) == worth <==> forall s :: !FlippedShort(b.fills, s)))
  {
    var b := Run(m, NewBook(start), ops);
    RunExact(m, start, ops);
    EquityGap(b);
    if forall s :: !FlippedShort(b.fills, s) {
      NoShortBasis(b, |b.listed|);
    }
    if PositiveFills(b.fills) {
      ShortBasisSign(b, |b.listed|);
      forall s | FlippedShort(b.fills, s)
        ensures exists i :: 0 <= i < |b.listed| && b.listed[i] == s && Held(b, s) < 0.0
      {
        FlippedIsListed(b, start, s);
      }
    }
  }

  /** A market without impact or costs. */
  function Frictionless(): Market {
    Market((_, _) => 0.0, (_, _, _, _) => 0.0)
  }

  /** Buy one, sell two at 100: a fill carries a long straight into a short. */
  function FlipRun(s: Symbol): seq<Op> {
    [TickOp(s, 100.0), PlaceOp(Payload(s, Buy, 1.0, AtMarket)), PlaceOp(Payload(s, Sell, 2.0, AtMarket))]
  }

  /** The book that run ends in. */
  function FlippedBook(s: Symbol): Book {
    Book(1100.0, map[s := 100.0], [s], map[s := Holding(-1.0, 100.0)], [],
         [Fill(1, s, Buy, 1.0, 100.0, 0.0), Fill(2, s, Sell, 2.0, 100.0, 0.0)], 0.0, 3)
  }

  lemma {:induction false} RunNext(m: Market, b: Book, ops: seq<Op>, op: Op)
    ensures Run(m, b, ops + [op]) == Apply1(m, Run(m, b, ops), op)
  {
    assert (ops + [op])[..|ops|] == ops;
  }

  lemma {:induction false} FlipRunEnds(s: Symbol)
    ensures Run(Frictionless(), NewBook(1000.0), FlipRun(s)) == FlippedBook(s)
  {
    var m, b0 := Frictionless(), NewBook(1000.0);
    var ops := FlipRun(s);
    assert [] + [ops[0]] == [ops[0]] && [ops[0]] + [ops[1]] == [ops[0], ops[1]];
    assert [ops[0], ops[1]] + [ops[2]] == ops;
    RunNext(m, b0, [], ops[0]);
    RunNext(m, b0, [ops[0]], ops[1]);
    RunNext(m, b0, [ops[0], ops[1]], ops[2]);
    var b1 := Book(1000.0, map[s := 100.0], [], map[], [], [], 0.0, 1);
    var b2 := Book(900.0, map[s := 100.0], [s], map[s := Holding(1.0, 100.0)], [],
                   [Fill(1, s, Buy, 1.0, 100.0, 0.0)], 0.0, 2);
    assert Apply1(m, b0, ops[0]) == b1;
    assert Apply1(m, b1, ops[1]) == b2;
    assert Apply1(m, b2, ops[2]) == FlippedBook(s);
  }

  /** On that run `equity()` reports 100 more than the account is worth. */
  lemma {:induction false} FlipOverstatesEquity(s: Symbol)
    ensures var b := Run(Frictionless(), NewBook(1000.0), FlipRun(s));
            && FlippedShort(b.fills, s)
            && Equity(b) == b.cash + MarkedValue(b, |b.listed|) + 100.0
  {
    FlipRunEnds(s);
    var b := FlippedBook(s);
    var first := [b.fills[0]];
    assert b.fills[..1] == first && first[..0] == [];
    assert Net(first, s) == 1.0 && Net(b.fills, s) == -1.0;
    assert ShortBasis(b, 0) == 0.0 && ShortBasis(b, 1) == 100.0;
    EquityGap(b);
  }
}
