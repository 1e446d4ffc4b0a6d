/** Exposure: once no order is in doubt, the router's net filled quantity per
    symbol is the signed sum of the fills the broker booked for its orders. */
module RouterExposure {
  import opened Basics
  import opened PaperBroker
  import opened StopAdapters
  import opened Dispatch
  import opened PlacementProtocol
  import L = Ledger
  import OSM = OrderStateMachine

  /** The broker order id belongs to one of the router's orders. */
  ghost predicate Routed(orders: map<string, Reply>, id: nat) {
    exists c :: c in orders && orders[c].Accepted? && orders[c].id == id
  }

  /** Signed sum of the fills of routed orders. */
  ghost function RoutedNet(fills: seq<Fill>, orders: map<string, Reply>, s: Symbol): real {
    if fills == [] then 0.0
    else
      var f := fills[|fills| - 1];
      RoutedNet(fills[..|fills| - 1], orders, s)
      + (if f.symbol == s && Routed(orders, f.id) then Signed(f.action, f.qty) else 0.0)
  }

  /** What the server's order table says was filled for an attempt. */
  function PlacedQty(orders: map<string, Reply>, a: Attempt, s: Symbol): real {
    var id := a.rec.clientOrderId;
    if a.rec.symbol == s && id in orders && orders[id].Accepted? then Signed(a.rec.direction, orders[id].filled)
    else 0.0
  }

  function PlacedNet(xs: seq<Attempt>, orders: map<string, Reply>, s: Symbol): real {
    if xs == [] then 0.0 else PlacedNet(xs[..|xs| - 1], orders, s) + PlacedQty(orders, xs[|xs| - 1], s)
  }

  function Records(xs: seq<Attempt>): seq<OSM.Record> {
    if xs == [] then [] else Records(xs[..|xs| - 1]) + [xs[|xs| - 1].rec]
  }

  ghost predicate Reconciled(w: World, start: real) {
    && Consistent(w) && L.Sound(w.link.book, start)
    && (forall c :: c in w.link.orders ==> L.Dead(w.link.book, w.link.orders[c].id))
    && (forall s :: RoutedNet(w.link.book.fills, w.link.orders, s) == PlacedNet(w.attempts, w.link.orders, s))
  }

  // ---------- the two sums move together ----------

  lemma {:induction false} SameRouting(fills: seq<Fill>, o: map<string, Reply>, o1: map<string, Reply>, s: Symbol)
    requires forall f :: f in fills ==> (Routed(o, f.id) <==> Routed(o1, f.id))
    ensures RoutedNet(fills, o, s) == RoutedNet(fills, o1, s)
  {
    if fills != [] {
      SameRouting(fills[..|fills| - 1], o, o1, s);
      assert fills[|fills| - 1] in fills;
    }
  }

  lemma {:induction false} UnroutedFills(fills: seq<Fill>, more: seq<Fill>, o: map<string, Reply>, s: Symbol)
    requires forall f :: f in more ==> !Routed(o, f.id)
    ensures RoutedNet(fills + more, o, s) == RoutedNet(fills, o, s)
  {
    if more == [] {
      assert fills + more == fills;
    } else {
      var init := more[..|more| - 1];
      UnroutedFills(fills, init, o, s);
      assert (fills + more)[..|fills + more| - 1] == fills + init;
      assert more[|more| - 1] in more;
    }
  }

  lemma {:induction false} PlacedNetSame(xs: seq<Attempt>, ys: seq<Attempt>, o: map<string, Reply>,
                                         o1: map<string, Reply>, s: Symbol)
    requires |xs| == |ys|
    requires forall i :: 0 <= i < |xs| ==> PlacedQty(o, xs[i], s) == PlacedQty(o1, ys[i], s)
    ensures PlacedNet(xs, o, s) == PlacedNet(ys, o1, s)
  {
    if xs != [] {
      PlacedNetSame(xs[..|xs| - 1], ys[..|ys| - 1], o, o1, s);
    }
  }

  lemma {:induction false} PlacedNetOneMore(xs: seq<Attempt>, ys: seq<Attempt>, o: map<string, Reply>,
                                            o1: map<string, Reply>, s: Symbol, i: nat)
    requires |xs| == |ys| && i < |xs|
    requires forall j :: 0 <= j < |xs| && j != i ==> PlacedQty(o, xs[j], s) == PlacedQty(o1, ys[j], s)
    ensures PlacedNet(ys, o1, s) == PlacedNet(xs, o, s) - PlacedQty(o, xs[i], s) + PlacedQty(o1, ys[i], s)
  {
    if i == |xs| - 1 {
      PlacedNetSame(xs[..|xs| - 1], ys[..|ys| - 1], o, o1, s);
    } else {
      PlacedNetOneMore(xs[..|xs| - 1], ys[..|ys| - 1], o, o1, s, i);
    }
  }

  /** What the orders still in doubt have placed: SENT or UNKNOWN here, filled there. */
  function InDoubt(xs: seq<Attempt>, orders: map<string, Reply>, s: Symbol): real {
    if xs == [] then 0.0
    else
      var a := xs[|xs| - 1];
      InDoubt(xs[..|xs| - 1], orders, s)
      + (if a.rec.state == OSM.Sent || a.rec.state == OSM.Unknown then PlacedQty(orders, a, s) else 0.0)
  }

  lemma {:induction false} NetOf(rs: seq<OSM.Record>, r: OSM.Record, s: Symbol)
    ensures OSM.Net(rs + [r], s) == OSM.Net(rs, s) + (if r.symbol == s && r.filledQty > 0.0
                                                      then Signed(r.direction, r.filledQty) else 0.0)
  {
    OSM.NetNext(rs, r);
  }

  /** What the records claim, plus what is in doubt, is what the table says. */
  lemma {:induction false} ExposureIsPlaced(xs: seq<Attempt>, o: map<string, Reply>, s: Symbol)
    requires forall a :: a in xs ==> AttemptOk(o, a)
    ensures OSM.Net(Records(xs), s) + InDoubt(xs, o, s) == PlacedNet(xs, o, s)
  {
    if xs != [] {
      var init, a := xs[..|xs| - 1], xs[|xs| - 1];
      assert forall x :: x in init ==> x in xs;
      ExposureIsPlaced(init, o, s);
      assert a in xs;
      NetOf(Records(init), a.rec, s);
    }
  }

  lemma {:induction false} NothingInDoubt(xs: seq<Attempt>, o: map<string, Reply>, s: Symbol)
    requires forall a :: a in xs ==> a.rec.state != OSM.Sent && a.rec.state != OSM.Unknown
    ensures InDoubt(xs, o, s) == 0.0
  {
    if xs != [] {
      assert forall x :: x in xs[..|xs| - 1] ==> x in xs;
      NothingInDoubt(xs[..|xs| - 1], o, s);
      assert xs[|xs| - 1] in xs;
    }
  }

  // ---------- steps ----------

  /** Orders already placed stay used up, so what the broker does next is not theirs. */
  lemma {:induction false} StillDead(m: Market, b: Book, op: L.Op, o: map<string, Reply>)
    requires forall c :: c in o ==> o[c].Accepted? && L.Dead(b, o[c].id)
    ensures var b1 := L.Apply1(m, b, op);
            && b.fills <= b1.fills
            && (forall c :: c in o ==> L.Dead(b1, o[c].id))
            && forall f :: f in b1.fills[|b.fills|..] ==> !Routed(o, f.id)
  {
    OnlyAppends(m, b, op);
    forall c | c in o
      ensures L.Dead(L.Apply1(m, b, op), o[c].id)
      ensures forall f :: f in L.Apply1(m, b, op).fills[|b.fills|..] ==> f.id != o[c].id
    {
      L.OpNeverRevives(m, b, op, o[c].id);
    }
  }

  /** Fills that are not the router's change neither sum. */
  lemma {:induction false} OtherFillsReconciled(w: World, b1: Book, start: real)
    requires Reconciled(w, start) && L.Sound(b1, start) && w.link.book.fills <= b1.fills
    requires forall c :: c in w.link.orders ==> L.Dead(b1, w.link.orders[c].id)
    requires forall f :: f in b1.fills[|w.link.book.fills|..] ==> !Routed(w.link.orders, f.id)
    ensures Reconciled(w.(link := w.link.(book := b1)), start)
  {
    var b, o := w.link.book, w.link.orders;
    var more := b1.fills[|b.fills|..];
    assert Recorded(w.link.(book := b1), w.attempts);
    forall s
      ensures RoutedNet(b1.fills, o, s) == PlacedNet(w.attempts, o, s)
    {
      assert b1.fills == b.fills + more;
      UnroutedFills(b.fills, more, o, s);
    }
  }

  lemma {:induction false} ActivityReconciled(m: Market, w: World, op: L.Op, start: real)
    requires Reconciled(w, start)
    ensures Reconciled(Step(m, w, BrokerActivity(op)), start)
  {
    L.OpKeeps(m, w.link.book, op, start);
    StillDead(m, w.link.book, op, w.link.orders);
    OtherFillsReconciled(w, L.Apply1(m, w.link.book, op), start);
  }

  lemma {:induction false} TickOnlyAppends(m: Market, b: Book, snapshot: seq<Order>, s: Symbol, price: real)
    ensures b.fills <= TickAll(m, b, snapshot, s, price).fills
  {
    if snapshot != [] {
      TickOnlyAppends(m, b, snapshot[..|snapshot| - 1], s, price);
    }
  }

  lemma {:induction false} OnlyAppends(m: Market, b: Book, op: L.Op)
    ensures b.fills <= L.Apply1(m, b, op).fills
  {
    if op.TickOp? {
      TickOnlyAppends(m, b.(last := b.last[op.symbol := op.price]), b.open, op.symbol, op.price);
    }
  }

  /** What an accepted post appends to the fill log. */
  lemma {:induction false} SendFill(m: Market, link: Link, r: OSM.Record) returns (f: Fill)
    requires Send(m, link, r).1.Accepted?
    ensures var (l1, reply) := Send(m, link, r);
            && l1.book.fills == link.book.fills + [f] && l1.book.open == link.book.open
            && l1.book.nextId == link.book.nextId + 1
            && f.id == reply.id == link.book.nextId && f.symbol == r.symbol && f.action == r.direction
            && f.qty == reply.filled
            && l1.orders == link.orders[r.clientOrderId := reply]
  {
    f := FillOf(m, link.book.nextId, r.symbol, r.direction, r.requestedQty, link.book.last[r.symbol]);
  }

  lemma {:induction false} RoutedFill(fills: seq<Fill>, f: Fill, o: map<string, Reply>, c: string, reply: Reply,
                                      s: Symbol)
    requires c !in o && reply.Accepted? && reply.id == f.id
    requires forall g :: g in fills ==> g.id != f.id
    ensures RoutedNet(fills + [f], o[c := reply], s)
         == RoutedNet(fills, o, s) + (if f.symbol == s then Signed(f.action, f.qty) else 0.0)
  {
    var o1 := o[c := reply];
    assert (fills + [f])[..|fills|] == fills;
    assert Routed(o1, f.id) by {
      assert o1[c].id == f.id;
    }
    forall g | g in fills
      ensures Routed(o, g.id) <==> Routed(o1, g.id)
    {
      RoutingGrows(o, c, reply, g.id);
    }
    SameRouting(fills, o, o1, s);
  }

  /** A post that the broker accepts: one routed fill and one table entry. */
  lemma {:induction false} SendMoves(m: Market, link: Link, r: OSM.Record, start: real, s: Symbol)
    requires L.Sound(link.book, start) && r.clientOrderId !in link.orders
    requires forall c :: c in link.orders ==> link.orders[c].Accepted? && L.Dead(link.book, link.orders[c].id)
    ensures var l1 := Send(m, link, r).0;
            RoutedNet(l1.book.fills, l1.orders, s) == RoutedNet(link.book.fills, link.orders, s)
               + (if r.symbol == s && r.clientOrderId in l1.orders && l1.orders[r.clientOrderId].Accepted?
                  then Signed(r.direction, l1.orders[r.clientOrderId].filled) else 0.0)
  {
    var (l1, reply) := Send(m, link, r);
    if reply.Accepted? {
      var f := SendFill(m, link, r);
      RoutedFill(link.book.fills, f, link.orders, r.clientOrderId, reply, s);
    } else {
      SendEffect(m, link, r);
      assert l1.book.fills == link.book.fills;
    }
  }

  lemma {:induction false} SendKeepsDead(m: Market, link: Link, r: OSM.Record, start: real)
    requires L.Sound(link.book, start)
    requires forall c :: c in link.orders ==> link.orders[c].Accepted? && L.Dead(link.book, link.orders[c].id)
    ensures var l1 := Send(m, link, r).0;
            && L.Sound(l1.book, start)
            && forall c :: c in l1.orders ==> l1.orders[c].Accepted? && L.Dead(l1.book, l1.orders[c].id)
  {
    L.PlaceKeeps(m, link.book, Payload(r.symbol, r.direction, r.requestedQty, AtMarket), start);
    var (l1, reply) := Send(m, link, r);
    if reply.Accepted? {
      var f := SendFill(m, link, r);
    }
  }

  lemma {:induction false} RoutingGrows(o: map<string, Reply>, c: string, reply: Reply, id: nat)
    requires c !in o && reply.Accepted? && reply.id != id
    ensures Routed(o, id) <==> Routed(o[c := reply], id)
  {
    if Routed(o, id) {
      var d :| d in o && o[d].Accepted? && o[d].id == id;
      assert o[c := reply][d].id == id;
    }
  }

  lemma {:induction false} OtherAttemptsStay(xs: seq<Attempt>, ys: seq<Attempt>, o: map<string, Reply>,
                                             o1: map<string, Reply>, s: Symbol, i: nat)
    requires DistinctIds(xs) && |ys| == |xs| && i < |xs|
    requires forall j :: 0 <= j < |xs| && j != i ==> ys[j] == xs[j]
    requires OrdersGrow(o, o1, xs[i].rec.clientOrderId)
    ensures forall j :: 0 <= j < |xs| && j != i ==> PlacedQty(o, xs[j], s) == PlacedQty(o1, ys[j], s)
  {
    forall j | 0 <= j < |xs| && j != i
      ensures PlacedQty(o, xs[j], s) == PlacedQty(o1, ys[j], s)
    {
      assert xs[j].rec.clientOrderId != xs[i].rec.clientOrderId;
    }
  }

  /** A request that arrives moves both sums by the same amount. */
  lemma {:induction false} ArriveSums(m: Market, w: World, w1: World, i: nat, start: real, s: Symbol)
    requires Reconciled(w, start) && i < |w.attempts| && w.attempts[i].wire > 0
    requires AttemptOk(w.link.orders, w.attempts[i]) && w1 == Step(m, w, Arrive(i))
    ensures RoutedNet(w1.link.book.fills, w1.link.orders, s) == PlacedNet(w1.attempts, w1.link.orders, s)
  {
    var a := w.attempts[i];
    SendEffect(m, w.link, a.rec);
    OtherAttemptsStay(w.attempts, w1.attempts, w.link.orders, w1.link.orders, s, i);
    PlacedNetOneMore(w.attempts, w1.attempts, w.link.orders, w1.link.orders, s, i);
    SendMoves(m, w.link, a.rec, start, s);
  }

  lemma {:induction false} ArriveReconciled(m: Market, w: World, w1: World, i: nat, start: real)
    requires Reconciled(w, start) && i < |w.attempts| && w.attempts[i].wire > 0
    requires AttemptOk(w.link.orders, w.attempts[i]) && w1 == Step(m, w, Arrive(i)) && Consistent(w1)
    ensures Reconciled(w1, start)
  {
    SendKeepsDead(m, w.link, w.attempts[i].rec, start);
    forall s
      ensures RoutedNet(w1.link.book.fills, w1.link.orders, s) == PlacedNet(w1.attempts, w1.link.orders, s)
    {
      ArriveSums(m, w, w1, i, start, s);
    }
  }

  /** Any other exchange leaves the broker alone and every order what it is. */
  lemma {:induction false} QuietReconciled(w: World, i: nat, a: Attempt, start: real)
    requires Reconciled(w, start) && i < |w.attempts| && SameAttempt(w.attempts[i], a)
    requires Consistent(World(w.link, w.attempts[i := a]))
    ensures Reconciled(World(w.link, w.attempts[i := a]), start)
  {
    var ys := w.attempts[i := a];
    forall s
      ensures PlacedNet(ys, w.link.orders, s) == PlacedNet(w.attempts, w.link.orders, s)
    {
      PlacedNetSame(w.attempts, ys, w.link.orders, w.link.orders, s);
    }
  }

  lemma {:induction false} ExchangeReconciled(m: Market, w: World, e: Event, start: real)
    requires Reconciled(w, start) && Allowed(m, w, e) && !e.NewOrder? && !e.Retry? && !e.BrokerActivity?
    requires e.i < |w.attempts|
    ensures Reconciled(Step(m, w, e), start)
  {
    var a := w.attempts[e.i];
    assert a in w.attempts;
    StepConsistentIff(m, w, e);
    ExchangeOkIff(m, w.link, a, e);
    if e.Arrive? && a.wire > 0 {
      ArriveReconciled(m, w, Step(m, w, e), e.i, start);
    } else {
      QuietReconciled(w, e.i, Exchange(m, w.link, a, e).1, start);
    }
  }

  lemma {:induction false} StepReconciled(m: Market, w: World, e: Event, start: real)
    requires Reconciled(w, start) && Allowed(m, w, e)
    ensures Reconciled(Step(m, w, e), start)
  {
    var w1 := Step(m, w, e);
    match e
    case BrokerActivity(op) => ActivityReconciled(m, w, op, start);
    case NewOrder(_, _, _, _, _) =>
      StepConsistentIff(m, w, e);
      AppendReconciled(w, w.attempts, w1.attempts[|w.attempts|], start);
    case Retry(i, id) =>
      StepConsistentIff(m, w, e);
      if i < |w.attempts| && w.attempts[i].rec.state == OSM.FailedNotPlaced {
        AppendReconciled(w, w.attempts[i := w.attempts[i].(retried := true)], w1.attempts[|w.attempts|], start);
      }
    case _ =>
      if e.i < |w.attempts| {
        ExchangeReconciled(m, w, e, start);
      }
  }

  /** A new attempt has placed nothing yet. */
  lemma {:induction false} AppendReconciled(w: World, xs: seq<Attempt>, a: Attempt, start: real)
    requires Reconciled(w, start) && |xs| == |w.attempts|
    requires forall j :: 0 <= j < |xs| ==> xs[j].rec == w.attempts[j].rec
    requires Consistent(World(w.link, xs + [a])) && a.rec.state == OSM.Created
    ensures Reconciled(World(w.link, xs + [a]), start)
  {
    assert a in xs + [a];
    forall s
      ensures PlacedNet(xs + [a], w.link.orders, s) == PlacedNet(w.attempts, w.link.orders, s)
    {
      assert (xs + [a])[..|xs|] == xs;
      PlacedNetSame(w.attempts, xs, w.link.orders, w.link.orders, s);
    }
  }

  lemma {:induction false} RunReconciled(m: Market, start: real, es: seq<Event>)
    requires AllowedRun(m, Fresh(NewBook(start)), es)
    ensures Reconciled(Run(m, Fresh(NewBook(start)), es), start)
  {
    if es == [] {
      L.LedgerIsFoldOfFills(m, start, []);
    } else {
      RunReconciled(m, start, es[..|es| - 1]);
      StepReconciled(m, Run(m, Fresh(NewBook(start)), es[..|es| - 1]), es[|es| - 1], start);
    }
  }

  /** At any moment of any run, `open_exposure` falls short of the signed sum of
      the broker's fills for the router's orders by exactly what the orders still
      in doubt have placed; whenever no record is SENT or UNKNOWN they are equal. */
  lemma {:induction false} ExposureIsBrokerTruth(m: Market, start: real, es: seq<Event>, s: Symbol)
    requires AllowedRun(m, Fresh(NewBook(start)), es)
    ensures var w := Run(m, Fresh(NewBook(start)), es);
            var exposure, truth := OSM.Net(Records(w.attempts), s), RoutedNet(w.link.book.fills, w.link.orders, s);
            && truth == exposure + InDoubt(w.attempts, w.link.orders, s)
            && ((forall a :: a in w.attempts ==> a.rec.state != OSM.Sent && a.rec.state != OSM.Unknown) ==>
                  exposure == truth)
  {
    RunReconciled(m, start, es);
    var w := Run(m, Fresh(NewBook(start)), es);
    ExposureIsPlaced(w.attempts, w.link.orders, s);
    if forall a :: a in w.attempts ==> a.rec.state != OSM.Sent && a.rec.state != OSM.Unknown {
      NothingInDoubt(w.attempts, w.link.orders, s);
    }
  }
}
