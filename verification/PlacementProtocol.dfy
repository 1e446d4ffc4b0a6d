/** Whole runs of creating, posting, answering, timing out, looking up and
    retrying orders, each a step of its own, in any interleaving over any number
    of orders while the broker does anything else besides; a request may still be
    travelling when its sender has given up. At most one attempt of a retry chain
    ever reaches the broker, and an order that is not in doubt tells the truth. */
module PlacementProtocol {
  import opened Basics
  import opened PaperBroker
  import opened StopAdapters
  import opened Dispatch
  import L = Ledger
  import OSM = OrderStateMachine

  /** Where the sender of an attempt stands: nothing under way, waiting for a reply,
      a reply travelling to it, or the answer of a lookup travelling to it. */
  datatype Flight = Idle | Waiting | Answered(reply: Reply) | Heard(truth: OSM.Lookup)

  /** An attempt, the position of the first attempt of its retry chain, whether it
      has itself been retried, how many of its requests are still travelling, and
      where its sender stands. */
  datatype Attempt = Attempt(rec: OSM.Record, origin: nat, retried: bool, wire: nat, flight: Flight)

  datatype World = World(link: Link, attempts: seq<Attempt>)

  datatype Event =
    | NewOrder(id: string, symbol: Symbol, direction: Side, qty: real, leg: Leg)
    | Retry(i: nat, id: string)
    | Post(i: nat)
    | Arrive(i: nat)
    | LoseRequest(i: nat)
    | LoseReply(i: nat)
    | GetReply(i: nat, entry: real)
    | Timeout(i: nat)
    | Ask(i: nat, answered: bool)
    | Adopt(i: nat)
    | BrokerActivity(op: L.Op)

  /** What one event does to the exchange of one attempt and to the broker. */
  function Exchange(m: Market, link: Link, a: Attempt, e: Event): (Link, Attempt) {
    var r := a.rec;
    match e
    case Post(_) =>
      var (r1, o) := OSM.MarkSent(r);
      if o != OSM.Ok then (link, a) else (link, a.(rec := r1, wire := a.wire + 1, flight := Waiting))
    case Arrive(_) =>
      if a.wire == 0 then (link, a)
      else
        var (l1, reply) := Send(m, link, r);
        (l1, a.(wire := a.wire - 1, flight := if a.flight.Waiting? then Answered(reply) else a.flight))
    case LoseRequest(_) => (link, if a.wire > 0 then a.(wire := a.wire - 1) else a)
    case LoseReply(_) => (link, if a.flight.Answered? then a.(flight := Waiting) else a)
    case GetReply(_, entry) =>
      (link, if a.flight.Answered? then a.(rec := Received(r, a.flight.reply, entry), flight := Idle) else a)
    case Timeout(_) =>
      (link, if a.flight.Waiting? then a.(rec := OSM.OnTimeout(r).0, flight := Idle) else a)
    case Ask(_, answered) =>
      (link, if r.state == OSM.Unknown then a.(flight := Heard(Truth(link.orders, r.clientOrderId, answered))) else a)
    case Adopt(_) =>
      (link, if a.flight.Heard? then a.(rec := OSM.Reconcile(r, a.flight.truth).0, flight := Idle) else a)
    case _ => (link, a)
  }

  function Step(m: Market, w: World, e: Event): World {
    match e
    case NewOrder(id, s, direction, qty, leg) =>
      w.(attempts := w.attempts + [Attempt(OSM.NewRecord(id, s, direction, qty, leg), |w.attempts|, false, 0, Idle)])
    case Retry(i, id) =>
      if i >= |w.attempts| || w.attempts[i].rec.state != OSM.FailedNotPlaced then w
      else
        var a := w.attempts[i];
        w.(attempts := w.attempts[i := a.(retried := true)]
                       + [Attempt(OSM.Retried(a.rec, id), a.origin, false, 0, Idle)])
    case BrokerActivity(op) => w.(link := w.link.(book := L.Apply1(m, w.link.book, op)))
    case _ =>
      if e.i >= |w.attempts| then w
      else
        var (link, a) := Exchange(m, w.link, w.attempts[e.i], e);
        World(link, w.attempts[e.i := a])
  }

  predicate Unused(w: World, id: string) {
    forall a :: a in w.attempts ==> a.rec.clientOrderId != id
  }

  /** The sender has been told that the broker does not have the order. */
  predicate Disowned(a: Attempt) {
    a.rec.state == OSM.FailedNotPlaced || a.flight == Heard(OSM.Absent)
  }

  /** A record is posted again only if its earlier request is lost, and a request
      whose sender was told that the broker does not have the order is not taken. */
  predicate Fitting(m: Market, link: Link, a: Attempt, e: Event) {
    && (e.Post? && a.rec.state == OSM.Sent ==> a.wire == 0 && a.rec.clientOrderId !in link.orders)
    && (e.Arrive? && a.wire > 0 && Disowned(a) ==> Send(m, link, a.rec).1.Refused?)
  }

  /** What a run must respect besides: identifiers are fresh, and a failed attempt is
      retried at most once. */
  predicate Allowed(m: Market, w: World, e: Event) {
    match e
    case NewOrder(id, _, _, _, _) => Unused(w, id)
    case Retry(i, id) =>
      i < |w.attempts| && w.attempts[i].rec.state == OSM.FailedNotPlaced ==>
        Unused(w, id) && !w.attempts[i].retried
    case BrokerActivity(_) => true
    case _ => e.i < |w.attempts| ==> Fitting(m, w.link, w.attempts[e.i], e)
  }

  // ---------- the invariant ----------

  predicate Placed(orders: map<string, Reply>, r: OSM.Record) {
    r.clientOrderId in orders && InFull(orders[r.clientOrderId], r)
  }

  predicate NotPlaced(orders: map<string, Reply>, r: OSM.Record) {
    r.clientOrderId !in orders
  }

  /** What an attempt in flight knows against the server's order table. */
  predicate SentOk(orders: map<string, Reply>, r: OSM.Record, wire: nat, flight: Flight) {
    match flight
    case Waiting => NotPlaced(orders, r) || Placed(orders, r)
    case Answered(reply) =>
      && wire == 0
      && if reply.Accepted? then Placed(orders, r) && orders[r.clientOrderId] == reply else NotPlaced(orders, r)
    case _ => false
  }

  /** At most one request travels, and only before the order is placed. */
  predicate WireOk(orders: map<string, Reply>, a: Attempt) {
    a.wire == 0
    || (a.wire == 1 && NotPlaced(orders, a.rec) && a.rec.state in {OSM.Sent, OSM.Unknown, OSM.FailedNotPlaced})
  }

  predicate DoubtOk(orders: map<string, Reply>, r: OSM.Record, flight: Flight) {
    && (NotPlaced(orders, r) || Placed(orders, r))
    && match flight
       case Idle => true
       case Heard(truth) => truth == OSM.LookupFailed || truth == Truth(orders, r.clientOrderId, true)
       case _ => false
  }

  /** One attempt against the server's order table. */
  predicate AttemptOk(orders: map<string, Reply>, a: Attempt) {
    var r := a.rec;
    WireOk(orders, a) && match r.state
    case Filled => Placed(orders, r) && r.filledQty == r.requestedQty && a.flight.Idle?
    case Sent => r.filledQty == 0.0 && SentOk(orders, r, a.wire, a.flight)
    case Unknown => r.filledQty == 0.0 && DoubtOk(orders, r, a.flight)
    case Created => r.filledQty == 0.0 && NotPlaced(orders, r) && a.flight.Idle?
    case Rejected => r.filledQty == 0.0 && NotPlaced(orders, r) && a.flight.Idle?
    case FailedNotPlaced => r.filledQty == 0.0 && NotPlaced(orders, r) && a.flight.Idle?
    case _ => false
  }

  ghost predicate DistinctIds(xs: seq<Attempt>) {
    forall i, j :: 0 <= i < j < |xs| ==> xs[i].rec.clientOrderId != xs[j].rec.clientOrderId
  }

  /** Of the attempts of one chain, exactly the ones before the last have been retried. */
  ghost predicate Chained(xs: seq<Attempt>) {
    && (forall i :: 0 <= i < |xs| ==> xs[i].origin <= i)
    && (forall i :: 0 <= i < |xs| && xs[i].retried ==> xs[i].rec.state == OSM.FailedNotPlaced)
    && (forall i, j :: 0 <= i < j < |xs| && xs[i].origin == xs[j].origin ==> xs[i].retried)
    && (forall i :: 0 <= i < |xs| && xs[i].retried ==> HasLater(xs, i))
  }

  /** A later attempt of the same chain. */
  ghost predicate HasLater(xs: seq<Attempt>, i: nat)
    requires i < |xs|
  {
    exists j :: i < j < |xs| && xs[j].origin == xs[i].origin
  }

  /** Every attempt fits the order table, and every entry of the table an attempt. */
  ghost predicate Recorded(link: Link, xs: seq<Attempt>) {
    && (forall a :: a in xs ==> AttemptOk(link.orders, a))
    && (forall id :: id in link.orders ==> link.orders[id].Accepted?
                                           && exists a :: a in xs && a.rec.clientOrderId == id)
  }

  ghost predicate Consistent(w: World) {
    DistinctIds(w.attempts) && Chained(w.attempts) && Recorded(w.link, w.attempts)
  }

  // ---------- one exchange ----------

  lemma {:induction false} SendEffect(m: Market, link: Link, r: OSM.Record)
    ensures var (l1, reply) := Send(m, link, r);
            && (reply.Accepted? ==> l1.orders == link.orders[r.clientOrderId := reply] && InFull(reply, r))
            && (reply.Refused? ==> l1.orders == link.orders)
  {
  }

  /** The order table may gain this one id, and changes nothing else. */
  predicate OrdersGrow(orders: map<string, Reply>, orders1: map<string, Reply>, id: string) {
    orders1 == orders || (id in orders1 && orders1[id].Accepted? && orders1 == orders[id := orders1[id]])
  }

  /** The same attempt further on: a failed one stays failed. */
  predicate SameAttempt(a: Attempt, a1: Attempt) {
    && OSM.SameTicket(a.rec, a1.rec) && a1.origin == a.origin && a1.retried == a.retried
    && (a.rec.state == OSM.FailedNotPlaced ==> a1.rec.state == OSM.FailedNotPlaced)
  }

  lemma {:induction false} ReplyOk(orders: map<string, Reply>, a: Attempt, entry: real)
    requires AttemptOk(orders, a) && a.flight.Answered?
    ensures AttemptOk(orders, a.(rec := Received(a.rec, a.flight.reply, entry), flight := Idle))
  {
    var r, reply := a.rec, a.flight.reply;
    if reply.Accepted? {
      var r1 := OSM.OnAck(r, reply.id).0;
      assert r1.state == OSM.Acked && r1.filledQty == 0.0;
      assert Abs(0.0 + reply.filled - r1.requestedQty) <= OSM.EPS;
    }
  }

  lemma {:induction false} AdoptOk(orders: map<string, Reply>, a: Attempt)
    requires AttemptOk(orders, a) && a.flight.Heard?
    ensures AttemptOk(orders, a.(rec := OSM.Reconcile(a.rec, a.flight.truth).0, flight := Idle))
  {
    var r := a.rec;
    if Placed(orders, r) {
      assert Abs(0.0 + orders[r.clientOrderId].filled - r.requestedQty) <= OSM.EPS;
    }
  }

  /** What a request does when it arrives: it leaves the attempt in order unless the
      broker takes it after its sender was told otherwise. */
  lemma {:induction false} ArriveOkIff(m: Market, link: Link, a: Attempt)
    requires AttemptOk(link.orders, a) && a.wire > 0
    ensures var (l1, a1) := Exchange(m, link, a, Arrive(0));
            && (AttemptOk(l1.orders, a1) <==> !Disowned(a) || Send(m, link, a.rec).1.Refused?)
            && OrdersGrow(link.orders, l1.orders, a.rec.clientOrderId)
  {
    SendEffect(m, link, a.rec);
  }

  /** An exchange keeps the attempt in order if and only if it is fitting. */
  lemma {:induction false} ExchangeOkIff(m: Market, link: Link, a: Attempt, e: Event)
    requires AttemptOk(link.orders, a)
    ensures var (l1, a1) := Exchange(m, link, a, e);
            && (AttemptOk(l1.orders, a1) <==> Fitting(m, link, a, e)) && SameAttempt(a, a1)
            && OrdersGrow(link.orders, l1.orders, a.rec.clientOrderId)
            && (l1 != link ==> e.Arrive? && a.wire > 0)
  {
    match e
    case Arrive(_) =>
      if a.wire > 0 {
        ArriveOkIff(m, link, a);
      }
    case GetReply(_, entry) =>
      if a.flight.Answered? {
        ReplyOk(link.orders, a, entry);
      }
    case Adopt(_) =>
      if a.flight.Heard? {
        AdoptOk(link.orders, a);
      }
    case _ =>
  }

  // ---------- one step ----------

  lemma {:induction false} ChainedUpdate(xs: seq<Attempt>, i: nat, a: Attempt)
    requires Chained(xs) && i < |xs| && SameAttempt(xs[i], a)
    ensures Chained(xs[i := a])
  {
    var ys := xs[i := a];
    forall k | 0 <= k < |ys| && ys[k].retried
      ensures HasLater(ys, k)
    {
      assert HasLater(xs, k);
      var j :| k < j < |xs| && xs[j].origin == xs[k].origin;
      assert ys[j].origin == ys[k].origin;
    }
  }

  lemma {:induction false} UpdateConsistent(w: World, i: nat, a: Attempt, link: Link)
    requires Consistent(w) && i < |w.attempts| && SameAttempt(w.attempts[i], a)
    requires AttemptOk(link.orders, a) && OrdersGrow(w.link.orders, link.orders, a.rec.clientOrderId)
    ensures Consistent(World(link, w.attempts[i := a]))
  {
    var xs, ys := w.attempts, w.attempts[i := a];
    ChainedUpdate(xs, i, a);
    UpdatedAttemptsOk(w.link.orders, link.orders, xs, ys, i, a);
    forall id | id in link.orders
      ensures link.orders[id].Accepted? && exists x :: x in ys && x.rec.clientOrderId == id
    {
      UpdatedHasId(w.link.orders, link.orders, xs, ys, i, a, id);
    }
  }

  lemma {:induction false} OtherAttemptOk(orders: map<string, Reply>, orders1: map<string, Reply>, x: Attempt,
                                          id: string)
    requires AttemptOk(orders, x) && OrdersGrow(orders, orders1, id) && x.rec.clientOrderId != id
    ensures AttemptOk(orders1, x)
  {
  }

  lemma {:induction false} UpdatedAttemptsOk(orders: map<string, Reply>, orders1: map<string, Reply>,
                                             xs: seq<Attempt>, ys: seq<Attempt>, i: nat, a: Attempt)
    requires DistinctIds(xs) && (forall x :: x in xs ==> AttemptOk(orders, x))
    requires i < |xs| && ys == xs[i := a] && a.rec.clientOrderId == xs[i].rec.clientOrderId
    requires AttemptOk(orders1, a) && OrdersGrow(orders, orders1, a.rec.clientOrderId)
    ensures forall x :: x in ys ==> AttemptOk(orders1, x)
  {
    forall x | x in ys
      ensures AttemptOk(orders1, x)
    {
      var j :| 0 <= j < |ys| && ys[j] == x;
      if j != i {
        assert xs[j] in xs && xs[j].rec.clientOrderId != xs[i].rec.clientOrderId;
        OtherAttemptOk(orders, orders1, x, a.rec.clientOrderId);
      }
    }
  }

  lemma {:induction false} UpdatedHasId(orders: map<string, Reply>, orders1: map<string, Reply>,
                                        xs: seq<Attempt>, ys: seq<Attempt>, i: nat, a: Attempt, id: string)
    requires i < |xs| && ys == xs[i := a] && a.rec.clientOrderId == xs[i].rec.clientOrderId
    requires OrdersGrow(orders, orders1, a.rec.clientOrderId) && id in orders1
    requires forall c :: c in orders ==> orders[c].Accepted? && exists x :: x in xs && x.rec.clientOrderId == c
    ensures orders1[id].Accepted? && exists x :: x in ys && x.rec.clientOrderId == id
  {
    if id == a.rec.clientOrderId {
      assert ys[i] in ys;
    } else {
      var x :| x in xs && x.rec.clientOrderId == id;
      var j :| 0 <= j < |xs| && xs[j] == x;
      assert ys[j] in ys && ys[j].rec.clientOrderId == id;
    }
  }

  lemma {:induction false} AppendRecorded(link: Link, xs: seq<Attempt>, ys: seq<Attempt>, a: Attempt)
    requires Recorded(link, xs) && |ys| == |xs|
    requires forall j :: 0 <= j < |xs| ==> ys[j] == xs[j].(retried := ys[j].retried)
    requires AttemptOk(link.orders, a)
    ensures Recorded(link, ys + [a])
  {
    forall y | y in ys
      ensures AttemptOk(link.orders, y)
    {
      var j :| 0 <= j < |ys| && ys[j] == y;
      assert xs[j] in xs;
    }
    forall id | id in link.orders
      ensures exists y :: y in ys + [a] && y.rec.clientOrderId == id
    {
      var x :| x in xs && x.rec.clientOrderId == id;
      var j :| 0 <= j < |xs| && xs[j] == x;
      assert ys[j] in ys + [a] && ys[j].rec.clientOrderId == id;
    }
  }

  /** A first attempt, of a chain of its own. */
  lemma {:induction false} ChainedNew(xs: seq<Attempt>, a: Attempt)
    requires Chained(xs) && a.origin == |xs| && !a.retried
    ensures Chained(xs + [a])
  {
    forall i | 0 <= i < |xs| && xs[i].retried
      ensures HasLater(xs + [a], i)
    {
      var j :| i < j < |xs| && xs[j].origin == xs[i].origin;
      assert (xs + [a])[j] == xs[j];
    }
  }

  /** The attempts after one of them was retried. */
  function AfterRetry(xs: seq<Attempt>, i: nat, id: string): seq<Attempt>
    requires i < |xs|
  {
    xs[i := xs[i].(retried := true)] + [Attempt(OSM.Retried(xs[i].rec, id), xs[i].origin, false, 0, Idle)]
  }

  lemma {:induction false} ChainedRetry(xs: seq<Attempt>, i: nat, id: string)
    requires Chained(xs) && i < |xs| && xs[i].rec.state == OSM.FailedNotPlaced && !xs[i].retried
    ensures Chained(AfterRetry(xs, i, id))
  {
    var ys := AfterRetry(xs, i, id);
    forall k | 0 <= k < |ys| && ys[k].retried
      ensures HasLater(ys, k)
    {
      if k == i {
        assert ys[|xs|].origin == ys[i].origin;
      } else {
        assert HasLater(xs, k);
        var j :| k < j < |xs| && xs[j].origin == xs[k].origin;
        assert ys[j].origin == ys[k].origin;
      }
    }
  }

  /** The newest attempt of a chain has not been retried. */
  lemma {:induction false} Newest(xs: seq<Attempt>, i: nat) returns (j: nat)
    requires Chained(xs) && i < |xs|
    ensures i <= j < |xs| && xs[j].origin == xs[i].origin && !xs[j].retried
    decreases |xs| - i
  {
    j := i;
    if xs[i].retried {
      assert HasLater(xs, i);
      var k :| i < k < |xs| && xs[k].origin == xs[i].origin;
      j := Newest(xs, k);
    }
  }

  /** Retrying an attempt that has been retried leaves two live ends of its chain. */
  lemma {:induction false} RetriedAgain(xs: seq<Attempt>, i: nat, id: string)
    requires Chained(xs) && i < |xs| && xs[i].retried
    ensures !Chained(AfterRetry(xs, i, id))
  {
    var j := Newest(xs, i);
    var ys := AfterRetry(xs, i, id);
    assert ys[j].origin == ys[|xs|].origin && !ys[j].retried;
  }

  lemma {:induction false} FreshIds(xs: seq<Attempt>, ys: seq<Attempt>, a: Attempt)
    requires DistinctIds(xs) && |ys| == |xs|
    requires forall j :: 0 <= j < |xs| ==> ys[j].rec == xs[j].rec
    ensures DistinctIds(ys + [a]) <==> forall x :: x in xs ==> x.rec.clientOrderId != a.rec.clientOrderId
  {
    var zs := ys + [a];
    if DistinctIds(zs) {
      forall x | x in xs
        ensures x.rec.clientOrderId != a.rec.clientOrderId
      {
        var j :| 0 <= j < |xs| && xs[j] == x;
        assert zs[j].rec.clientOrderId != zs[|xs|].rec.clientOrderId;
      }
    } else {
      var i, j :| 0 <= i < j < |zs| && zs[i].rec.clientOrderId == zs[j].rec.clientOrderId;
      assert xs[i] in xs;
    }
  }

  /** A failed attempt may be retried under a fresh identifier if and only if it has
      not been retried before. */
  lemma {:induction false} RetryKeepsIff(m: Market, w: World, i: nat, id: string)
    requires Consistent(w) && i < |w.attempts| && w.attempts[i].rec.state == OSM.FailedNotPlaced
    ensures Consistent(Step(m, w, Retry(i, id))) <==> Unused(w, id) && !w.attempts[i].retried
  {
    var xs := w.attempts;
    var ys := xs[i := xs[i].(retried := true)];
    var a := Attempt(OSM.Retried(xs[i].rec, id), xs[i].origin, false, 0, Idle);
    FreshIds(xs, ys, a);
    if xs[i].retried {
      RetriedAgain(xs, i, id);
    } else {
      ChainedRetry(xs, i, id);
      if Unused(w, id) {
        PlacedIsUsed(w, id);
        AppendRecorded(w.link, xs, ys, a);
      }
    }
  }

  lemma {:induction false} PlacedIsUsed(w: World, id: string)
    requires Consistent(w)
    ensures id in w.link.orders ==> !Unused(w, id)
  {
    if id in w.link.orders {
      var x :| x in w.attempts && x.rec.clientOrderId == id;
    }
  }

  lemma {:induction false} NewOrderKeepsIff(m: Market, w: World, e: Event)
    requires Consistent(w) && e.NewOrder?
    ensures Consistent(Step(m, w, e)) <==> Unused(w, e.id)
  {
    var a := Attempt(OSM.NewRecord(e.id, e.symbol, e.direction, e.qty, e.leg), |w.attempts|, false, 0, Idle);
    FreshIds(w.attempts, w.attempts, a);
    ChainedNew(w.attempts, a);
    if Unused(w, e.id) {
      PlacedIsUsed(w, e.id);
      AppendRecorded(w.link, w.attempts, w.attempts, a);
    }
  }

  lemma {:induction false} ExchangeKeepsIff(m: Market, w: World, e: Event)
    requires Consistent(w) && !e.NewOrder? && !e.Retry? && !e.BrokerActivity? && e.i < |w.attempts|
    ensures Consistent(Step(m, w, e)) <==> Fitting(m, w.link, w.attempts[e.i], e)
  {
    var a := w.attempts[e.i];
    assert a in w.attempts;
    ExchangeOkIff(m, w.link, a, e);
    var (link, a1) := Exchange(m, w.link, a, e);
    if AttemptOk(link.orders, a1) {
      UpdateConsistent(w, e.i, a1, link);
    } else {
      assert Step(m, w, e).attempts[e.i] == a1;
    }
  }

  /** From a consistent state any event leads to a consistent one if and only if it is
      allowed. */
  lemma {:induction false} StepConsistentIff(m: Market, w: World, e: Event)
    requires Consistent(w)
    ensures Consistent(Step(m, w, e)) <==> Allowed(m, w, e)
  {
    match e
    case NewOrder(_, _, _, _, _) => NewOrderKeepsIff(m, w, e);
    case Retry(i, id) =>
      if i < |w.attempts| && w.attempts[i].rec.state == OSM.FailedNotPlaced {
        RetryKeepsIff(m, w, i, id);
      }
    case BrokerActivity(_) =>
    case _ =>
      if e.i < |w.attempts| {
        ExchangeKeepsIff(m, w, e);
      }
  }

  // ---------- runs ----------

  function Run(m: Market, w: World, es: seq<Event>): World {
    if es == [] then w else Step(m, Run(m, w, es[..|es| - 1]), es[|es| - 1])
  }

  predicate AllowedRun(m: Market, w: World, es: seq<Event>) {
    es == [] || (AllowedRun(m, w, es[..|es| - 1]) && Allowed(m, Run(m, w, es[..|es| - 1]), es[|es| - 1]))
  }

  function Fresh(b: Book): World {
    World(Link(b, map[]), [])
  }

  function Activities(ops: seq<L.Op>): seq<Event> {
    if ops == [] then [] else Activities(ops[..|ops| - 1]) + [BrokerActivity(ops[|ops| - 1])]
  }

  /** The broker is free in a run: whatever it can do by itself, it can do meanwhile. */
  lemma {:induction false} BrokerRunsFreely(m: Market, b: Book, ops: seq<L.Op>)
    ensures AllowedRun(m, Fresh(b), Activities(ops))
    ensures Run(m, Fresh(b), Activities(ops)) == Fresh(L.Run(m, b, ops))
  {
    if ops != [] {
      BrokerRunsFreely(m, b, ops[..|ops| - 1]);
      var es := Activities(ops);
      assert es[..|es| - 1] == Activities(ops[..|ops| - 1]);
    }
  }

  lemma {:induction false} RunConsistent(m: Market, b: Book, es: seq<Event>)
    requires AllowedRun(m, Fresh(b), es)
    ensures Consistent(Run(m, Fresh(b), es))
  {
    if es != [] {
      RunConsistent(m, b, es[..|es| - 1]);
      StepConsistentIff(m, Run(m, Fresh(b), es[..|es| - 1]), es[|es| - 1]);
    }
  }

  /** Of all the attempts of one retry chain, at most one was ever placed at the
      broker, whatever the network lost, in whatever order things happened and
      whatever else the broker did meanwhile. */
  lemma {:induction false} AtMostOnePlacedPerChain(m: Market, b: Book, es: seq<Event>, i: nat, j: nat)
    requires AllowedRun(m, Fresh(b), es)
    requires var w := Run(m, Fresh(b), es);
             i < |w.attempts| && j < |w.attempts| && i != j && w.attempts[i].origin == w.attempts[j].origin
    ensures var w := Run(m, Fresh(b), es);
            !(w.attempts[i].rec.clientOrderId in w.link.orders && w.attempts[j].rec.clientOrderId in w.link.orders)
  {
    RunConsistent(m, b, es);
    var w := Run(m, Fresh(b), es);
    var k := if i < j then i else j;
    assert w.attempts[k].retried;
    assert w.attempts[k] in w.attempts && AttemptOk(w.link.orders, w.attempts[k]);
  }

  /** An order that is neither SENT nor UNKNOWN is FILLED exactly when the broker
      has it, and then in full. */
  lemma {:induction false} SettledTellsTheTruth(m: Market, b: Book, es: seq<Event>, i: nat)
    requires AllowedRun(m, Fresh(b), es) && i < |Run(m, Fresh(b), es).attempts|
    requires var s := Run(m, Fresh(b), es).attempts[i].rec.state; s != OSM.Sent && s != OSM.Unknown
    ensures var w := Run(m, Fresh(b), es);
            var r := w.attempts[i].rec;
            && (r.state == OSM.Filled <==> r.clientOrderId in w.link.orders)
            && (r.state == OSM.Filled ==>
                  var o := w.link.orders[r.clientOrderId];
                  o.Accepted? && r.filledQty == r.requestedQty == o.filled)
  {
    RunConsistent(m, b, es);
    var w := Run(m, Fresh(b), es);
    assert w.attempts[i] in w.attempts;
  }

  // ---------- a dispatch that nothing interrupts ----------

  /** The steps of one dispatch, one after the other. */
  function Dispatched(m: Market, w: World, i: nat, entry: real, wire: Wire, answered: bool): World {
    var w1 := Step(m, w, Post(i));
    match wire
    case RequestLost => Settled(m, Step(m, w1, LoseRequest(i)), i, answered)
    case ReplyLost => Settled(m, Step(m, Step(m, w1, Arrive(i)), LoseReply(i)), i, answered)
    case Delivered => Step(m, Step(m, w1, Arrive(i)), GetReply(i, entry))
  }

  /** Timeout, lookup, reconcile. */
  function Settled(m: Market, w: World, i: nat, answered: bool): World {
    Step(m, Step(m, Step(m, w, Timeout(i)), Ask(i, answered)), Adopt(i))
  }

  lemma {:induction false} SettledIs(m: Market, w: World, i: nat, answered: bool)
    requires i < |w.attempts| && w.attempts[i].flight.Waiting? && w.attempts[i].rec.state == OSM.Sent
    ensures var a := w.attempts[i];
            Settled(m, w, i, answered)
            == World(w.link, w.attempts[i := a.(rec := Settle(w.link, a.rec, answered), flight := Idle)])
  {
  }

  /** `_dispatch` as one step is the run of its own steps with nothing in between. */
  lemma {:induction false} DispatchIsARun(m: Market, w: World, i: nat, entry: real, wire: Wire, answered: bool)
    requires i < |w.attempts| && w.attempts[i].rec.state == OSM.Created && w.attempts[i].wire == 0
    ensures var a := w.attempts[i];
            var (link, r) := DispatchOne(m, w.link, a.rec, entry, wire, answered);
            Dispatched(m, w, i, entry, wire, answered) == World(link, w.attempts[i := a.(rec := r, flight := Idle)])
  {
    var a := w.attempts[i];
    var r1 := OSM.MarkSent(a.rec).0;
    var w1 := Step(m, w, Post(i));
    assert w1 == World(w.link, w.attempts[i := a.(rec := r1, wire := 1, flight := Waiting)]);
    var (l1, reply) := Send(m, w.link, r1);
    match wire
    case RequestLost =>
      var w2 := Step(m, w1, LoseRequest(i));
      assert w2 == World(w.link, w.attempts[i := a.(rec := r1, flight := Waiting)]);
      SettledIs(m, w2, i, answered);
    case ReplyLost =>
      var w3 := Step(m, Step(m, w1, Arrive(i)), LoseReply(i));
      assert w3 == World(l1, w.attempts[i := a.(rec := r1, flight := Waiting)]);
      SettledIs(m, w3, i, answered);
    case Delivered =>
      assert Step(m, w1, Arrive(i)) == World(l1, w.attempts[i := a.(rec := r1, flight := Answered(reply))]);
  }

  // ---------- why a failed attempt may be retried once only ----------

  /** An unsent attempt of the chain that starts at 0, for a sale that needs no cash. */
  predicate FreshSale(a: Attempt, id: string, s: Symbol, qty: real) {
    a.origin == 0 && a.rec.clientOrderId == id && a.rec.state == OSM.Created && a.flight.Idle? && a.wire == 0
    && a.rec.direction.Sell? && a.rec.symbol == s && a.rec.requestedQty == qty
  }

  /** A sale whose request is lost, and proven absent. */
  function LostSale(m: Market, b: Book, s: Symbol, qty: real): World {
    Dispatched(m, Step(m, Fresh(b), NewOrder("a", s, Sell, qty, Forex)), 0, 1.0, RequestLost, true)
  }

  /** The same, retried twice, both retries delivered. */
  function RetriedTwice(m: Market, b: Book, s: Symbol, qty: real): World {
    var w := Step(m, Step(m, LostSale(m, b, s, qty), Retry(0, "b")), Retry(0, "c"));
    Dispatched(m, Dispatched(m, w, 1, 1.0, Delivered, true), 2, 1.0, Delivered, true)
  }

  lemma {:induction false} LoseFirst(m: Market, b: Book, s: Symbol, qty: real)
    ensures var w := LostSale(m, b, s, qty);
            && w.link == Fresh(b).link && |w.attempts| == 1 && w.attempts[0].rec.state == OSM.FailedNotPlaced
            && FreshSale(w.attempts[0].(rec := w.attempts[0].rec.(state := OSM.Created)), "a", s, qty)
  {
    var w := Step(m, Fresh(b), NewOrder("a", s, Sell, qty, Forex));
    DispatchIsARun(m, w, 0, 1.0, RequestLost, true);
    assert w.attempts[0].rec.state == OSM.Created;
  }

  lemma {:induction false} RetryTwice(m: Market, w: World, s: Symbol, qty: real)
    requires |w.attempts| == 1 && w.attempts[0].rec.state == OSM.FailedNotPlaced
    requires FreshSale(w.attempts[0].(rec := w.attempts[0].rec.(state := OSM.Created)), "a", s, qty)
    ensures var w2 := Step(m, Step(m, w, Retry(0, "b")), Retry(0, "c"));
            && w2.link == w.link && |w2.attempts| == 3
            && FreshSale(w2.attempts[1], "b", s, qty) && FreshSale(w2.attempts[2], "c", s, qty)
  {
  }

  lemma {:induction false} SentIsPlaced(m: Market, w: World, i: nat)
    requires i < |w.attempts| && w.attempts[i].rec.state == OSM.Created && w.attempts[i].wire == 0
    requires var r := w.attempts[i].rec; r.direction.Sell? && r.requestedQty > 0.0 && r.symbol in w.link.book.last
    ensures var w1 := Dispatched(m, w, i, 1.0, Delivered, true);
            var r := w.attempts[i].rec;
            && |w1.attempts| == |w.attempts| && w1.attempts[i].rec.clientOrderId == r.clientOrderId
            && w1.attempts[i].origin == w.attempts[i].origin
            && (forall j :: 0 <= j < |w.attempts| && j != i ==> w1.attempts[j] == w.attempts[j])
            && w1.link.orders.Keys == w.link.orders.Keys + {r.clientOrderId}
            && w1.link.book.last == w.link.book.last
  {
    DispatchIsARun(m, w, i, 1.0, Delivered, true);
  }

  /** The bound on retries is needed: retrying the same failed attempt twice puts
      two orders of one chain at the broker. */
  lemma {:induction false} SecondRetryPlacesTwice(m: Market, b: Book, s: Symbol, qty: real)
    requires s in b.last && qty > 0.0
    ensures var w := RetriedTwice(m, b, s, qty);
            && |w.attempts| == 3 && w.attempts[1].origin == w.attempts[2].origin == 0
            && w.attempts[1].rec.clientOrderId in w.link.orders && w.attempts[2].rec.clientOrderId in w.link.orders
  {
    var w := LostSale(m, b, s, qty);
    LoseFirst(m, b, s, qty);
    RetryTwice(m, w, s, qty);
    BothPlaced(m, Step(m, Step(m, w, Retry(0, "b")), Retry(0, "c")), s, qty);
  }

  lemma {:induction false} BothPlaced(m: Market, w: World, s: Symbol, qty: real)
    requires |w.attempts| == 3 && s in w.link.book.last && qty > 0.0
    requires FreshSale(w.attempts[1], "b", s, qty) && FreshSale(w.attempts[2], "c", s, qty)
    ensures var w2 := Dispatched(m, Dispatched(m, w, 1, 1.0, Delivered, true), 2, 1.0, Delivered, true);
            && |w2.attempts| == 3 && w2.attempts[1].origin == w2.attempts[2].origin == 0
            && w2.attempts[1].rec.clientOrderId in w2.link.orders && w2.attempts[2].rec.clientOrderId in w2.link.orders
  {
    SentIsPlaced(m, w, 1);
    SentIsPlaced(m, Dispatched(m, w, 1, 1.0, Delivered, true), 2);
  }

  // ---------- why a record is posted once ----------

  /** The state machine lets a SENT record be posted again. The request that then
      arrives is a second fill under the same id if and only if the record was SENT,
      its first request was taken, and the broker accepts again. */
  lemma {:induction false} SecondPostFillsIff(m: Market, w: World, i: nat)
    requires Consistent(w) && i < |w.attempts|
    ensures var r := w.attempts[i].rec;
            var w1 := Step(m, Step(m, w, Post(i)), Arrive(i));
            r.clientOrderId in w.link.orders && |w1.link.book.fills| == |w.link.book.fills| + 1
            <==> r.state == OSM.Sent && Placed(w.link.orders, r) && Send(m, w.link, r).1.Accepted?
  {
    var a := w.attempts[i];
    assert a in w.attempts;
    SendFills(m, w.link, a.rec);
    if a.rec.state == OSM.Sent {
      var r1 := OSM.MarkSent(a.rec).0;
      assert Step(m, w, Post(i)).attempts[i] == a.(rec := r1, wire := a.wire + 1, flight := Waiting);
      assert Send(m, w.link, r1) == Send(m, w.link, a.rec);
    }
  }

  lemma {:induction false} SendFills(m: Market, link: Link, r: OSM.Record)
    ensures var (l1, reply) := Send(m, link, r);
            |l1.book.fills| == if reply.Accepted? then |link.book.fills| + 1 else |link.book.fills|
  {
  }

  /** It can happen to the first order ever sent. */
  lemma {:induction false} SecondPostFillsTwice(m: Market, b: Book, s: Symbol, qty: real)
    requires s in b.last && qty > 0.0
    ensures var w := Step(m, Fresh(b), NewOrder("a", s, Sell, qty, Forex));
            var w1 := Step(m, Step(m, w, Post(0)), Arrive(0));
            var w2 := Step(m, Step(m, w1, Post(0)), Arrive(0));
            && |w2.attempts| == 1 && w2.link.orders.Keys == {"a"}
            && |w1.link.book.fills| == |b.fills| + 1 && |w2.link.book.fills| == |b.fills| + 2
  {
    var w := Step(m, Fresh(b), NewOrder("a", s, Sell, qty, Forex));
    PostFills(m, w, s, qty);
    PostFills(m, Step(m, Step(m, w, Post(0)), Arrive(0)), s, qty);
  }

  lemma {:induction false} PostFills(m: Market, w: World, s: Symbol, qty: real)
    requires |w.attempts| == 1 && w.attempts[0].wire == 0 && s in w.link.book.last && qty > 0.0
    requires var r := w.attempts[0].rec;
             && r.direction.Sell? && r.symbol == s && r.requestedQty == qty
             && (r.state == OSM.Created || r.state == OSM.Sent)
    ensures var w1 := Step(m, Step(m, w, Post(0)), Arrive(0));
            && |w1.attempts| == 1 && w1.attempts[0].rec.state == OSM.Sent && w1.attempts[0].wire == 0
            && OSM.SameTicket(w.attempts[0].rec, w1.attempts[0].rec)
            && w1.link.orders.Keys == w.link.orders.Keys + {w.attempts[0].rec.clientOrderId}
            && |w1.link.book.fills| == |w.link.book.fills| + 1 && w1.link.book.last == w.link.book.last
  {
  }

  // ---------- why a request must not outlive its lookup ----------

  /** A request that is still travelling when its order has been written off as never
      placed: once it arrives the record is wrong - FAILED_NOT_PLACED for an order
      the broker has - if and only if the broker accepts it. Whatever else of its
      chain was placed stays placed. */
  lemma {:induction false} LateArrivalIff(m: Market, w: World, i: nat)
    requires Consistent(w) && i < |w.attempts|
    requires w.attempts[i].wire > 0 && w.attempts[i].rec.state == OSM.FailedNotPlaced
    ensures var w1 := Step(m, w, Arrive(i));
            && w1.attempts[i].rec == w.attempts[i].rec
            && (w.attempts[i].rec.clientOrderId in w1.link.orders
                <==> Send(m, w.link, w.attempts[i].rec).1.Accepted?)
            && w.link.orders.Keys <= w1.link.orders.Keys
  {
    assert w.attempts[i] in w.attempts;
    SendEffect(m, w.link, w.attempts[i].rec);
  }

  /** A sale given up while its request travels, and looked up before it arrives. */
  function GivenUp(m: Market, b: Book, s: Symbol, qty: real): World {
    Settled(m, Step(m, Step(m, Fresh(b), NewOrder("a", s, Sell, qty, Forex)), Post(0)), 0, true)
  }

  /** It is retried, the retry is placed, and then the first request arrives. */
  function ArrivesLate(m: Market, b: Book, s: Symbol, qty: real): World {
    Step(m, Dispatched(m, Step(m, GivenUp(m, b, s, qty), Retry(0, "b")), 1, 1.0, Delivered, true), Arrive(0))
  }

  lemma {:induction false} GivenUpIs(m: Market, b: Book, s: Symbol, qty: real)
    ensures var w := GivenUp(m, b, s, qty);
            && w.link == Fresh(b).link && |w.attempts| == 1
            && w.attempts[0].rec.state == OSM.FailedNotPlaced && w.attempts[0].wire == 1 && w.attempts[0].flight.Idle?
            && FreshSale(w.attempts[0].(rec := w.attempts[0].rec.(state := OSM.Created), wire := 0), "a", s, qty)
  {
    var w := Step(m, Step(m, Fresh(b), NewOrder("a", s, Sell, qty, Forex)), Post(0));
    assert w.attempts[0].rec.state == OSM.Sent;
    SettledIs(m, w, 0, true);
  }

  /** Every other rule kept - fresh identifiers, one post, one retry of a failure that
      a truthful lookup had confirmed - two orders of one chain are placed. */
  lemma {:induction false} LateArrivalPlacesTwice(m: Market, b: Book, s: Symbol, qty: real)
    requires s in b.last && qty > 0.0
    ensures var w := ArrivesLate(m, b, s, qty);
            && |w.attempts| == 2 && w.attempts[0].origin == w.attempts[1].origin
            && w.attempts[0].rec.state == OSM.FailedNotPlaced
            && w.attempts[0].rec.clientOrderId in w.link.orders && w.attempts[1].rec.clientOrderId in w.link.orders
  {
    var w := GivenUp(m, b, s, qty);
    GivenUpIs(m, b, s, qty);
    var w1 := Step(m, w, Retry(0, "b"));
    assert w1.attempts[0] == w.attempts[0].(retried := true);
    SentIsPlaced(m, w1, 1);
    var w2 := Dispatched(m, w1, 1, 1.0, Delivered, true);
    SendEffect(m, w2.link, w2.attempts[0].rec);
    assert Send(m, w2.link, w2.attempts[0].rec).1.Accepted?;
  }
}
