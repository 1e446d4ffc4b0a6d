/** Order dispatch on the MT5 leg over a network that may lose the request or the
    reply: a lost reply leaves the order UNKNOWN until a lookup settles it, and
    only a proven absence may be retried. */
module Dispatch {
  import opened Basics
  import opened PaperBroker
  import opened StopAdapters
  import L = Ledger
  import OSM = OrderStateMachine

  /** What the network does to one POST. */
  datatype Wire = RequestLost | ReplyLost | Delivered

  /** The broker side: its book and the orders the server has on record. */
  datatype Link = Link(book: Book, orders: map<string, Reply>)

  /** GET /order/{id} as the state machine reads it: answered truthfully, or not
      at all. */
  function AsLookup(found: Option<Reply>, answered: bool): OSM.Lookup {
    if !answered then OSM.LookupFailed
    else if found.None? || found.value.Refused? then OSM.Absent
    else OSM.Found(Some(found.value.id), "filled", found.value.filled, found.value.avg, None)
  }

  function Truth(orders: map<string, Reply>, id: string, answered: bool): OSM.Lookup {
    AsLookup(if id in orders then Some(orders[id]) else None, answered)
  }

  function Send(m: Market, link: Link, r: OSM.Record): (Link, Reply) {
    var (b, reply) := Place(m, link.book, Payload(r.symbol, r.direction, r.requestedQty, AtMarket));
    (Link(b, if reply.Accepted? then link.orders[r.clientOrderId := reply] else link.orders), reply)
  }

  /** The timeout path: UNKNOWN, then one reconcile. */
  function Settle(link: Link, r: OSM.Record, answered: bool): OSM.Record {
    OSM.Reconcile(OSM.OnTimeout(r).0, Truth(link.orders, r.clientOrderId, answered)).0
  }

  function Booked(r: OSM.Record, reply: Reply, entry: real): OSM.Record
    requires reply.Accepted?
  {
    var r1 := OSM.OnAck(r, reply.id).0;
    if reply.filled > 0.0 then
      OSM.OnFill(r1, reply.filled, if reply.avg.Some? then reply.avg.value else entry).0
    else r1
  }

  /** A reply that arrived. */
  function Received(r: OSM.Record, reply: Reply, entry: real): OSM.Record {
    if reply.Refused? then OSM.OnReject(r, "http_503").0 else Booked(r, reply, entry)
  }

  /** `_dispatch` without anything else happening meanwhile: mark sent, post, and
      act on what came back. */
  function DispatchOne(m: Market, link: Link, r: OSM.Record, entry: real, wire: Wire, answered: bool)
    : (Link, OSM.Record)
  {
    var (r1, o) := OSM.MarkSent(r);
    if o != OSM.Ok then (link, r1)
    else
      match wire
      case RequestLost => (link, Settle(link, r1, answered))
      case ReplyLost => var l1 := Send(m, link, r1).0; (l1, Settle(l1, r1, answered))
      case Delivered => var (l1, reply) := Send(m, link, r1); (l1, Received(r1, reply, entry))
  }

  // ---------- what becomes of a new order ----------

  /** The broker takes the order: a positive quantity, a known price, and for a
      purchase the cash for it. */
  predicate Takes(b: Book, r: OSM.Record) {
    && r.requestedQty > 0.0 && r.symbol in b.last
    && (r.direction.Buy? ==> r.requestedQty * b.last[r.symbol] <= b.cash)
  }

  /** The record has the fill's own id, price and quantity. */
  predicate Tells(r: OSM.Record, f: Fill) {
    && f.symbol == r.symbol && f.action == r.direction && f.qty == r.requestedQty == r.filledQty
    && r.brokerOrderId == Some(f.id) && r.avgFillPrice == Some(f.price)
  }

  /** The order was posted: one fill and one reply on record if it was taken, else
      nothing. */
  predicate SentAs(link: Link, r: OSM.Record, link1: Link, reply: Reply) {
    && (reply.Accepted? <==> Takes(link.book, r))
    && link1.orders == (if Takes(link.book, r) then link.orders[r.clientOrderId := reply] else link.orders)
    && (!Takes(link.book, r) ==> link1.book.fills == link.book.fills && r.clientOrderId !in link1.orders)
    && (Takes(link.book, r) ==>
          && |link1.book.fills| == |link.book.fills| + 1
          && var f := link1.book.fills[|link.book.fills|];
             f.symbol == r.symbol && f.action == r.direction && f.qty == r.requestedQty
             && reply == Accepted(f.id, f.qty, Some(f.price)))
  }

  lemma {:induction false} SendRule(m: Market, link: Link, r: OSM.Record, sent: OSM.Record, link1: Link, reply: Reply)
    requires OSM.SameTicket(r, sent) && r.clientOrderId !in link.orders && (link1, reply) == Send(m, link, sent)
    ensures SentAs(link, r, link1, reply) && (reply.Accepted? ==> InFull(reply, sent))
  {
  }

  /** The broker took the whole order. */
  predicate InFull(reply: Reply, r: OSM.Record) {
    reply.Accepted? && reply.filled == r.requestedQty > 0.0 && reply.avg.Some?
  }

  /** The record of a filled order: what the reply says. */
  predicate FilledBy(r: OSM.Record, reply: Reply) {
    && reply.Accepted? && r.state == OSM.Filled && r.filledQty == reply.filled
    && r.avgFillPrice == reply.avg && r.brokerOrderId == Some(reply.id)
  }

  lemma {:induction false} FirstAverage(r: OSM.Record, qty: real, price: real)
    requires r.filledQty == 0.0 && qty > 0.0
    ensures OSM.NewAverage(r, qty, price) == price
  {
    var prev := if r.avgFillPrice.Some? then r.avgFillPrice.value else 0.0;
    assert prev * r.filledQty == 0.0;
    DivMul(price, qty);
  }

  lemma {:induction false} ReceivedRule(r: OSM.Record, reply: Reply, entry: real)
    requires r.state == OSM.Sent && r.filledQty == 0.0 && (reply.Accepted? ==> InFull(reply, r))
    ensures var r1 := Received(r, reply, entry);
            if reply.Accepted? then FilledBy(r1, reply)
            else r1.state == OSM.Rejected && r1.rejectReason == Some("http_503")
  {
    if reply.Accepted? {
      FirstAverage(OSM.OnAck(r, reply.id).0, reply.filled, reply.avg.value);
    }
  }

  lemma {:induction false} SettleRule(link: Link, r: OSM.Record, answered: bool)
    requires r.state == OSM.Sent && r.filledQty == 0.0
    requires r.clientOrderId in link.orders ==> InFull(link.orders[r.clientOrderId], r)
    ensures var r1 := Settle(link, r, answered);
            if !answered then r1.state == OSM.Unknown
            else if r.clientOrderId in link.orders then FilledBy(r1, link.orders[r.clientOrderId])
            else r1.state == OSM.FailedNotPlaced
  {
    if r.clientOrderId in link.orders {
      var reply := link.orders[r.clientOrderId];
      var waiting := OSM.OnTimeout(r).0.(brokerOrderId := Some(reply.id));
      FirstAverage(OSM.Transition(waiting, OSM.Acked).0, reply.filled, reply.avg.value);
    }
  }

  /** What a dispatch makes of a new order: FILLED with the broker's own fill if it was
      taken and this was told, REJECTED or proven absent if it was not, and UNKNOWN
      exactly if neither a reply nor an answer came. */
  predicate EndsAs(link: Link, r: OSM.Record, wire: Wire, answered: bool, link1: Link, r1: OSM.Record) {
    var placed := Takes(link.book, r) && !wire.RequestLost?;
    && |link1.book.fills| == |link.book.fills| + (if placed then 1 else 0)
    && (r.clientOrderId in link1.orders <==> placed)
    && (r1.state == OSM.Unknown <==> !wire.Delivered? && !answered)
    && (r1.state == OSM.Filled <==> placed && (wire.Delivered? || answered))
    && (r1.state == OSM.Filled ==> Tells(r1, link1.book.fills[|link.book.fills|]))
    && (r1.state == OSM.Rejected <==> !placed && wire.Delivered?)
    && (r1.state == OSM.Rejected ==> r1.rejectReason == Some("http_503"))
    && (r1.state == OSM.FailedNotPlaced <==> !placed && !wire.Delivered? && answered)
  }

  lemma {:induction false} ToldEndsAs(link: Link, r: OSM.Record, wire: Wire, answered: bool, link1: Link,
                                      reply: Reply, r1: OSM.Record)
    requires !wire.RequestLost? && OSM.SameTicket(r, r1) && SentAs(link, r, link1, reply)
    requires if wire.ReplyLost? && !answered then r1.state == OSM.Unknown
             else if reply.Accepted? then FilledBy(r1, reply)
             else if wire.Delivered? then r1.state == OSM.Rejected && r1.rejectReason == Some("http_503")
             else r1.state == OSM.FailedNotPlaced
    ensures EndsAs(link, r, wire, answered, link1, r1)
  {
  }

  lemma {:induction false} LostReply(link: Link, r: OSM.Record, sent: OSM.Record, answered: bool, l1: Link,
                                     reply: Reply, r1: OSM.Record)
    requires OSM.SameTicket(r, sent) && sent.state == OSM.Sent && sent.filledQty == 0.0
    requires r.clientOrderId !in link.orders && SentAs(link, r, l1, reply) && (reply.Accepted? ==> InFull(reply, sent))
    requires r1 == Settle(l1, sent, answered)
    ensures EndsAs(link, r, ReplyLost, answered, l1, r1)
  {
    SettleRule(l1, sent, answered);
    ToldEndsAs(link, r, ReplyLost, answered, l1, reply, r1);
  }

  lemma {:induction false} DeliveredReply(link: Link, r: OSM.Record, sent: OSM.Record, entry: real, answered: bool,
                                          l1: Link, reply: Reply, r1: OSM.Record)
    requires OSM.SameTicket(r, sent) && sent.state == OSM.Sent && sent.filledQty == 0.0
    requires SentAs(link, r, l1, reply) && (reply.Accepted? ==> InFull(reply, sent))
    requires r1 == Received(sent, reply, entry)
    ensures EndsAs(link, r, Delivered, answered, l1, r1)
  {
    ReceivedRule(sent, reply, entry);
    ToldEndsAs(link, r, Delivered, answered, l1, reply, r1);
  }

  /** The dispatch of a new order in its parts. */
  lemma {:induction false} DispatchIs(m: Market, link: Link, r: OSM.Record, entry: real, wire: Wire, answered: bool)
    returns (sent: OSM.Record, l1: Link, reply: Reply)
    requires r.state == OSM.Created
    ensures OSM.SameTicket(r, sent) && sent.state == OSM.Sent && sent.filledQty == r.filledQty
    ensures (l1, reply) == Send(m, link, sent)
    ensures DispatchOne(m, link, r, entry, wire, answered)
         == match wire
            case RequestLost => (link, Settle(link, sent, answered))
            case ReplyLost => (l1, Settle(l1, sent, answered))
            case Delivered => (l1, Received(sent, reply, entry))
  {
    sent := OSM.MarkSent(r).0;
    var out := Send(m, link, sent);
    l1, reply := out.0, out.1;
  }

  /** So ends the uninterrupted dispatch of a new order, whatever the network does and
      whether or not the lookup is answered. */
  lemma {:induction false} DispatchRule(m: Market, link: Link, r: OSM.Record, entry: real, wire: Wire, answered: bool,
                                        link1: Link, r1: OSM.Record)
    requires r == OSM.NewRecord(r.clientOrderId, r.symbol, r.direction, r.requestedQty, r.leg)
    requires r.clientOrderId !in link.orders && (link1, r1) == DispatchOne(m, link, r, entry, wire, answered)
    ensures EndsAs(link, r, wire, answered, link1, r1)
  {
    var sent, l1, reply := DispatchIs(m, link, r, entry, wire, answered);
    SendRule(m, link, r, sent, l1, reply);
    match wire
    case RequestLost => SettleRule(link, sent, answered);
    case ReplyLost => LostReply(link, r, sent, answered, l1, reply, r1);
    case Delivered => DeliveredReply(link, r, sent, entry, answered, l1, reply, r1);
  }

  class Router {
    const osm: OSM.OrderBook
    const server: Server

    constructor (osm: OSM.OrderBook, server: Server)
      ensures this.osm == osm && this.server == server
    {
      this.osm, this.server := osm, server;
    }

    /** `wire` and `answered` are the network's choices. The order is reported as
        accepted exactly when the broker's acceptance arrived, or a lookup after
        the timeout found the order at the broker. */
    method Dispatch(rec: OSM.OrderRecord, entry: real, wire: Wire, answered: bool) returns (accepted: bool)
      modifies rec, server, server.broker
      ensures var before, was := old(Link(server.broker.State(), server.mt5Orders)), old(rec.Value());
              var (link, r) := DispatchOne(server.broker.market, before, was, entry, wire, answered);
              && Link(server.broker.State(), server.mt5Orders) == link && rec.Value() == r
              && (OSM.MarkSent(was).1 != OSM.Ok ==> !accepted)
              && (OSM.MarkSent(was).1 == OSM.Ok ==>
                    (accepted <==> if wire.Delivered? then Send(server.broker.market, before, was).1.Accepted?
                                   else r.state in {OSM.Acked, OSM.Partial, OSM.Filled}))
    {
      var sent := rec.Move(OSM.Sent);
      if sent != OSM.Ok {
        return false;
      }
      if wire.RequestLost? {
        accepted := SettleUnknown(rec, answered);
        return;
      }
      var reply := server.Mt5Order(rec.clientOrderId, rec.symbol, rec.direction, rec.requestedQty);
      if wire.ReplyLost? {
        accepted := SettleUnknown(rec, answered);
        return;
      }
      accepted := TakeReply(rec, reply, entry);
    }

    method TakeReply(rec: OSM.OrderRecord, reply: Reply, entry: real) returns (accepted: bool)
      modifies rec
      ensures rec.Value() == Received(old(rec.Value()), reply, entry) && accepted == reply.Accepted?
    {
      if reply.Refused? {
        var _ := osm.Reject(rec, "http_503");
        return false;
      }
      var _ := osm.Ack(rec, reply.id);
      if reply.filled > 0.0 {
        var _ := osm.Fill(rec, reply.filled, if reply.avg.Some? then reply.avg.value else entry);
      }
      return true;
    }

    method SettleUnknown(rec: OSM.OrderRecord, answered: bool) returns (accepted: bool)
      modifies rec
      ensures rec.Value() == Settle(Link(server.broker.State(), server.mt5Orders), old(rec.Value()), answered)
      ensures accepted <==> rec.state in {OSM.Acked, OSM.Partial, OSM.Filled}
    {
      var _ := rec.Move(OSM.Unknown);
      var found := server.Mt5Lookup(rec.clientOrderId);
      var _ := osm.ReconcileUnknown(rec, AsLookup(found, answered));
      return rec.state in {OSM.Acked, OSM.Partial, OSM.Filled};
    }
  }
}
