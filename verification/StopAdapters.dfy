/** The paper server's MT5 handlers and the two stop adapters on top of them.
    The exit engine reaches the broker only through `PlaceStop` .. `ExitMarket`;
    a result that stands for a raised exception is `None` or `false`. */
module StopAdapters {
  import opened Basics
  import opened PaperBroker

  // ---------- the MT5 side of the paper server ----------

  /** Against the open position; SELL when flat. */
  function ClosingAction(b: Book, s: Symbol): Side {
    if Held(b, s) < 0.0 then Buy else Sell
  }

  function ReplyId(r: Reply): Option<nat> {
    if r.Accepted? then Some(r.id) else None
  }

  function ServerStop(m: Market, b: Book, s: Symbol, lots: real, sl: real): (Book, Option<nat>) {
    var (b1, reply) := Place(m, b, Payload(s, ClosingAction(b, s), lots, StopMarket(sl)));
    (b1, ReplyId(reply))
  }

  /** The stop rides the position: never larger than what is still held. */
  function SyncQty(b: Book, id: nat): Book {
    match Find(b.open, id)
    case None => b
    case Some(o) =>
      var held := Abs(Held(b, o.symbol));
      if held > 0.0 then Resize(b, id, Min(o.qty, held)) else b
  }

  function ServerModify(b: Book, id: nat, sl: real): (Book, bool) {
    if sl <= 0.0 then Cancel(b, id)
    else
      var (b1, ok) := Modify(b, id, sl);
      (SyncQty(b1, id), ok)
  }

  function ServerClose(m: Market, b: Book, s: Symbol, lots: real): (Book, bool) {
    var (b1, reply) := Place(m, b, Payload(s, ClosingAction(b, s), lots, AtMarket));
    (b1, reply.Accepted?)
  }

  class Server {
    const broker: Broker
    var mt5Orders: map<string, Reply>

    constructor (broker: Broker)
      ensures this.broker == broker && mt5Orders == map[] && OnlyAccepted()
    {
      this.broker := broker;
      mt5Orders := map[];
    }

    /** Only accepted orders are on record. */
    ghost predicate OnlyAccepted()
      reads this
    {
      forall id :: id in mt5Orders ==> mt5Orders[id].Accepted?
    }

    /** POST /order. A refusal (503) leaves no trace in `mt5Orders`. */
    method Mt5Order(clientOrderId: string, symbol: Symbol, direction: Side, qty: real) returns (r: Reply)
      modifies this, broker
      ensures (broker.State(), r)
           == Place(broker.market, old(broker.State()), Payload(symbol, direction, qty, AtMarket))
      ensures mt5Orders == if r.Accepted? then old(mt5Orders)[clientOrderId := r] else old(mt5Orders)
      ensures old(OnlyAccepted()) ==> OnlyAccepted()
    {
      r := broker.PlaceOrder(Payload(symbol, direction, qty, AtMarket));
      if r.Accepted? {
        mt5Orders := mt5Orders[clientOrderId := r];
      }
    }

    /** GET /order/{id}: the reply that was given when the order was accepted; 404
        (`None`) says that no order with this id ever was. */
    method Mt5Lookup(clientOrderId: string) returns (r: Option<Reply>)
      ensures r.None? <==> clientOrderId !in mt5Orders
      ensures r.Some? ==> mt5Orders[clientOrderId] == r.value && (OnlyAccepted() ==> r.value.Accepted?)
    {
      if clientOrderId in mt5Orders {
        return Some(mt5Orders[clientOrderId]);
      }
      return None;
    }

    method Mt5Stop(symbol: Symbol, lots: real, sl: real) returns (r: Option<nat>)
      modifies broker
      ensures (broker.State(), r) == ServerStop(broker.market, old(broker.State()), symbol, lots, sl)
    {
      var reply := broker.PlaceOrder(
        Payload(symbol, ClosingAction(broker.State(), symbol), lots, StopMarket(sl)));
      return ReplyId(reply);
    }

    method Mt5Modify(id: nat, sl: real) returns (ok: bool)
      modifies broker
      ensures (broker.State(), ok) == ServerModify(old(broker.State()), id, sl)
    {
      if sl <= 0.0 {
        ok := broker.CancelOrder(id);
      } else {
        ok := broker.ModifyOrder(id, sl);
        var order := Find(broker.openOrders, id);
        if order.Some? {
          var held := Abs(Held(broker.State(), order.value.symbol));
          if held > 0.0 {
            broker.ResizeOrder(id, Min(order.value.qty, held));
          }
        }
      }
    }

    method Mt5Close(symbol: Symbol, lots: real) returns (ok: bool)
      modifies broker
      ensures (broker.State(), ok) == ServerClose(broker.market, old(broker.State()), symbol, lots)
    {
      var reply := broker.PlaceOrder(
        Payload(symbol, ClosingAction(broker.State(), symbol), lots, AtMarket));
      return reply.Accepted?;
    }
  }

  // ---------- the adapters, by leg ----------

  /** The exchange accepts whole quantities only. */
  predicate Whole(qty: real) {
    qty.Floor as real == qty
  }

  function PlaceStop(m: Market, b: Book, leg: Leg, s: Symbol, qty: real, trigger: real, direction: Side)
    : (Book, Option<nat>)
  {
    if leg.India? then
      if !Whole(qty) then (b, None)
      else
        var (b1, reply) := Place(m, b, Payload(s, Closing(direction), qty, StopMarket(trigger)));
        (b1, ReplyId(reply))
    else ServerStop(m, b, s, qty, trigger)
  }

  function ModifyStop(b: Book, leg: Leg, id: nat, trigger: real): (Book, bool) {
    if leg.India? then Modify(b, id, trigger) else ServerModify(b, id, trigger)
  }

  function CancelStop(b: Book, leg: Leg, id: nat): (Book, bool) {
    if leg.India? then Cancel(b, id) else ServerModify(b, id, 0.0)
  }

  /** India cancels and places anew; MT5 keeps the id and lets the server
      shrink the stop to the position. */
  function ReplaceStop(m: Market, b: Book, leg: Leg, oldId: nat, s: Symbol, qty: real, trigger: real,
                       direction: Side): (Book, Option<nat>)
  {
    if leg.India? then
      var (b1, ok) := CancelStop(b, leg, oldId);
      if !ok then (b1, None) else PlaceStop(m, b1, leg, s, qty, trigger, direction)
    else
      var (b1, ok) := ServerModify(b, oldId, trigger);
      (b1, if ok then Some(oldId) else None)
  }

  /** A refused order raises on the india leg and is swallowed on the MT5 leg. */
  function ExitMarket(m: Market, b: Book, leg: Leg, s: Symbol, qty: real, direction: Side): (Book, bool) {
    if leg.India? then
      if !Whole(qty) then (b, false)
      else
        var (b1, reply) := Place(m, b, Payload(s, Closing(direction), qty, AtMarket));
        (b1, reply.Accepted?)
    else (ServerClose(m, b, s, qty).0, true)
  }

  class Adapter {
    const server: Server
    const broker: Broker

    ghost predicate Valid() {
      broker == server.broker
    }

    constructor (server: Server)
      ensures Valid() && this.server == server && broker == server.broker
    {
      this.server := server;
      this.broker := server.broker;
    }

    method Place(symbol: Symbol, qty: real, trigger: real, leg: Leg, direction: Side) returns (r: Option<nat>)
      requires Valid()
      modifies broker
      ensures (broker.State(), r)
           == PlaceStop(broker.market, old(broker.State()), leg, symbol, qty, trigger, direction)
    {
      if leg.India? {
        if !Whole(qty) {
          return None;
        }
        var reply := broker.PlaceOrder(Payload(symbol, Closing(direction), qty, StopMarket(trigger)));
        return ReplyId(reply);
      }
      r := server.Mt5Stop(symbol, qty, trigger);
    }

    method Modify(id: nat, trigger: real, leg: Leg) returns (ok: bool)
      requires Valid()
      modifies broker
      ensures (broker.State(), ok) == ModifyStop(old(broker.State()), leg, id, trigger)
    {
      if leg.India? {
        ok := broker.ModifyOrder(id, trigger);
      } else {
        ok := server.Mt5Modify(id, trigger);
      }
    }

    method Cancel(id: nat, leg: Leg) returns (ok: bool)
      requires Valid()
      modifies broker
      ensures (broker.State(), ok) == CancelStop(old(broker.State()), leg, id)
    {
      if leg.India? {
        ok := broker.CancelOrder(id);
      } else {
        ok := server.Mt5Modify(id, 0.0);
      }
    }

    method Replace(oldId: nat, symbol: Symbol, qty: real, trigger: real, leg: Leg, direction: Side)
      returns (r: Option<nat>)
      requires Valid()
      modifies broker
      ensures (broker.State(), r)
           == ReplaceStop(broker.market, old(broker.State()), leg, oldId, symbol, qty, trigger, direction)
    {
      if leg.India? {
        var ok := Cancel(oldId, leg);
        if !ok {
          return None;
        }
        r := Place(symbol, qty, trigger, leg, direction);
      } else {
        var ok := server.Mt5Modify(oldId, trigger);
        return if ok then Some(oldId) else None;
      }
    }

    method Exit(symbol: Symbol, qty: real, leg: Leg, direction: Side) returns (ok: bool)
      requires Valid()
      modifies broker
      ensures (broker.State(), ok)
           == ExitMarket(broker.market, old(broker.State()), leg, symbol, qty, direction)
    {
      if leg.India? {
        if !Whole(qty) {
          return false;
        }
        var reply := broker.PlaceOrder(Payload(symbol, Closing(direction), qty, AtMarket));
        return reply.Accepted?;
      }
      var _ := server.Mt5Close(symbol, qty);
      return true;
    }
  }
}
