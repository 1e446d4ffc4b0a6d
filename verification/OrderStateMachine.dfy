/** One order's life: the legal transitions, the fill accounting that books
    before it checks the transition, reconciliation and retry. Functions describe
    a record as a value; the classes are proved to follow them. */
module OrderStateMachine {
  import opened Basics

  datatype OrderState =
    | Created | Sent | Acked | Partial | Filled | Rejected | Cancelled | Unknown | FailedNotPlaced

  predicate Terminal(s: OrderState) {
    s == Filled || s == Rejected || s == Cancelled || s == FailedNotPlaced
  }

  function Legal(s: OrderState): set<OrderState> {
    match s
    case Created => {Sent, FailedNotPlaced}
    case Sent => {Acked, Rejected, Unknown, Filled, Partial}
    case Acked => {Partial, Filled, Rejected, Cancelled, Unknown}
    case Partial => {Partial, Filled, Cancelled, Rejected, Unknown}
    case Unknown => {Acked, Partial, Filled, Rejected, Cancelled, FailedNotPlaced}
    case _ => {}
  }

  /** The table by where a step leads: the states each state is entered from. */
  function EnteredFrom(t: OrderState): set<OrderState> {
    match t
    case Created => {}
    case Sent => {Created}
    case Acked => {Sent, Unknown}
    case Partial => {Sent, Acked, Partial, Unknown}
    case Filled => {Sent, Acked, Partial, Unknown}
    case Rejected => {Sent, Acked, Partial, Unknown}
    case Cancelled => {Acked, Partial, Unknown}
    case Unknown => {Sent, Acked, Partial}
    case FailedNotPlaced => {Created, Unknown}
  }

  /** Nothing leaves a terminal state, every other state can be left, and none is
      entered but from the states above. */
  lemma {:induction false} TableIff(s: OrderState, t: OrderState)
    ensures t in Legal(s) <==> s in EnteredFrom(t)
    ensures Terminal(s) <==> forall u :: u !in Legal(s)
  {
    if !Terminal(s) {
      assert Sent in Legal(Created) && Filled in Legal(Sent) && Filled in Legal(Acked) && Filled in Legal(Partial)
             && Filled in Legal(Unknown);
    }
  }

  /** A filled quantity starts at zero and only grows. */
  type Qty = q: real | 0.0 <= q

  const EPS: real := 0.000000001

  /** `history` keeps the states of each entry, not its time and note. */
  datatype Record = Record(
    clientOrderId: string, symbol: Symbol, direction: Side, requestedQty: real, leg: Leg,
    state: OrderState, brokerOrderId: Option<nat>, filledQty: Qty, avgFillPrice: Option<real>,
    rejectReason: Option<string>, history: seq<(OrderState, OrderState)>)

  datatype Outcome = Ok | IllegalTransition | InvalidFill

  function NewRecord(id: string, s: Symbol, direction: Side, qty: real, leg: Leg): Record {
    Record(id, s, direction, qty, leg, Created, None, 0.0, None, None, [])
  }

  /** What no call changes about an order. */
  predicate SameTicket(r: Record, r1: Record) {
    r1.clientOrderId == r.clientOrderId && r1.symbol == r.symbol && r1.direction == r.direction
    && r1.requestedQty == r.requestedQty && r1.leg == r.leg
  }

  function Transition(r: Record, new_: OrderState): (o: (Record, Outcome))
    ensures SameTicket(r, o.0)
  {
    if new_ != r.state && new_ !in Legal(r.state) then (r, IllegalTransition)
    else (r.(state := new_, history := r.history + [(r.state, new_)]), Ok)
  }

  function MarkSent(r: Record): (o: (Record, Outcome))
    ensures SameTicket(r, o.0)
  {
    Transition(r, Sent)
  }

  function OnAck(r: Record, id: nat): (o: (Record, Outcome))
    ensures SameTicket(r, o.0)
  {
    if r.state == Acked && r.brokerOrderId == Some(id) then (r, Ok)
    else Transition(r.(brokerOrderId := Some(id)), Acked)
  }

  /** The volume-weighted price after one more fill. */
  function NewAverage(r: Record, qty: real, price: real): real
    requires qty > 0.0
  {
    var prev := if r.avgFillPrice.Some? then r.avgFillPrice.value else 0.0;
    (prev * r.filledQty + qty * price) / (r.filledQty + qty)
  }

  /** The fill a call would book, before the transition is checked. */
  predicate Bookable(r: Record, qty: real) {
    qty > 0.0 && r.filledQty + qty <= r.requestedQty + EPS
  }

  function OnFill(r: Record, qty: real, price: real): (o: (Record, Outcome))
    ensures SameTicket(r, o.0)
  {
    if !Bookable(r, qty) then (r, InvalidFill)
    else
      var r1 := r.(filledQty := r.filledQty + qty, avgFillPrice := Some(NewAverage(r, qty, price)));
      Transition(r1, if Abs(r1.filledQty - r1.requestedQty) <= EPS then Filled else Partial)
  }

  function OnReject(r: Record, reason: string): (o: (Record, Outcome))
    ensures SameTicket(r, o.0)
  {
    Transition(r.(rejectReason := Some(reason)), Rejected)
  }

  function OnCancel(r: Record): (o: (Record, Outcome))
    ensures SameTicket(r, o.0)
  {
    Transition(r, Cancelled)
  }

  function OnTimeout(r: Record): (o: (Record, Outcome))
    ensures SameTicket(r, o.0)
  {
    Transition(r, Unknown)
  }

  /** What the broker says about an order: the query failed, the broker has
      never heard of it, or its current state there. */
  datatype Lookup =
    | LookupFailed
    | Absent
    | Found(brokerOrderId: Option<nat>, status: string, filled: real, price: Option<real>, reason: Option<string>)

  function ReasonOr(reason: Option<string>): string {
    if reason.Some? then reason.value else "rejected at broker"
  }

  function Reconcile(r: Record, truth: Lookup): (o: (Record, Outcome))
    ensures SameTicket(r, o.0)
  {
    if r.state != Unknown then (r, IllegalTransition)
    else
      match truth
      case LookupFailed => (r.(history := r.history + [(Unknown, Unknown)]), Ok)
      case Absent => Transition(r, FailedNotPlaced)
      case Found(id, status, filled, price, reason) =>
        var r1 := r.(brokerOrderId := if id.Some? then id else r.brokerOrderId);
        if filled > r1.filledQty && price.Some? then
          OnFill(Transition(r1, Acked).0, filled - r1.filledQty, price.value)
        else if status == "acked" then Transition(r1, Acked)
        else if status == "rejected" then OnReject(r1, ReasonOr(reason))
        else if status == "cancelled" then Transition(r1, Cancelled)
        else (r1, Ok)
  }

  // ---------- the objects ----------

  class OrderRecord {
    const clientOrderId: string
    const symbol: Symbol
    const direction: Side
    const requestedQty: real
    const leg: Leg
    var state: OrderState
    var brokerOrderId: Option<nat>
    var filledQty: Qty
    var avgFillPrice: Option<real>
    var rejectReason: Option<string>
    var history: seq<(OrderState, OrderState)>

    function Value(): Record
      reads this
    {
      Record(clientOrderId, symbol, direction, requestedQty, leg, state, brokerOrderId, filledQty, avgFillPrice,
             rejectReason, history)
    }

    constructor (id: string, s: Symbol, direction: Side, qty: real, leg: Leg)
      ensures Value() == NewRecord(id, s, direction, qty, leg)
    {
      clientOrderId, symbol, this.direction, requestedQty, this.leg := id, s, direction, qty, leg;
      state, brokerOrderId, filledQty, avgFillPrice := Created, None, 0.0, None;
      rejectReason, history := None, [];
    }

    method Move(new_: OrderState) returns (r: Outcome)
      modifies this
      ensures (Value(), r) == Transition(old(Value()), new_)
    {
      if new_ != state && new_ !in Legal(state) {
        return IllegalTransition;
      }
      history := history + [(state, new_)];
      state := new_;
      return Ok;
    }
  }

  class OrderBook {
    var records: map<string, OrderRecord>
    var ids: seq<string>

    ghost predicate Valid()
      reads this
    {
      && (forall i :: i in ids <==> i in records)
      && (forall i :: i in records ==> records[i].clientOrderId == i)
    }

    /** The records in the order they were created. */
    ghost function Records(n: nat): seq<Record>
      requires Valid() && n <= |ids|
      reads this, records.Values
    {
      if n == 0 then []
      else
        assert ids[n - 1] in ids;
        Records(n - 1) + [records[ids[n - 1]].Value()]
    }

    constructor ()
      ensures Valid() && ids == []
    {
      records, ids := map[], [];
    }

    /** `id` stands for the fresh identifier the code draws. */
    method Create(id: string, s: Symbol, direction: Side, qty: real, leg: Leg) returns (rec: OrderRecord)
      requires Valid() && id !in records
      modifies this
      ensures Valid() && fresh(rec) && rec.Value() == NewRecord(id, s, direction, qty, leg)
      ensures records == old(records)[id := rec] && ids == old(ids) + [id]
    {
      rec := new OrderRecord(id, s, direction, qty, leg);
      records := records[id := rec];
      ids := ids + [id];
    }

    method Ack(rec: OrderRecord, id: nat) returns (r: Outcome)
      modifies rec
      ensures (rec.Value(), r) == OnAck(old(rec.Value()), id)
    {
      if rec.state == Acked && rec.brokerOrderId == Some(id) {
        return Ok;
      }
      rec.brokerOrderId := Some(id);
      r := rec.Move(Acked);
    }

    method Fill(rec: OrderRecord, qty: real, price: real) returns (r: Outcome)
      modifies rec
      ensures (rec.Value(), r) == OnFill(old(rec.Value()), qty, price)
    {
      if qty <= 0.0 {
        return InvalidFill;
      }
      var newFilled := rec.filledQty + qty;
      if newFilled > rec.requestedQty + EPS {
        return InvalidFill;
      }
      var average := NewAverage(rec.Value(), qty, price);
      rec.filledQty := newFilled;
      rec.avgFillPrice := Some(average);
      if Abs(rec.filledQty - rec.requestedQty) <= EPS {
        r := rec.Move(Filled);
      } else {
        r := rec.Move(Partial);
      }
    }

    method Reject(rec: OrderRecord, reason: string) returns (r: Outcome)
      modifies rec
      ensures (rec.Value(), r) == OnReject(old(rec.Value()), reason)
    {
      rec.rejectReason := Some(reason);
      r := rec.Move(Rejected);
    }

    method ReconcileUnknown(rec: OrderRecord, truth: Lookup) returns (r: Outcome)
      modifies rec
      ensures (rec.Value(), r) == Reconcile(old(rec.Value()), truth)
    {
      if rec.state != Unknown {
        return IllegalTransition;
      }
      match truth
      case LookupFailed =>
        rec.history := rec.history + [(Unknown, Unknown)];
        return Ok;
      case Absent =>
        r := rec.Move(FailedNotPlaced);
      case Found(id, status, filled, price, reason) =>
        if id.Some? {
          rec.brokerOrderId := id;
        }
        if filled > rec.filledQty && price.Some? {
          var qty := filled - rec.filledQty;
          var _ := rec.Move(Acked);
          r := Fill(rec, qty, price.value);
        } else if status == "acked" {
          r := rec.Move(Acked);
        } else if status == "rejected" {
          r := Reject(rec, ReasonOr(reason));
        } else if status == "cancelled" {
          r := rec.Move(Cancelled);
        } else {
          return Ok;
        }
    }

    /** `None` is RetryNotAllowed: only a proven absence may be retried. */
    method RetryAsNew(rec: OrderRecord, id: string) returns (fresh_: Option<OrderRecord>)
      requires Valid() && id !in records
      modifies this
      ensures Valid()
      ensures fresh_.Some? <==> rec.state == FailedNotPlaced
      ensures fresh_.None? ==> records == old(records) && ids == old(ids)
      ensures fresh_.Some? ==>
                && fresh(fresh_.value) && records == old(records)[id := fresh_.value] && ids == old(ids) + [id]
                && fresh_.value.Value() == Retried(rec.Value(), id)
    {
      if rec.state != FailedNotPlaced {
        return None;
      }
      var f := Create(id, rec.symbol, rec.direction, rec.requestedQty, rec.leg);
      f.history := f.history + [(Created, Created)];
      return Some(f);
    }

    method OpenExposure() returns (out: map<Symbol, real>)
      requires Valid()
      ensures forall s :: Net(Records(|ids|), s) == (if s in out then out[s] else 0.0)
    {
      out := map[];
      for i := 0 to |ids|
        invariant forall s :: Net(Records(i), s) == (if s in out then out[s] else 0.0)
      {
        assert ids[i] in ids;
        var rec := records[ids[i]];
        if rec.filledQty > 0.0 {
          var signed := Signed(rec.direction, rec.filledQty);
          out := out[rec.symbol := (if rec.symbol in out then out[rec.symbol] else 0.0) + signed];
        }
        NetNext(Records(i), rec.Value());
      }
    }
  }

  function Retried(r: Record, id: string): Record {
    NewRecord(id, r.symbol, r.direction, r.requestedQty, r.leg).(history := [(Created, Created)])
  }

  lemma {:induction false} NetNext(rs: seq<Record>, r: Record)
    ensures forall s :: Net(rs + [r], s) == Net(rs, s) + (if r.symbol == s && r.filledQty > 0.0
                                                          then Signed(r.direction, r.filledQty) else 0.0)
  {
    assert (rs + [r])[..|rs|] == rs;
  }

  /** Net filled quantity of the records in one symbol. */
  function Net(rs: seq<Record>, s: Symbol): real {
    if rs == [] then 0.0
    else
      var r := rs[|rs| - 1];
      Net(rs[..|rs| - 1], s) + (if r.symbol == s && r.filledQty > 0.0 then Signed(r.direction, r.filledQty) else 0.0)
  }
}
