/** Fill accounting over any sequence of lifecycle calls on one order, the
    refused ones included. */
module OrderAccounting {
  import opened Basics
  import opened OrderStateMachine

  datatype Call =
    | SendCall | AckCall(id: nat) | FillCall(qty: real, price: real) | RejectCall(reason: string)
    | CancelCall | TimeoutCall | ReconcileCall(truth: Lookup)

  function Do(r: Record, c: Call): (Record, Outcome) {
    match c
    case SendCall => MarkSent(r)
    case AckCall(id) => OnAck(r, id)
    case FillCall(qty, price) => OnFill(r, qty, price)
    case RejectCall(reason) => OnReject(r, reason)
    case CancelCall => OnCancel(r)
    case TimeoutCall => OnTimeout(r)
    case ReconcileCall(truth) => Reconcile(r, truth)
  }

  datatype Exec = Exec(qty: real, price: real)

  /** The fill a call books, whether or not the call is then refused. */
  function BookedBy(r: Record, c: Call): seq<Exec> {
    match c
    case FillCall(qty, price) => if Bookable(r, qty) then [Exec(qty, price)] else []
    case ReconcileCall(Found(_, _, filled, price, _)) =>
      if r.state == Unknown && price.Some? && Bookable(r, filled - r.filledQty) then
        [Exec(filled - r.filledQty, price.value)]
      else []
    case _ => []
  }

  function DoAll(r: Record, cs: seq<Call>): Record {
    if cs == [] then r else Do(DoAll(r, cs[..|cs| - 1]), cs[|cs| - 1]).0
  }

  function Booked(r: Record, cs: seq<Call>): seq<Exec> {
    if cs == [] then []
    else Booked(r, cs[..|cs| - 1]) + BookedBy(DoAll(r, cs[..|cs| - 1]), cs[|cs| - 1])
  }

  function TotalQty(xs: seq<Exec>): real {
    if xs == [] then 0.0 else TotalQty(xs[..|xs| - 1]) + xs[|xs| - 1].qty
  }

  function Notional(xs: seq<Exec>): real {
    if xs == [] then 0.0 else Notional(xs[..|xs| - 1]) + xs[|xs| - 1].qty * xs[|xs| - 1].price
  }

  /** All booked prices lie between lo and hi. */
  predicate Between(xs: seq<Exec>, lo: real, hi: real) {
    forall x :: x in xs ==> lo <= x.price <= hi
  }

  ghost predicate Accounted(r: Record, xs: seq<Exec>) {
    && r.filledQty == TotalQty(xs)
    && (forall x :: x in xs ==> x.qty > 0.0)
    && (xs == [] <==> r.avgFillPrice.None?)
    && (r.avgFillPrice.Some? ==> r.avgFillPrice.value * r.filledQty == Notional(xs))
    && (xs != [] ==> 0.0 < r.filledQty <= r.requestedQty + EPS)
    && (r.state == Filled ==> Abs(r.filledQty - r.requestedQty) <= EPS)
  }

  lemma {:induction false} FillAccounted(r: Record, xs: seq<Exec>, qty: real, price: real)
    requires Accounted(r, xs) && Bookable(r, qty)
    ensures Accounted(OnFill(r, qty, price).0, xs + [Exec(qty, price)])
  {
    var ys := xs + [Exec(qty, price)];
    assert ys[..|ys| - 1] == xs;
    var r1 := OnFill(r, qty, price).0;
    var prev := if r.avgFillPrice.Some? then r.avgFillPrice.value else 0.0;
    assert prev * r.filledQty == Notional(xs);
    DivMul(prev * r.filledQty + qty * price, r.filledQty + qty);
    assert NewAverage(r, qty, price) * (r.filledQty + qty) == Notional(ys);
  }

  /** The record a reconciling fill is booked on. */
  function Adopted(r: Record, id: Option<nat>): Record
    requires r.state == Unknown
  {
    r.(brokerOrderId := if id.Some? then id else r.brokerOrderId, state := Acked,
       history := r.history + [(Unknown, Acked)])
  }

  predicate Fills(r: Record, truth: Lookup) {
    r.state == Unknown && truth.Found? && truth.price.Some? && truth.filled > r.filledQty
  }

  lemma {:induction false} ReconcileByFill(r: Record, truth: Lookup)
    requires Fills(r, truth)
    ensures Reconcile(r, truth)
         == OnFill(Adopted(r, truth.brokerOrderId), truth.filled - r.filledQty, truth.price.value)
  {
  }

  lemma {:induction false} ReconcileWithoutFill(r: Record, xs: seq<Exec>, truth: Lookup)
    requires Accounted(r, xs) && !Fills(r, truth)
    ensures Accounted(Reconcile(r, truth).0, xs)
  {
  }

  lemma {:induction false} ReconcileWithFill(r: Record, xs: seq<Exec>, truth: Lookup)
    requires Accounted(r, xs) && Fills(r, truth)
    ensures Accounted(Reconcile(r, truth).0, xs + BookedBy(r, ReconcileCall(truth)))
  {
    ReconcileByFill(r, truth);
    ReconcileBooks(r, truth);
    AdoptedFillAccounted(r, xs, truth.brokerOrderId, truth.filled - r.filledQty, truth.price.value);
  }

  lemma {:induction false} ReconcileBooks(r: Record, truth: Lookup)
    requires Fills(r, truth)
    ensures var qty := truth.filled - r.filledQty;
            BookedBy(r, ReconcileCall(truth)) == if Bookable(r, qty) then [Exec(qty, truth.price.value)] else []
  {
  }

  lemma {:induction false} AdoptedFillAccounted(r: Record, xs: seq<Exec>, id: Option<nat>, qty: real, price: real)
    requires Accounted(r, xs) && r.state == Unknown
    ensures Accounted(OnFill(Adopted(r, id), qty, price).0, xs + (if Bookable(r, qty) then [Exec(qty, price)] else []))
  {
    var r1 := Adopted(r, id);
    assert Accounted(r1, xs);
    assert xs + [] == xs;
    if Bookable(r1, qty) {
      FillAccounted(r1, xs, qty, price);
    }
  }

  lemma {:induction false} ReconcileAccounted(r: Record, xs: seq<Exec>, truth: Lookup)
    requires Accounted(r, xs)
    ensures Accounted(Reconcile(r, truth).0, xs + BookedBy(r, ReconcileCall(truth)))
  {
    if Fills(r, truth) {
      ReconcileWithFill(r, xs, truth);
    } else {
      ReconcileWithoutFill(r, xs, truth);
      assert xs + [] == xs;
    }
  }

  lemma {:induction false} CallAccounted(r: Record, xs: seq<Exec>, c: Call)
    requires Accounted(r, xs)
    ensures Accounted(Do(r, c).0, xs + BookedBy(r, c))
  {
    assert xs + [] == xs;
    match c
    case FillCall(qty, price) =>
      if Bookable(r, qty) {
        FillAccounted(r, xs, qty, price);
      }
    case ReconcileCall(truth) =>
      ReconcileAccounted(r, xs, truth);
    case _ =>
  }

  lemma {:induction false} ExtendBounds(lo: real, hi: real, qty: real, notional: real, x: Exec)
    requires lo * qty <= notional <= hi * qty && lo <= x.price <= hi && x.qty > 0.0
    ensures lo * (qty + x.qty) <= notional + x.qty * x.price <= hi * (qty + x.qty)
  {
    MulMono(lo, x.price, x.qty);
    MulMono(x.price, hi, x.qty);
    Distribute(qty, x.qty, lo);
    Distribute(qty, x.qty, hi);
  }

  lemma {:induction false} NotionalBetween(xs: seq<Exec>, lo: real, hi: real)
    requires Between(xs, lo, hi) && forall x :: x in xs ==> x.qty > 0.0
    ensures lo * TotalQty(xs) <= Notional(xs) <= hi * TotalQty(xs)
  {
    if xs != [] {
      var init, x := xs[..|xs| - 1], xs[|xs| - 1];
      assert x in xs && forall y :: y in init ==> y in xs;
      NotionalBetween(init, lo, hi);
      var qty, notional := TotalQty(init), Notional(init);
      ExtendBounds(lo, hi, qty, notional, x);
      assert TotalQty(xs) == qty + x.qty && Notional(xs) == notional + x.qty * x.price;
    }
  }

  lemma {:induction false} AverageBetween(r: Record, xs: seq<Exec>, lo: real, hi: real)
    requires Accounted(r, xs) && xs != [] && Between(xs, lo, hi)
    ensures lo <= r.avgFillPrice.value <= hi
  {
    NotionalBetween(xs, lo, hi);
    var avg, q := r.avgFillPrice.value, r.filledQty;
    if avg < lo {
      MulMonoStrict(avg, lo, q);
    } else if avg > hi {
      MulMonoStrict(hi, avg, q);
    }
  }

  /** Over any calls on a new order: the filled quantity is the sum of what was
      booked and the average its volume-weighted price, between any bounds on
      the booked prices; it never exceeds the request by more than the
      tolerance; FILLED means filled. */
  lemma {:induction false} OrderIsAccounted(r: Record, cs: seq<Call>)
    requires r == NewRecord(r.clientOrderId, r.symbol, r.direction, r.requestedQty, r.leg)
    ensures Accounted(DoAll(r, cs), Booked(r, cs))
    ensures forall lo, hi :: Booked(r, cs) != [] && Between(Booked(r, cs), lo, hi) ==>
                               lo <= DoAll(r, cs).avgFillPrice.value <= hi
  {
    if cs != [] {
      OrderIsAccounted(r, cs[..|cs| - 1]);
      CallAccounted(DoAll(r, cs[..|cs| - 1]), Booked(r, cs[..|cs| - 1]), cs[|cs| - 1]);
    }
    forall lo, hi | Booked(r, cs) != [] && Between(Booked(r, cs), lo, hi)
      ensures lo <= DoAll(r, cs).avgFillPrice.value <= hi
    {
      AverageBetween(DoAll(r, cs), Booked(r, cs), lo, hi);
    }
  }

  lemma {:induction false} CallOnlyGrows(r: Record, c: Call)
    ensures Do(r, c).0.filledQty >= r.filledQty
    ensures Terminal(r.state) ==> Do(r, c).0.state == r.state
  {
  }

  /** Whatever is called on it next, an order's filled quantity never falls and a
      terminal order stays in its state - though a late fill on a cancelled or
      rejected order is still booked. */
  lemma {:induction false} FillsOnlyGrowAndTerminalStays(r: Record, cs: seq<Call>)
    ensures DoAll(r, cs).filledQty >= r.filledQty
    ensures Terminal(r.state) ==> DoAll(r, cs).state == r.state
  {
    if cs != [] {
      FillsOnlyGrowAndTerminalStays(r, cs[..|cs| - 1]);
      CallOnlyGrows(DoAll(r, cs[..|cs| - 1]), cs[|cs| - 1]);
    }
  }

  /** The states no fill may move an order out of, nor FILLED within itself. */
  predicate RefusesFills(s: OrderState) {
    s == Created || s == Cancelled || s == Rejected || s == FailedNotPlaced
  }

  /** On an accounted order a fill is refused as an illegal transition exactly when
      it is bookable and the order was never sent or was closed without being
      filled - and then it is counted all the same: the books follow the broker,
      the state does not. */
  lemma {:induction false} RefusedFillIsBookedIff(r: Record, xs: seq<Exec>, qty: real, price: real)
    requires Accounted(r, xs)
    ensures OnFill(r, qty, price).1 == IllegalTransition <==> Bookable(r, qty) && RefusesFills(r.state)
    ensures OnFill(r, qty, price).1 == IllegalTransition ==>
              var r1 := OnFill(r, qty, price).0;
              r1.state == r.state && r1.filledQty == r.filledQty + qty && Accounted(r1, xs + [Exec(qty, price)])
  {
    if Bookable(r, qty) {
      FillAccounted(r, xs, qty, price);
      if r.state == Filled {
        TopUpStaysFilled(r, qty, price);
      }
    }
  }

  /** A fill on a FILLED order can only use up the tolerance. */
  lemma {:induction false} TopUpStaysFilled(r: Record, qty: real, price: real)
    requires r.state == Filled && Abs(r.filledQty - r.requestedQty) <= EPS && Bookable(r, qty)
    ensures OnFill(r, qty, price).1 == Ok && OnFill(r, qty, price).0.state == Filled
  {
    assert Abs(r.filledQty + qty - r.requestedQty) <= EPS;
  }

  // ---------- which calls are taken when ----------

  /** The states a call is taken in; repeating the state it leads to is one of them. */
  function TakenIn(c: Call): set<OrderState> {
    match c
    case SendCall => {Created, Sent}
    case AckCall(_) => {Sent, Acked, Unknown}
    case FillCall(_, _) => {Sent, Acked, Partial, Unknown, Filled}
    case RejectCall(_) => {Sent, Acked, Partial, Unknown, Rejected}
    case CancelCall => {Acked, Partial, Unknown, Cancelled}
    case TimeoutCall => {Sent, Acked, Partial, Unknown}
    case ReconcileCall(_) => {Unknown}
  }

  /** The state a call leads to where it is taken. */
  function LeadsTo(r: Record, c: Call): OrderState {
    match c
    case SendCall => Sent
    case AckCall(_) => Acked
    case FillCall(qty, _) =>
      var short := r.requestedQty - (r.filledQty + qty);
      if -0.000000001 <= short <= 0.000000001 then Filled else Partial
    case RejectCall(_) => Rejected
    case CancelCall => Cancelled
    case TimeoutCall => Unknown
    case ReconcileCall(truth) => Reconciled(r, truth)
  }

  /** The broker has filled more than the record has, and names a price. */
  predicate NewsOfFills(r: Record, truth: Lookup) {
    truth.Found? && truth.price.Some? && truth.filled > r.filledQty
  }

  /** What the broker says becomes the state: fills first, as long as they are not more
      than was asked for, then the status. */
  function Reconciled(r: Record, truth: Lookup): OrderState {
    match truth
    case LookupFailed => Unknown
    case Absent => FailedNotPlaced
    case Found(_, status, filled, _, _) =>
      if NewsOfFills(r, truth) then
        if filled > r.requestedQty + 0.000000001 then Acked
        else if filled < r.requestedQty - 0.000000001 then Partial else Filled
      else if status == "acked" then Acked
      else if status == "rejected" then Rejected
      else if status == "cancelled" then Cancelled else Unknown
  }

  /** A fill that is not positive or exceeds the request is invalid in any state. */
  predicate InvalidCall(r: Record, c: Call) {
    match c
    case FillCall(qty, _) => qty <= 0.0 || r.filledQty + qty > r.requestedQty + 0.000000001
    case ReconcileCall(truth) =>
      r.state == Unknown && NewsOfFills(r, truth) && truth.filled > r.requestedQty + 0.000000001
    case _ => false
  }

  lemma {:induction false} FillRule(r: Record, xs: seq<Exec>, qty: real, price: real)
    requires Accounted(r, xs)
    ensures var (r1, o) := OnFill(r, qty, price);
            var call := FillCall(qty, price);
            && (o == InvalidFill <==> InvalidCall(r, call))
            && (o == Ok <==> !InvalidCall(r, call) && r.state in TakenIn(call))
            && r1.state == if o == Ok then LeadsTo(r, call) else r.state
  {
    if Bookable(r, qty) && r.state == Filled {
      TopUpStaysFilled(r, qty, price);
    }
  }

  lemma {:induction false} ReconcileRule(r: Record, truth: Lookup)
    ensures var (r1, o) := Reconcile(r, truth);
            && (o == InvalidFill <==> InvalidCall(r, ReconcileCall(truth)))
            && (o == IllegalTransition <==> r.state != Unknown)
            && r1.state == if r.state == Unknown then Reconciled(r, truth) else r.state
  {
    if Fills(r, truth) {
      ReconcileByFill(r, truth);
    }
  }

  /** On an accounted order: when a call is invalid, when it is refused, and the state
      it leads to otherwise. */
  lemma {:induction false} CallRule(r: Record, xs: seq<Exec>, c: Call)
    requires Accounted(r, xs)
    ensures var (r1, o) := Do(r, c);
            && (o == InvalidFill <==> InvalidCall(r, c))
            && (o == Ok <==> !InvalidCall(r, c) && r.state in TakenIn(c))
            && (r1.state == if o == Ok || (c.ReconcileCall? && r.state == Unknown) then LeadsTo(r, c) else r.state)
  {
    match c
    case FillCall(qty, price) => FillRule(r, xs, qty, price);
    case ReconcileCall(truth) => ReconcileRule(r, truth);
    case _ =>
  }

  /** What the record knows besides: the broker's id from an acknowledgement or a
      lookup, and why it was rejected - told, or else looked up. Both are noted even
      where the call is then refused. */
  lemma {:induction false} NotesRule(r: Record, c: Call)
    ensures var r1 := Do(r, c).0;
            && r1.brokerOrderId == (match c
                                    case AckCall(id) => Some(id)
                                    case ReconcileCall(Found(Some(id), _, _, _, _)) =>
                                      if r.state == Unknown then Some(id) else r.brokerOrderId
                                    case _ => r.brokerOrderId)
            && r1.rejectReason == (match c
                                   case RejectCall(reason) => Some(reason)
                                   case ReconcileCall(Found(_, "rejected", _, _, reason)) =>
                                     if r.state != Unknown || NewsOfFills(r, c.truth) then r.rejectReason
                                     else if reason.Some? then reason else Some("rejected at broker")
                                   case _ => r.rejectReason)
  {
    if c.ReconcileCall? && Fills(r, c.truth) {
      ReconcileByFill(r, c.truth);
    }
  }

  /** The history is a walk from CREATED to the state the order is in. */
  predicate Walk(h: seq<(OrderState, OrderState)>, s: OrderState) {
    if h == [] then s == Created
    else h[|h| - 1].1 == s && Walk(h[..|h| - 1], h[|h| - 1].0)
  }

  /** The steps of the walk are those of the table. */
  predicate LegalSteps(h: seq<(OrderState, OrderState)>) {
    forall step :: step in h ==> step.1 == step.0 || step.1 in Legal(step.0)
  }

  lemma {:induction false} WalkOn(h: seq<(OrderState, OrderState)>, s: OrderState, t: OrderState)
    requires Walk(h, s) && LegalSteps(h) && (t == s || t in Legal(s))
    ensures Walk(h + [(s, t)], t) && LegalSteps(h + [(s, t)])
  {
    assert (h + [(s, t)])[..|h|] == h;
  }

  lemma {:induction false} TransitionWalks(r: Record, t: OrderState)
    requires Walk(r.history, r.state) && LegalSteps(r.history)
    ensures var r1 := Transition(r, t).0; Walk(r1.history, r1.state) && LegalSteps(r1.history)
  {
    if t == r.state || t in Legal(r.state) {
      WalkOn(r.history, r.state, t);
    }
  }

  lemma {:induction false} FillWalks(r: Record, qty: real, price: real)
    requires Walk(r.history, r.state) && LegalSteps(r.history)
    ensures var r1 := OnFill(r, qty, price).0; Walk(r1.history, r1.state) && LegalSteps(r1.history)
  {
    if Bookable(r, qty) {
      var r1 := r.(filledQty := r.filledQty + qty, avgFillPrice := Some(NewAverage(r, qty, price)));
      TransitionWalks(r1, Filled);
      TransitionWalks(r1, Partial);
    }
  }

  lemma {:induction false} ReconcileWalks(r: Record, truth: Lookup)
    requires Walk(r.history, r.state) && LegalSteps(r.history)
    ensures var r1 := Reconcile(r, truth).0; Walk(r1.history, r1.state) && LegalSteps(r1.history)
  {
    if Fills(r, truth) {
      ReconcileByFill(r, truth);
      WalkOn(r.history, Unknown, Acked);
      FillWalks(Adopted(r, truth.brokerOrderId), truth.filled - r.filledQty, truth.price.value);
    } else if r.state == Unknown {
      WalkOn(r.history, Unknown, Reconciled(r, truth));
    }
  }

  lemma {:induction false} CallWalks(r: Record, c: Call)
    requires Walk(r.history, r.state) && LegalSteps(r.history)
    ensures var r1 := Do(r, c).0; Walk(r1.history, r1.state) && LegalSteps(r1.history)
  {
    match c
    case SendCall => TransitionWalks(r, Sent);
    case AckCall(id) => TransitionWalks(r.(brokerOrderId := Some(id)), Acked);
    case FillCall(qty, price) => FillWalks(r, qty, price);
    case RejectCall(reason) => TransitionWalks(r.(rejectReason := Some(reason)), Rejected);
    case CancelCall => TransitionWalks(r, Cancelled);
    case TimeoutCall => TransitionWalks(r, Unknown);
    case ReconcileCall(truth) => ReconcileWalks(r, truth);
  }

  /** After any calls on a new order its history is a walk through the table from
      CREATED to the state it is in. */
  lemma {:induction false} HistoryIsAWalk(r: Record, cs: seq<Call>)
    requires r == NewRecord(r.clientOrderId, r.symbol, r.direction, r.requestedQty, r.leg)
    ensures Walk(DoAll(r, cs).history, DoAll(r, cs).state) && LegalSteps(DoAll(r, cs).history)
  {
    if cs != [] {
      HistoryIsAWalk(r, cs[..|cs| - 1]);
      CallWalks(DoAll(r, cs[..|cs| - 1]), cs[|cs| - 1]);
    }
  }
}
