/** What each call of the stop adapters does to the broker, on either leg and from any
    book whose resting ids increase, as in every reachable one: when it fails, which
    orders rest afterwards, and what was filled. */
module StopRules {
  import opened Basics
  import opened PaperBroker
  import opened StopAdapters
  import opened Ledger

  /** A stop is placed exactly for a positive quantity, on the exchange leg a whole one;
      it closes the trade's direction there and the open position on the MT5 leg. */
  lemma {:induction false} PlaceStopRule(m: Market, b: Book, leg: Leg, s: Symbol, qty: real, trigger: real,
                                         direction: Side)
    ensures var (b1, r) := PlaceStop(m, b, leg, s, qty, trigger, direction);
            var short := if leg.India? then direction.Sell? else Held(b, s) < 0.0;
            && (r.Some? <==> qty > 0.0 && (leg.India? ==> qty.Floor as real == qty))
            && (r.Some? ==> r.value == b.nextId && b1.fills == b.fills
                            && b1.open == b.open + [Order(b.nextId, s, if short then Buy else Sell, qty, trigger)])
            && (r.None? ==> b1 == b)
  {
  }

  lemma {:induction false} FoundIs(open: seq<Order>, i: nat)
    requires i < |open| && Increasing(open)
    ensures Find(open, open[i].id) == Some(open[i])
  {
    if i < |open| - 1 {
      FoundIs(open[..|open| - 1], i);
    }
  }

  lemma {:induction false} ModifyRule(b: Book, id: nat, trigger: real)
    requires Increasing(b.open)
    ensures var (b1, ok) := Modify(b, id, trigger);
            && (ok <==> Resting(b.open, id)) && b1 == b.(open := b1.open) && Increasing(b1.open)
            && |b1.open| == |b.open|
            && forall i :: 0 <= i < |b.open| ==>
                             b1.open[i] == if b.open[i].id == id then b.open[i].(trigger := trigger) else b.open[i]
  {
    forall i | 0 <= i < |b.open|
      ensures Find(b.open, b.open[i].id) == Some(b.open[i])
    {
      FoundIs(b.open, i);
    }
  }

  lemma {:induction false} SyncRule(b: Book, id: nat)
    requires Increasing(b.open)
    ensures var b1 := SyncQty(b, id);
            && b1 == b.(open := b1.open) && |b1.open| == |b.open|
            && forall i :: 0 <= i < |b.open| ==>
                             b1.open[i] == if b.open[i].id == id then Riding(b, b.open[i]) else b.open[i]
  {
    forall i | 0 <= i < |b.open|
      ensures Find(b.open, b.open[i].id) == Some(b.open[i])
    {
      FoundIs(b.open, i);
    }
  }

  /** The order, for no more than what is held of its symbol. */
  function Riding(b: Book, o: Order): Order {
    var held := Held(b, o.symbol);
    var size := if held < 0.0 then -held else held;
    if 0.0 < size < o.qty then o.(qty := size) else o
  }

  /** The resting orders after the one with this id was moved to the level. */
  predicate Moved(b: Book, leg: Leg, id: nat, trigger: real, open: seq<Order>) {
    && |open| == |b.open|
    && forall i :: 0 <= i < |open| ==>
                     open[i] == if b.open[i].id == id then MovedOrder(b, leg, b.open[i], trigger) else b.open[i]
  }

  function MovedOrder(b: Book, leg: Leg, o: Order, trigger: real): Order {
    if leg.India? then o.(trigger := trigger) else Riding(b, o.(trigger := trigger))
  }

  lemma {:induction false} ServerMoves(b: Book, leg: Leg, id: nat, trigger: real)
    requires Increasing(b.open) && trigger > 0.0 && !leg.India?
    ensures var (b1, ok) := ServerModify(b, id, trigger);
            (ok <==> Resting(b.open, id)) && b1 == b.(open := b1.open) && Moved(b, leg, id, trigger, b1.open)
  {
    var b2 := Modify(b, id, trigger).0;
    ModifyRule(b, id, trigger);
    SyncRule(b2, id);
    var b1 := SyncQty(b2, id);
    forall i | 0 <= i < |b.open|
      ensures b1.open[i] == if b.open[i].id == id then MovedOrder(b, leg, b.open[i], trigger) else b.open[i]
    {
      assert b1.open[i] == if b2.open[i].id == id then Riding(b2, b2.open[i]) else b2.open[i];
    }
  }

  /** A stop change succeeds exactly if the order rests. The order keeps its place; on
      the MT5 leg it shrinks to the position, and a level at or below zero cancels it. */
  lemma {:induction false} ModifyStopRule(b: Book, leg: Leg, id: nat, trigger: real)
    requires Increasing(b.open)
    ensures var (b1, ok) := ModifyStop(b, leg, id, trigger);
            && (ok <==> Resting(b.open, id)) && b1 == b.(open := b1.open)
            && if leg.India? || trigger > 0.0 then Moved(b, leg, id, trigger, b1.open)
               else forall o :: o in b1.open <==> o in b.open && o.id != id
  {
    if leg.India? {
      ModifyRule(b, id, trigger);
    } else if trigger > 0.0 {
      ServerMoves(b, leg, id, trigger);
    } else {
      CancelRule(b, id);
    }
  }

  lemma {:induction false} CancelRule(b: Book, id: nat)
    ensures var (b1, ok) := Cancel(b, id);
            && (ok <==> Resting(b.open, id)) && b1 == b.(open := b1.open)
            && forall o :: o in b1.open <==> o in b.open && o.id != id
  {
  }

  /** On either leg a cancellation succeeds exactly if the order rests. */
  lemma {:induction false} CancelStopRule(b: Book, leg: Leg, id: nat)
    ensures var (b1, ok) := CancelStop(b, leg, id);
            && (ok <==> Resting(b.open, id)) && b1 == b.(open := b1.open)
            && forall o :: o in b1.open <==> o in b.open && o.id != id
  {
    CancelRule(b, id);
  }

  /** Re-placing a stop fails exactly if the old one no longer rests, or the exchange
      leg would not take the new one; the exchange leg has cancelled by then. */
  lemma {:induction false} ReplaceStopRule(m: Market, b: Book, leg: Leg, oldId: nat, s: Symbol, qty: real,
                                           trigger: real, direction: Side)
    requires Increasing(b.open)
    ensures var (b1, r) := ReplaceStop(m, b, leg, oldId, s, qty, trigger, direction);
            && (r.Some? <==> Resting(b.open, oldId) && (leg.India? ==> qty > 0.0 && qty.Floor as real == qty))
            && (r.Some? ==> r.value == if leg.India? then b.nextId else oldId)
            && (r.None? && !leg.India? ==> b1 == b)
            && (leg.India? ==>
                  forall o :: o in b1.open <==>
                              (o in b.open && o.id != oldId)
                              || (r.Some? && o == Order(b.nextId, s, Closing(direction), qty, trigger)))
  {
    if leg.India? {
      CancelStopRule(b, leg, oldId);
      PlaceStopRule(m, CancelStop(b, leg, oldId).0, leg, s, qty, trigger, direction);
    } else {
      ModifyStopRule(b, leg, oldId, trigger);
    }
  }

  /** A market close. On the exchange leg it succeeds exactly if one fill of the whole
      quantity was added, on the MT5 leg always. */
  lemma {:induction false} ExitMarketRule(m: Market, b: Book, leg: Leg, s: Symbol, qty: real, direction: Side)
    ensures var (b1, ok) := ExitMarket(m, b, leg, s, qty, direction);
            var side := if (if leg.India? then direction.Sell? else Held(b, s) < 0.0) then Buy else Sell;
            var filled := qty > 0.0 && s in b.last && (side.Buy? ==> qty * b.last[s] <= b.cash)
                          && (leg.India? ==> qty.Floor as real == qty);
            && (ok <==> filled || !leg.India?)
            && |b1.fills| == |b.fills| + (if filled then 1 else 0) && b1.fills[..|b.fills|] == b.fills
            && (filled ==> var f := b1.fills[|b.fills|]; f.symbol == s && f.action == side && f.qty == qty)
            && b1.open == b.open
  {
  }
}
