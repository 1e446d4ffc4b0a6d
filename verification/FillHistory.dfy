/** Where every fill in the broker's log came from, and at what price and cost: a
    market order filled at the last price, or a resting stop fired by a tick. */
module FillHistory {
  import opened Basics
  import opened PaperBroker
  import opened StopAdapters
  import opened Ledger

  /** The price is the reference moved by the impact of the fill's own symbol and
      quantity, up for a purchase and down for a sale; the cost is the schedule's for
      the fill's own side, quantity and price. */
  predicate ChargedAt(m: Market, f: Fill, ref: real) {
    && f.price == ref * (if f.action.Buy? then 1.0 + m.slip(f.symbol, f.qty) else 1.0 - m.slip(f.symbol, f.qty))
    && f.cost == m.cost(f.symbol, f.action, f.qty, f.price)
  }

  /** The fill of a market order. */
  predicate FilledAtMarket(m: Market, b: Book, p: Payload, f: Fill) {
    && p.kind.AtMarket? && p.qty > 0.0 && p.symbol in b.last
    && (p.action.Buy? ==> p.qty * b.last[p.symbol] <= b.cash)
    && f.id == b.nextId && f.symbol == p.symbol && f.action == p.action && f.qty == p.qty
    && ChargedAt(m, f, b.last[p.symbol])
  }

  /** The fill of a resting stop that the tick reaches. */
  predicate FiredBy(m: Market, o: Order, s: Symbol, price: real, f: Fill) {
    && o.symbol == s && (if o.action.Sell? then price <= o.trigger else price >= o.trigger)
    && f.id == o.id && f.symbol == s && f.action == o.action && f.qty == o.qty && ChargedAt(m, f, price)
  }

  predicate Explains(m: Market, b: Book, op: Op, f: Fill) {
    match op
    case PlaceOp(p) => FilledAtMarket(m, b, p, f)
    case TickOp(s, price) => price > 0.0 && exists o :: o in b.open && FiredBy(m, o, s, price, f)
    case _ => false
  }

  lemma {:induction false} MarketFill(m: Market, b: Book, p: Payload)
    requires Place(m, b, p).0.fills != b.fills
    ensures |Place(m, b, p).0.fills| == |b.fills| + 1 && Place(m, b, p).0.fills[..|b.fills|] == b.fills
    ensures FilledAtMarket(m, b, p, Place(m, b, p).0.fills[|b.fills|])
  {
  }

  lemma {:induction false} StopFill(m: Market, b: Book, o: Order, s: Symbol, price: real)
    requires o.symbol == s && Hit(o, price)
    ensures |Fire(m, b, o, price).fills| == |b.fills| + 1 && Fire(m, b, o, price).fills[..|b.fills|] == b.fills
    ensures FiredBy(m, o, s, price, Fire(m, b, o, price).fills[|b.fills|])
  {
  }

  lemma {:induction false} TickFills(m: Market, b: Book, snapshot: seq<Order>, s: Symbol, price: real)
    ensures var fills := TickAll(m, b, snapshot, s, price).fills;
            && b.fills <= fills
            && forall f :: f in fills[|b.fills|..] ==> exists o :: o in snapshot && FiredBy(m, o, s, price, f)
  {
    if snapshot != [] {
      var init, o := snapshot[..|snapshot| - 1], snapshot[|snapshot| - 1];
      TickFills(m, b, init, s, price);
      var b1 := TickAll(m, b, init, s, price);
      if o.symbol == s && Hit(o, price) {
        StopFill(m, b1, o, s, price);
      }
      NewFills(m, b.fills, b1.fills, TickAll(m, b, snapshot, s, price).fills, init, o, s, price);
    }
  }

  lemma {:induction false} NewFills(m: Market, fills: seq<Fill>, before: seq<Fill>, after: seq<Fill>, init: seq<Order>,
                                    o: Order, s: Symbol, price: real)
    requires fills <= before
    requires forall f :: f in before[|fills|..] ==> exists x :: x in init && FiredBy(m, x, s, price, f)
    requires after == before
          || (|after| == |before| + 1 && after[..|before|] == before && FiredBy(m, o, s, price, after[|before|]))
    ensures fills <= after
    ensures forall f :: f in after[|fills|..] ==> exists x :: x in init + [o] && FiredBy(m, x, s, price, f)
  {
    forall f | f in after[|fills|..]
      ensures exists x :: x in init + [o] && FiredBy(m, x, s, price, f)
    {
      var i :| |fills| <= i < |after| && after[i] == f;
      if i < |before| {
        assert after[i] == before[i] == before[|fills|..][i - |fills|];
        assert f in before[|fills|..];
        var x :| x in init && FiredBy(m, x, s, price, f);
        assert x in init + [o];
      } else {
        assert o in init + [o];
      }
    }
  }

  /** One operation adds fills only at the end of the log, and explains each of them. */
  lemma {:induction false} StepFills(m: Market, b: Book, op: Op)
    ensures var fills := Apply1(m, b, op).fills;
            && b.fills <= fills
            && forall f :: f in fills[|b.fills|..] ==> Explains(m, b, op, f)
  {
    match op
    case TickOp(s, price) =>
      if price > 0.0 {
        var b1 := b.(last := b.last[s := price]);
        TickFills(m, b1, b1.open, s, price);
      }
    case PlaceOp(p) =>
      var fills := Place(m, b, p).0.fills;
      if fills != b.fills {
        MarketFill(m, b, p);
        assert fills[|b.fills|..] == [fills[|b.fills|]];
      }
    case _ =>
  }

  /** Every fill of every run was made by one of its operations, from the book as it
      was then: of a market order at the last price, or of a stop then resting at the
      price of the tick that reached it - with that order's id, side and quantity, the
      impact of its own symbol and quantity, and the cost of its own side. */
  lemma {:induction false} EveryFillIsExplained(m: Market, start: real, ops: seq<Op>, f: Fill)
    requires f in Run(m, NewBook(start), ops).fills
    ensures exists i :: 0 <= i < |ops| && Explains(m, Run(m, NewBook(start), ops[..i]), ops[i], f)
  {
    var n := |ops| - 1;
    var b := Run(m, NewBook(start), ops[..n]);
    StepFills(m, b, ops[n]);
    var fills := Run(m, NewBook(start), ops).fills;
    var k :| 0 <= k < |fills| && fills[k] == f;
    if k < |b.fills| {
      EveryFillIsExplained(m, start, ops[..n], f);
      var i :| 0 <= i < n && Explains(m, Run(m, NewBook(start), ops[..n][..i]), ops[..n][i], f);
      assert ops[..n][..i] == ops[..i];
    } else {
      assert fills[|b.fills|..][k - |b.fills|] == f;
    }
  }
}
