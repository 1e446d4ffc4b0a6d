/** Back-adjustment of daily bars for splits, bonuses and dividends. Dates are day
    numbers; prices are rounded to six decimals after every action, volumes are not. */
module CorporateActions {
  import opened Basics
  import opened Rounding

  datatype Kind = Split | Bonus | Dividend | OtherKind

  datatype Action = Action(exDate: int, kind: Kind, factor: real, amount: real)

  datatype Bar = Bar(date: int, open: real, high: real, low: real, close: real, volume: Option<real>)

  /** `shown` is the factor as the log reports it, rounded. */
  datatype Entry = Applied(exDate: int, kind: Kind, factor: real, shown: real) | Skipped(exDate: int, kind: Kind)

  /** `None` is the ValueError of an invalid action. */
  function PriceFactor(a: Action, closeBefore: real): Option<real> {
    match a.kind
    case Split => if a.factor <= 1.0 then None else Some(a.factor)
    case Bonus => if a.factor <= 1.0 then None else Some(a.factor)
    case Dividend =>
      if a.amount <= 0.0 || a.amount >= closeBefore then None else Some(closeBefore / (closeBefore - a.amount))
    case OtherKind => None
  }

  function Div(x: real, f: real): real
    requires f != 0.0
  {
    x / f
  }

  function Times(x: real, f: real): real {
    x * f
  }

  /** A price after one action. */
  function Adjusted(x: real, f: real): real
    requires f != 0.0
  {
    RoundTo(Div(x, f), SIX_PLACES)
  }

  function Scale(b: Bar, f: real): Bar
    requires f != 0.0
  {
    Bar(b.date, Adjusted(b.open, f), Adjusted(b.high, f), Adjusted(b.low, f), Adjusted(b.close, f),
        if b.volume.Some? then Some(Times(b.volume.value, f)) else None)
  }

  function ScaleFirst(bars: seq<Bar>, n: nat, f: real): (r: seq<Bar>)
    requires n <= |bars| && f != 0.0
    ensures |r| == |bars|
    ensures forall i :: 0 <= i < |bars| ==> r[i] == if i < n then Scale(bars[i], f) else bars[i]
  {
    seq(|bars|, i requires 0 <= i < |bars| => if i < n then Scale(bars[i], f) else bars[i])
  }

  /** The first bar on or after the date; `None` past the end. */
  function FirstOnOrAfter(bars: seq<Bar>, date: int): (r: Option<nat>)
    ensures r.Some? ==> r.value < |bars| && bars[r.value].date >= date
    ensures r.Some? ==> forall i :: 0 <= i < r.value ==> bars[i].date < date
    ensures r.None? ==> forall i :: 0 <= i < |bars| ==> bars[i].date < date
  {
    if bars == [] then None
    else
      var r := FirstOnOrAfter(bars[..|bars| - 1], date);
      if r.Some? then r
      else if bars[|bars| - 1].date >= date then Some(|bars| - 1) else None
  }

  datatype Work = Work(bars: seq<Bar>, log: seq<Entry>)

  lemma {:induction false} FactorAboveOne(a: Action, closeBefore: real)
    requires PriceFactor(a, closeBefore).Some?
    ensures PriceFactor(a, closeBefore).value > 1.0
  {
    if a.kind.Dividend? {
      DivAboveOne(closeBefore, closeBefore - a.amount);
    }
  }

  lemma {:induction false} DivAboveOne(x: real, d: real)
    requires x > d > 0.0
    ensures x / d > 1.0
  {
    DivMul(x, d);
    var q := x / d;
    if q <= 1.0 {
      MulMono(q, 1.0, d);
      assert false;
    }
  }

  function Logged(a: Action, f: real): Entry {
    Applied(a.exDate, a.kind, f, RoundTo(f, SIX_PLACES))
  }

  /** A split or bonus divides by its own factor, which must exceed 1. A dividend must be
      positive and below the close before it, and lowers that close by its amount. */
  lemma {:induction false} FactorRule(a: Action, closeBefore: real)
    ensures var f := PriceFactor(a, closeBefore);
            && (f.Some? <==> match a.kind
                             case Split => a.factor > 1.0
                             case Bonus => a.factor > 1.0
                             case Dividend => 0.0 < a.amount < closeBefore
                             case OtherKind => false)
            && (f.Some? && !a.kind.Dividend? ==> f.value == a.factor)
            && (f.Some? && a.kind.Dividend? ==> f.value > 1.0 && closeBefore / f.value == closeBefore - a.amount)
  {
    if PriceFactor(a, closeBefore).Some? && a.kind.Dividend? {
      FactorAboveOne(a, closeBefore);
      QuotientBack(closeBefore, closeBefore - a.amount);
    }
  }

  lemma {:induction false} QuotientBack(x: real, d: real)
    requires x > 0.0 && d > 0.0 && x / d > 0.0
    ensures x / (x / d) == d
  {
    DivMul(x, d);
    var q := x / d;
    DivMul(d, q);
    assert d * q == x;
  }

  /** One action of the sorted list; `None` when its factor is refused. */
  function ApplyOne(w: Work, a: Action): Option<Work> {
    var idx := FirstOnOrAfter(w.bars, a.exDate);
    if idx.None? || idx.value == 0 then Some(w.(log := w.log + [Skipped(a.exDate, a.kind)]))
    else
      var f := PriceFactor(a, w.bars[idx.value - 1].close);
      if f.None? then None
      else
        FactorAboveOne(a, w.bars[idx.value - 1].close);
        Some(Work(ScaleFirst(w.bars, idx.value, f.value), w.log + [Logged(a, f.value)]))
  }

  function ApplyAll(bars: seq<Bar>, acts: seq<Action>): Option<Work> {
    if acts == [] then Some(Work(bars, []))
    else
      var w := ApplyAll(bars, acts[..|acts| - 1]);
      if w.None? then None else ApplyOne(w.value, acts[|acts| - 1])
  }

  // ---------- the stable sort by ex-date ----------

  predicate Sorted(acts: seq<Action>) {
    forall i, j :: 0 <= i < j < |acts| ==> acts[i].exDate <= acts[j].exDate
  }

  function InsertLast(acts: seq<Action>, a: Action): (r: seq<Action>)
    requires Sorted(acts)
    ensures Sorted(r) && forall x :: x in r ==> x == a || x in acts
  {
    if acts == [] || acts[|acts| - 1].exDate <= a.exDate then acts + [a]
    else
      var init, last := acts[..|acts| - 1], acts[|acts| - 1];
      var r := InsertLast(init, a);
      assert forall i :: 0 <= i < |r| ==> r[i] in r && r[i].exDate <= last.exDate;
      r + [last]
  }

  function SortByExDate(acts: seq<Action>): (r: seq<Action>)
    ensures Sorted(r)
  {
    if acts == [] then [] else InsertLast(SortByExDate(acts[..|acts| - 1]), acts[|acts| - 1])
  }

  lemma {:induction false} InsertKeeps(acts: seq<Action>, a: Action)
    requires Sorted(acts)
    ensures multiset(InsertLast(acts, a)) == multiset(acts) + multiset{a}
  {
    if !(acts == [] || acts[|acts| - 1].exDate <= a.exDate) {
      var init := acts[..|acts| - 1];
      assert acts == init + [acts[|acts| - 1]];
      InsertKeeps(init, a);
    }
  }

  lemma {:induction false} SortKeeps(acts: seq<Action>)
    ensures multiset(SortByExDate(acts)) == multiset(acts)
  {
    if acts != [] {
      var init := acts[..|acts| - 1];
      assert acts == init + [acts[|acts| - 1]];
      SortKeeps(init);
      InsertKeeps(SortByExDate(init), acts[|acts| - 1]);
    }
  }

  lemma {:induction false} ApplyNext(bars: seq<Bar>, acts: seq<Action>, k: nat, w: Work)
    requires k < |acts| && ApplyAll(bars, acts[..k]) == Some(w)
    ensures ApplyAll(bars, acts[..k + 1]) == ApplyOne(w, acts[k])
  {
    assert acts[..k + 1][..k] == acts[..k];
  }

  /** The inner loop: every bar before the ex-index, one at a time. */
  method RescaleBefore(bars: seq<Bar>, idx: nat, f: real) returns (out: seq<Bar>)
    requires idx <= |bars| && f != 0.0
    ensures out == ScaleFirst(bars, idx, f)
  {
    out := bars;
    for i := 0 to idx
      invariant out == ScaleFirst(bars, i, f)
    {
      out := out[i := Scale(out[i], f)];
    }
  }

  method AdjustBars(bars: seq<Bar>, actions: seq<Action>) returns (r: Option<Work>)
    ensures bars == [] ==> r == Some(Work([], []))
    ensures bars != [] ==> r == ApplyAll(bars, SortByExDate(actions))
  {
    if bars == [] {
      return Some(Work([], []));
    }
    var out := bars;
    var log: seq<Entry> := [];
    var acts := SortByExDate(actions);
    for k := 0 to |acts|
      invariant ApplyAll(bars, acts[..k]) == Some(Work(out, log))
      invariant |out| == |bars|
    {
      ApplyNext(bars, acts, k, Work(out, log));
      var act := acts[k];
      var idx := FirstOnOrAfter(out, act.exDate);
      if idx.None? || idx.value == 0 {
        log := log + [Skipped(act.exDate, act.kind)];
      } else {
        var f := PriceFactor(act, out[idx.value - 1].close);
        if f.None? {
          RaisesForGood(bars, acts, k + 1);
          return None;
        }
        FactorAboveOne(act, out[idx.value - 1].close);
        out := RescaleBefore(out, idx.value, f.value);
        log := log + [Logged(act, f.value)];
      }
    }
    assert acts[..|acts|] == acts;
    return Some(Work(out, log));
  }

  lemma {:induction false} RaisesForGood(bars: seq<Bar>, acts: seq<Action>, k: nat)
    requires k <= |acts| && ApplyAll(bars, acts[..k]).None?
    ensures ApplyAll(bars, acts).None?
    decreases |acts| - k
  {
    if k < |acts| {
      assert acts[..k + 1][..k] == acts[..k];
      RaisesForGood(bars, acts, k + 1);
    } else {
      assert acts[..k] == acts;
    }
  }

  // ---------- the closed form ----------

  /** The entry was applied and its ex-date bar comes after bar i. */
  predicate Covers(raw: seq<Bar>, e: Entry, i: nat) {
    var idx := FirstOnOrAfter(raw, e.exDate);
    e.Applied? && idx.Some? && idx.value > i
  }

  /** Product of the factors of the applied actions whose ex-date bar comes after
      bar i. */
  function Cumulative(raw: seq<Bar>, log: seq<Entry>, i: nat): real {
    if log == [] then 1.0
    else
      var e := log[|log| - 1];
      var c := Cumulative(raw, log[..|log| - 1], i);
      if Covers(raw, e, i) then Times(c, e.factor) else c
  }

  predicate SameDates(xs: seq<Bar>, ys: seq<Bar>) {
    |xs| == |ys| && forall i :: 0 <= i < |xs| ==> xs[i].date == ys[i].date
  }

  lemma {:induction false} SameFirst(xs: seq<Bar>, ys: seq<Bar>, date: int)
    requires SameDates(xs, ys)
    ensures FirstOnOrAfter(xs, date) == FirstOnOrAfter(ys, date)
  {
    var a, b := FirstOnOrAfter(xs, date), FirstOnOrAfter(ys, date);
    if a.Some? && b.Some? {
      assert a.value <= b.value && b.value <= a.value;
    }
  }

  lemma {:induction false} DivTwice(x: real, f: real, g: real)
    requires f != 0.0 && g != 0.0 && Times(f, g) != 0.0
    ensures Div(Div(x, f), g) == Div(x, Times(f, g))
  {
    var y := x / f;
    DivMul(x, f);
    DivMul(y, g);
    var z := y / g;
    assert z * (f * g) == (z * g) * f;
    DivMul(z, f * g);
  }

  lemma {:induction false} TimesTwice(x: real, f: real, g: real)
    ensures Times(Times(x, f), g) == Times(x, Times(f, g))
  {
  }

  predicate FactorsAboveOne(log: seq<Entry>) {
    forall e :: e in log && e.Applied? ==> e.factor > 1.0
  }

  lemma {:induction false} ProductAtLeastOne(x: real, y: real)
    requires x >= 1.0 && y >= 1.0
    ensures Times(x, y) >= 1.0 && (Times(x, y) == 1.0 <==> x == 1.0 && y == 1.0)
  {
    MulMono(1.0, x, y);
    if x > 1.0 {
      MulMonoStrict(1.0, x, y);
    }
  }

  lemma {:induction false} CumulativeAtLeastOne(raw: seq<Bar>, log: seq<Entry>, i: nat)
    requires FactorsAboveOne(log)
    ensures Cumulative(raw, log, i) >= 1.0
    ensures Cumulative(raw, log, i) == 1.0 <==> forall k :: 0 <= k < |log| ==> !Covers(raw, log[k], i)
  {
    if log != [] {
      var init, e := log[..|log| - 1], log[|log| - 1];
      assert e in log && forall x :: x in init ==> x in log;
      CumulativeAtLeastOne(raw, init, i);
      assert log == init + [e];
      CumulativeGrows(raw, init, e, i);
    }
  }

  lemma {:induction false} CumulativeGrows(raw: seq<Bar>, init: seq<Entry>, e: Entry, i: nat)
    requires (e.Applied? ==> e.factor > 1.0) && Cumulative(raw, init, i) >= 1.0
    ensures var c := Cumulative(raw, init + [e], i);
            c >= 1.0 && (c == 1.0 <==> Cumulative(raw, init, i) == 1.0 && !Covers(raw, e, i))
  {
    CumulativeNext(raw, init, e, i);
    if Covers(raw, e, i) {
      ProductAtLeastOne(Cumulative(raw, init, i), e.factor);
    }
  }

  /** A price of bar i after the applied actions that cover it, one by one. */
  function PriceAfter(raw: seq<Bar>, log: seq<Entry>, i: nat, x: real): real
    requires FactorsAboveOne(log)
  {
    if log == [] then x
    else
      var init, e := log[..|log| - 1], log[|log| - 1];
      assert e in log && forall y :: y in init ==> y in log;
      var y := PriceAfter(raw, init, i, x);
      if Covers(raw, e, i) then Adjusted(y, e.factor) else y
  }

  function BarAfter(raw: seq<Bar>, log: seq<Entry>, i: nat): Bar
    requires i < |raw| && FactorsAboveOne(log)
  {
    var b := raw[i];
    Bar(b.date, PriceAfter(raw, log, i, b.open), PriceAfter(raw, log, i, b.high), PriceAfter(raw, log, i, b.low),
        PriceAfter(raw, log, i, b.close),
        if b.volume.Some? then Some(Times(b.volume.value, Cumulative(raw, log, i))) else None)
  }

  ghost predicate OneByOne(raw: seq<Bar>, w: Work) {
    && SameDates(raw, w.bars) && FactorsAboveOne(w.log)
    && (forall i :: 0 <= i < |raw| ==> w.bars[i] == BarAfter(raw, w.log, i))
  }

  /** What one action does to one bar. */
  lemma {:induction false} ApplyOnBar(raw: seq<Bar>, w: Work, a: Action, i: nat)
    requires SameDates(raw, w.bars) && ApplyOne(w, a).Some? && i < |raw|
    ensures var w1 := ApplyOne(w, a).value;
            var e := w1.log[|w.log|];
            && |w1.bars| == |raw| && w1.log == w.log + [e]
            && (if Covers(raw, e, i) then e.factor > 1.0 && w1.bars[i] == Scale(w.bars[i], e.factor)
                else w1.bars[i] == w.bars[i])
  {
    SameFirst(raw, w.bars, a.exDate);
    var idx := FirstOnOrAfter(w.bars, a.exDate);
    if idx.Some? && idx.value > 0 {
      FactorAboveOne(a, w.bars[idx.value - 1].close);
    }
  }

  lemma {:induction false} PriceNext(raw: seq<Bar>, log: seq<Entry>, e: Entry, i: nat, x: real)
    requires FactorsAboveOne(log) && FactorsAboveOne(log + [e])
    ensures var y := PriceAfter(raw, log, i, x);
            PriceAfter(raw, log + [e], i, x)
            == if Covers(raw, e, i) then assert e in log + [e]; Adjusted(y, e.factor) else y
  {
    assert (log + [e])[..|log|] == log;
  }

  lemma {:induction false} StepOneBar(raw: seq<Bar>, log: seq<Entry>, was: Bar, now: Bar, e: Entry, i: nat)
    requires i < |raw| && FactorsAboveOne(log) && FactorsAboveOne(log + [e]) && was == BarAfter(raw, log, i)
    requires if Covers(raw, e, i) then e.factor > 1.0 && now == Scale(was, e.factor) else now == was
    ensures now == BarAfter(raw, log + [e], i)
  {
    var b := raw[i];
    CumulativeNext(raw, log, e, i);
    PriceNext(raw, log, e, i, b.open);
    PriceNext(raw, log, e, i, b.high);
    PriceNext(raw, log, e, i, b.low);
    PriceNext(raw, log, e, i, b.close);
    if Covers(raw, e, i) && b.volume.Some? {
      var c := Cumulative(raw, log, i);
      TimesTwice(b.volume.value, c, e.factor);
    }
  }

  lemma {:induction false} CumulativeNext(raw: seq<Bar>, log: seq<Entry>, e: Entry, i: nat)
    ensures Cumulative(raw, log + [e], i)
         == if Covers(raw, e, i) then Times(Cumulative(raw, log, i), e.factor) else Cumulative(raw, log, i)
  {
    assert (log + [e])[..|log|] == log;
  }

  lemma {:induction false} StepOneByOne(raw: seq<Bar>, w: Work, a: Action)
    requires OneByOne(raw, w) && ApplyOne(w, a).Some?
    ensures OneByOne(raw, ApplyOne(w, a).value)
  {
    var w1 := ApplyOne(w, a).value;
    var idx := FirstOnOrAfter(w.bars, a.exDate);
    if w1.log[|w.log|].Applied? {
      FactorAboveOne(a, w.bars[idx.value - 1].close);
    }
    assert w1.log == w.log + [w1.log[|w.log|]] && FactorsAboveOne(w1.log);
    forall i | 0 <= i < |raw|
      ensures w1.bars[i] == BarAfter(raw, w1.log, i)
    {
      ApplyOnBar(raw, w, a, i);
      StepOneBar(raw, w.log, w.bars[i], w1.bars[i], w1.log[|w.log|], i);
    }
  }

  lemma {:induction false} AdjustedOneByOne(raw: seq<Bar>, acts: seq<Action>)
    requires ApplyAll(raw, acts).Some?
    ensures OneByOne(raw, ApplyAll(raw, acts).value)
  {
    if acts == [] {
      forall i | 0 <= i < |raw|
        ensures raw[i] == BarAfter(raw, [], i)
      {
        assert raw[i].volume.Some? ==> Times(raw[i].volume.value, 1.0) == raw[i].volume.value;
      }
    } else {
      AdjustedOneByOne(raw, acts[..|acts| - 1]);
      StepOneByOne(raw, ApplyAll(raw, acts[..|acts| - 1]).value, acts[|acts| - 1]);
    }
  }

  // ---------- against the exact quotient ----------

  /** How many roundings a price of bar i has been through. */
  function Roundings(raw: seq<Bar>, log: seq<Entry>, i: nat): nat {
    if log == [] then 0
    else Roundings(raw, log[..|log| - 1], i) + (if Covers(raw, log[|log| - 1], i) then 1 else 0)
  }

  /** Half a unit for each rounding. */
  function Slack(n: nat): real {
    LotQty(n, SIX_PLACES / 2.0)
  }

  predicate Within(y: real, x: real, slack: real) {
    x - slack <= y <= x + slack
  }

  lemma {:induction false} DivWithin(y: real, x: real, f: real, slack: real)
    requires f > 1.0 && slack >= 0.0 && Within(y, x, slack)
    ensures Within(Div(y, f), Div(x, f), slack)
  {
    DivMul(y, f);
    DivMul(x, f);
    var u, v := y / f, x / f;
    if u > v + slack {
      MulMonoStrict(v + slack, u, f);
      MulMono(1.0, f, slack);
      assert false;
    }
    if u < v - slack {
      MulMonoStrict(u, v - slack, f);
      MulMono(1.0, f, slack);
      assert false;
    }
  }

  /** One more action and rounding. */
  lemma {:induction false} RoundedQuotient(y: real, x: real, c: real, f: real, n: nat)
    requires c >= 1.0 && f > 1.0 && Within(y, Div(x, c), Slack(n))
    ensures Times(c, f) != 0.0 && Within(Adjusted(y, f), Div(x, Times(c, f)), Slack(n + 1))
  {
    ProductAtLeastOne(c, f);
    SlackNext(n);
    DivWithin(y, Div(x, c), f, Slack(n));
    DivTwice(x, c, f);
    RoundNear(Div(y, f), SIX_PLACES);
  }

  lemma {:induction false} SlackNext(n: nat)
    ensures Slack(n) >= 0.0 && Slack(n + 1) == Slack(n) + SIX_PLACES / 2.0
  {
    LotQtySum(n, 1, SIX_PLACES / 2.0);
    LotQtyMono(0, n, SIX_PLACES / 2.0);
  }

  lemma {:induction false} PriceNearQuotient(raw: seq<Bar>, log: seq<Entry>, i: nat, x: real)
    requires FactorsAboveOne(log)
    ensures Cumulative(raw, log, i) >= 1.0
    ensures Within(PriceAfter(raw, log, i, x), Div(x, Cumulative(raw, log, i)), Slack(Roundings(raw, log, i)))
  {
    CumulativeAtLeastOne(raw, log, i);
    if log == [] {
      SlackNext(0);
    } else {
      var init, e := log[..|log| - 1], log[|log| - 1];
      assert e in log && forall y :: y in init ==> y in log;
      assert log == init + [e];
      PriceNearQuotient(raw, init, i, x);
      NearNext(raw, init, e, i, x);
    }
  }

  lemma {:induction false} RoundingsNext(raw: seq<Bar>, log: seq<Entry>, e: Entry, i: nat)
    ensures Roundings(raw, log + [e], i) == Roundings(raw, log, i) + (if Covers(raw, e, i) then 1 else 0)
  {
    assert (log + [e])[..|log|] == log;
  }

  lemma {:induction false} NearNext(raw: seq<Bar>, init: seq<Entry>, e: Entry, i: nat, x: real)
    requires FactorsAboveOne(init) && FactorsAboveOne(init + [e])
    requires var c := Cumulative(raw, init, i);
             c >= 1.0 && Within(PriceAfter(raw, init, i, x), Div(x, c), Slack(Roundings(raw, init, i)))
    ensures var log := init + [e];
            var c := Cumulative(raw, log, i);
            c != 0.0 && Within(PriceAfter(raw, log, i, x), Div(x, c), Slack(Roundings(raw, log, i)))
  {
    var log := init + [e];
    assert log[..|init|] == init && e in log;
    RoundingsNext(raw, init, e, i);
    PriceNext(raw, init, e, i, x);
    CumulativeNext(raw, init, e, i);
    if Covers(raw, e, i) {
      RoundedQuotient(PriceAfter(raw, init, i, x), x, Cumulative(raw, init, i), e.factor, Roundings(raw, init, i));
    }
  }

  /** Each adjusted bar is the raw bar with its prices divided, and its volume
      multiplied, by the product of the factors of the applied actions that go
      ex after it - the prices up to half a millionth for each of those actions,
      the volume exactly. */
  lemma {:induction false} AdjustedIsClosedForm(raw: seq<Bar>, acts: seq<Action>, i: nat)
    requires ApplyAll(raw, acts).Some? && i < |raw|
    ensures var w := ApplyAll(raw, acts).value;
            && |w.bars| == |raw|
            && var r, b, c, slack := raw[i], w.bars[i], Cumulative(raw, w.log, i), Slack(Roundings(raw, w.log, i));
            && c >= 1.0 && b.date == r.date
            && Within(b.open, Div(r.open, c), slack) && Within(b.high, Div(r.high, c), slack)
            && Within(b.low, Div(r.low, c), slack) && Within(b.close, Div(r.close, c), slack)
            && b.volume == if r.volume.Some? then Some(Times(r.volume.value, c)) else None
  {
    AdjustedOneByOne(raw, acts);
    var log := ApplyAll(raw, acts).value.log;
    PriceNearQuotient(raw, log, i, raw[i].open);
    PriceNearQuotient(raw, log, i, raw[i].high);
    PriceNearQuotient(raw, log, i, raw[i].low);
    PriceNearQuotient(raw, log, i, raw[i].close);
  }

  /** Traded value - any price of a bar times its volume - is unchanged up to half a
      millionth of the adjusted volume for each action that covers the bar. */
  lemma {:induction false} TradedValueUnchanged(raw: seq<Bar>, acts: seq<Action>, i: nat)
    requires ApplyAll(raw, acts).Some? && i < |raw| && raw[i].volume.Some?
    ensures var w := ApplyAll(raw, acts).value;
            && |w.bars| == |raw| && w.bars[i].volume.Some?
            && var r, b, v1 := raw[i], w.bars[i], w.bars[i].volume.value;
               var slack := Times(Abs(v1), Slack(Roundings(raw, w.log, i)));
            && Within(Times(b.close, v1), Times(r.close, r.volume.value), slack)
            && Within(Times(b.open, v1), Times(r.open, r.volume.value), slack)
            && Within(Times(b.high, v1), Times(r.high, r.volume.value), slack)
            && Within(Times(b.low, v1), Times(r.low, r.volume.value), slack)
  {
    AdjustedIsClosedForm(raw, acts, i);
    var w, r := ApplyAll(raw, acts).value, raw[i];
    var b, c, slack := w.bars[i], Cumulative(raw, w.log, i), Slack(Roundings(raw, w.log, i));
    ValueKept(b.close, r.close, r.volume.value, c, slack);
    ValueKept(b.open, r.open, r.volume.value, c, slack);
    ValueKept(b.high, r.high, r.volume.value, c, slack);
    ValueKept(b.low, r.low, r.volume.value, c, slack);
  }

  lemma {:induction false} ValueKept(y: real, x: real, v: real, c: real, slack: real)
    requires c >= 1.0 && Within(y, Div(x, c), slack)
    ensures var v1 := Times(v, c); Within(Times(y, v1), Times(x, v), Times(Abs(v1), slack))
  {
    var q, v1 := x / c, v * c;
    DivMul(x, c);
    assert q * v1 == (q * c) * v;
    ProductWithin(y, q, slack, v1, Abs(v1));
  }

  lemma {:induction false} ProductWithin(y: real, q: real, slack: real, v: real, size: real)
    requires Within(y, q, slack) && size == Abs(v)
    ensures Within(y * v, q * v, size * slack)
  {
    MulMono(q - slack, y, size);
    MulMono(y, q + slack, size);
    Distribute(q, slack, size);
  }

  // ---------- which close a dividend sees ----------

  lemma {:induction false} EarlierIndex(bars: seq<Bar>, d1: int, d2: int)
    requires d1 <= d2 && FirstOnOrAfter(bars, d2).Some?
    ensures FirstOnOrAfter(bars, d1).Some? && FirstOnOrAfter(bars, d1).value <= FirstOnOrAfter(bars, d2).value
  {
  }

  lemma {:induction false} LogGrows(w: Work, a: Action)
    requires ApplyOne(w, a).Some?
    ensures var log := ApplyOne(w, a).value.log;
            |log| == |w.log| + 1 && log[..|w.log|] == w.log && log[|w.log|].exDate == a.exDate
  {
  }

  /** One entry per action, with its ex-date. */
  predicate Follows(log: seq<Entry>, acts: seq<Action>) {
    |log| == |acts| && forall k :: 0 <= k < |acts| ==> log[k].exDate == acts[k].exDate
  }

  lemma {:induction false} FollowsNext(log: seq<Entry>, acts: seq<Action>)
    requires acts != [] && log != [] && Follows(log[..|log| - 1], acts[..|acts| - 1])
    requires log[|log| - 1].exDate == acts[|acts| - 1].exDate
    ensures Follows(log, acts)
  {
    forall k | 0 <= k < |acts| - 1
      ensures log[k].exDate == acts[k].exDate
    {
      assert log[..|log| - 1][k].exDate == acts[..|acts| - 1][k].exDate;
    }
  }

  lemma {:induction false} LogFollowsActions(raw: seq<Bar>, acts: seq<Action>, w: Work)
    requires ApplyAll(raw, acts) == Some(w)
    ensures Follows(w.log, acts)
  {
    if acts != [] {
      var init := acts[..|acts| - 1];
      var w0 := ApplyAll(raw, init).value;
      LogFollowsActions(raw, init, w0);
      LogGrows(w0, acts[|acts| - 1]);
      FollowsNext(w.log, acts);
    }
  }

  predicate OnGrid(x: real) {
    RoundTo(x, SIX_PLACES) == x
  }

  lemma {:induction false} AdjustedShrinks(y: real, f: real)
    requires f > 1.0 && (y >= 0.0 || y <= 0.0)
    ensures OnGrid(Adjusted(y, f))
    ensures y >= 0.0 ==> Adjusted(y, f) >= 0.0 && (OnGrid(y) ==> Adjusted(y, f) <= y)
    ensures y <= 0.0 ==> Adjusted(y, f) <= 0.0 && (OnGrid(y) ==> Adjusted(y, f) >= y)
  {
    RoundTwice(Div(y, f), SIX_PLACES);
    RoundZero(SIX_PLACES);
    DivMul(y, f);
    var q := y / f;
    if y >= 0.0 {
      QuotientBetween(y, f, q);
      RoundMono(0.0, q, SIX_PLACES);
      RoundMono(q, y, SIX_PLACES);
    }
    if y <= 0.0 {
      QuotientBetween(-y, f, -q);
      RoundMono(q, 0.0, SIX_PLACES);
      RoundMono(y, q, SIX_PLACES);
    }
  }

  lemma {:induction false} QuotientBetween(y: real, f: real, q: real)
    requires y >= 0.0 && f > 1.0 && q * f == y
    ensures 0.0 <= q <= y
  {
    if q < 0.0 {
      MulMonoStrict(q, 0.0, f);
      assert false;
    }
    MulMono(1.0, f, q);
  }

  /** One more action on a price that has come from x. */
  lemma {:induction false} StillAwayFrom(x: real, y: real, f: real)
    requires f > 1.0 && y != x && OnGrid(y)
    requires x >= 0.0 ==> y >= 0.0 && (OnGrid(x) ==> y <= x)
    requires x <= 0.0 ==> y <= 0.0 && (OnGrid(x) ==> y >= x)
    ensures Adjusted(y, f) != x
  {
    AdjustedShrinks(y, f);
  }

  /** Every applied action that covers bar i leaves x what it is, within rounding. */
  predicate AllLeave(raw: seq<Bar>, log: seq<Entry>, i: nat, x: real)
    requires FactorsAboveOne(log)
  {
    forall k :: 0 <= k < |log| && Covers(raw, log[k], i) ==> assert log[k] in log; Adjusted(x, log[k].factor) == x
  }

  /** A price that has once moved never comes back. */
  lemma {:induction false} PriceKeptIff(raw: seq<Bar>, log: seq<Entry>, i: nat, x: real)
    requires FactorsAboveOne(log)
    ensures var y := PriceAfter(raw, log, i, x);
            && (y == x <==> AllLeave(raw, log, i, x)) && (y == x || OnGrid(y))
            && (x >= 0.0 ==> y >= 0.0 && (OnGrid(x) ==> y <= x))
            && (x <= 0.0 ==> y <= 0.0 && (OnGrid(x) ==> y >= x))
  {
    if log != [] {
      var init, e := log[..|log| - 1], log[|log| - 1];
      assert e in log && forall z :: z in init ==> z in log;
      assert log == init + [e];
      PriceKeptIff(raw, init, i, x);
      var y := PriceAfter(raw, init, i, x);
      if Covers(raw, e, i) {
        AdjustedShrinks(y, e.factor);
        if y != x {
          StillAwayFrom(x, y, e.factor);
        }
      }
      assert AllLeave(raw, log, i, x)
             <==> AllLeave(raw, init, i, x) && (Covers(raw, e, i) ==> Adjusted(x, e.factor) == x);
    }
  }

  /** When the last action of a sorted list is applied, the close before its ex-date
      is still the raw close exactly when every earlier applied action that goes ex
      on the same bar leaves that close as it is, within rounding. */
  lemma {:induction false} FactorSeesRawCloseIff(raw: seq<Bar>, acts: seq<Action>, idx: nat)
    requires acts != [] && Sorted(acts) && ApplyAll(raw, acts[..|acts| - 1]).Some?
    requires FirstOnOrAfter(raw, acts[|acts| - 1].exDate) == Some(idx) && idx > 0
    ensures var w, x := ApplyAll(raw, acts[..|acts| - 1]).value, raw[idx - 1].close;
            && |w.bars| == |raw| && FactorsAboveOne(w.log)
            && (w.bars[idx - 1].close == x
                <==> forall e :: e in w.log && e.Applied? && FirstOnOrAfter(raw, e.exDate) == Some(idx) ==>
                                   Adjusted(x, e.factor) == x)
  {
    var init, d := acts[..|acts| - 1], acts[|acts| - 1].exDate;
    var w := ApplyAll(raw, init).value;
    AdjustedOneByOne(raw, init);
    LogBefore(raw, init, w, d);
    CloseSeenIff(raw, w, d, idx);
  }

  lemma {:induction false} CloseSeenIff(raw: seq<Bar>, w: Work, d: int, idx: nat)
    requires OneByOne(raw, w) && FirstOnOrAfter(raw, d) == Some(idx) && idx > 0
    requires forall k :: 0 <= k < |w.log| ==> w.log[k].exDate <= d
    ensures w.bars[idx - 1].close == raw[idx - 1].close
            <==> forall e :: e in w.log && e.Applied? && FirstOnOrAfter(raw, e.exDate) == Some(idx) ==>
                               Adjusted(raw[idx - 1].close, e.factor) == raw[idx - 1].close
  {
    PriceKeptIff(raw, w.log, idx - 1, raw[idx - 1].close);
    AllLeaveIff(raw, w.log, d, idx, raw[idx - 1].close);
  }

  /** The actions that cover the bar before idx are those that go ex at idx. */
  lemma {:induction false} AllLeaveIff(raw: seq<Bar>, log: seq<Entry>, d: int, idx: nat, x: real)
    requires FactorsAboveOne(log) && FirstOnOrAfter(raw, d) == Some(idx) && idx > 0
    requires forall k :: 0 <= k < |log| ==> log[k].exDate <= d
    ensures AllLeave(raw, log, idx - 1, x)
            <==> forall e :: e in log && e.Applied? && FirstOnOrAfter(raw, e.exDate) == Some(idx) ==>
                               Adjusted(x, e.factor) == x
  {
    forall k | 0 <= k < |log|
      ensures Covers(raw, log[k], idx - 1) <==> log[k].Applied? && FirstOnOrAfter(raw, log[k].exDate) == Some(idx)
    {
      CoversBeforeIff(raw, log[k], d, idx);
    }
  }

  lemma {:induction false} LogBefore(raw: seq<Bar>, acts: seq<Action>, w: Work, d: int)
    requires ApplyAll(raw, acts) == Some(w) && forall a :: a in acts ==> a.exDate <= d
    ensures forall k :: 0 <= k < |w.log| ==> w.log[k].exDate <= d
  {
    LogFollowsActions(raw, acts, w);
    forall k | 0 <= k < |w.log|
      ensures w.log[k].exDate <= d
    {
      assert acts[k] in acts;
    }
  }

  /** An earlier action adjusts the bar before idx exactly when it goes ex at idx. */
  lemma {:induction false} CoversBeforeIff(raw: seq<Bar>, entry: Entry, d: int, idx: nat)
    requires entry.exDate <= d && FirstOnOrAfter(raw, d) == Some(idx) && idx > 0
    ensures Covers(raw, entry, idx - 1) <==> entry.Applied? && FirstOnOrAfter(raw, entry.exDate) == Some(idx)
  {
    EarlierIndex(raw, entry.exDate, d);
  }
}
