/** Ticks in, completed bars out. Over any tick sequence the bars are the
    first/max/min/last/sum of the accepted ticks, grouped by time bucket. */
module BarAggregator {
  import opened Basics

  datatype Tick = Tick(ts: real, price: real, volume: real)

  datatype Bar = Bar(ts: real, open: real, high: real, low: real, close: real, volume: real)

  /** Start of the interval-aligned bucket: `ts - ts % interval`. */
  function Bucket(interval: real, ts: real): real
    requires interval > 0.0
  {
    FloorLot(ts, interval)
  }

  /** A tick lies in its bucket, which starts at a multiple of the interval. */
  lemma {:induction false} BucketHolds(interval: real, ts: real)
    requires interval > 0.0
    ensures var b := Bucket(interval, ts);
            b <= ts < b + interval && b == (b / interval).Floor as real * interval
  {
    FloorLotIsGreatest(ts, interval);
    assert LotQty((Bucket(interval, ts) / interval).Floor, interval) == Bucket(interval, ts);
  }

  function BarFrom(b: real, t: Tick): Bar {
    Bar(b, t.price, t.price, t.price, t.price, t.volume)
  }

  function Absorb(bar: Bar, t: Tick): Bar {
    bar.(high := Max(bar.high, t.price), low := Min(bar.low, t.price), close := t.price,
         volume := bar.volume + t.volume)
  }

  /** The aggregator's state and what it has emitted so far. */
  datatype Feed = Feed(open: Option<Bar>, done: seq<Bar>)

  predicate Accepts(interval: real, open: Option<Bar>, t: Tick)
    requires interval > 0.0
  {
    open.None? || Bucket(interval, t.ts) >= open.value.ts
  }

  function Step(interval: real, f: Feed, t: Tick): Feed
    requires interval > 0.0
  {
    var b := Bucket(interval, t.ts);
    if f.open.None? then f.(open := Some(BarFrom(b, t)))
    else if b < f.open.value.ts then f
    else if b == f.open.value.ts then f.(open := Some(Absorb(f.open.value, t)))
    else Feed(Some(BarFrom(b, t)), f.done + [f.open.value])
  }

  class Aggregator {
    const interval: real
    var open: Option<Bar>

    constructor (interval: real)
      requires interval > 0.0
      ensures this.interval == interval && open == None
    {
      this.interval, open := interval, None;
    }

    /** A completed bar when the bucket rolls over. A non-positive price raises:
        `ok` is false and nothing changes. */
    method OnTick(t: Tick) returns (ok: bool, emitted: Option<Bar>)
      requires interval > 0.0
      modifies this
      ensures ok <==> t.price > 0.0
      ensures !ok ==> open == old(open) && emitted == None
      ensures ok ==> Step(interval, Feed(old(open), []), t)
                     == Feed(open, if emitted.Some? then [emitted.value] else [])
    {
      if t.price <= 0.0 {
        return false, None;
      }
      var b := Bucket(interval, t.ts);
      if open.None? {
        open := Some(BarFrom(b, t));
        return true, None;
      }
      var bar := open.value;
      if b < bar.ts {
        return true, None;
      }
      if b == bar.ts {
        open := Some(Absorb(bar, t));
        return true, None;
      }
      open := Some(BarFrom(b, t));
      return true, Some(bar);
    }

    method Flush() returns (emitted: Option<Bar>)
      modifies this
      ensures emitted == old(open) && open == None
    {
      emitted := open;
      open := None;
    }
  }

  // ---------- runs ----------

  function Run(interval: real, ts: seq<Tick>): Feed
    requires interval > 0.0
  {
    if ts == [] then Feed(None, []) else Step(interval, Run(interval, ts[..|ts| - 1]), ts[|ts| - 1])
  }

  /** The ticks that were not stale when they arrived. */
  function Accepted(interval: real, ts: seq<Tick>): seq<Tick>
    requires interval > 0.0
  {
    if ts == [] then []
    else
      var init, t := ts[..|ts| - 1], ts[|ts| - 1];
      Accepted(interval, init) + (if Accepts(interval, Run(interval, init).open, t) then [t] else [])
  }

  function AllBars(f: Feed): seq<Bar> {
    f.done + (if f.open.Some? then [f.open.value] else [])
  }

  // ---------- grouping, independently of the aggregator ----------

  function Group(interval: real, ts: seq<Tick>, b: real): seq<Tick>
    requires interval > 0.0
  {
    if ts == [] then []
    else
      var t := ts[|ts| - 1];
      Group(interval, ts[..|ts| - 1], b) + (if Bucket(interval, t.ts) == b then [t] else [])
  }

  function Highest(ts: seq<Tick>): real
    requires ts != []
  {
    if |ts| == 1 then ts[0].price else Max(Highest(ts[..|ts| - 1]), ts[|ts| - 1].price)
  }

  function Lowest(ts: seq<Tick>): real
    requires ts != []
  {
    if |ts| == 1 then ts[0].price else Min(Lowest(ts[..|ts| - 1]), ts[|ts| - 1].price)
  }

  function Volume(ts: seq<Tick>): real {
    if ts == [] then 0.0 else Volume(ts[..|ts| - 1]) + ts[|ts| - 1].volume
  }

  /** The bar of a group of ticks: first, max, min, last, sum. */
  predicate BarOfGroup(bar: Bar, ts: seq<Tick>) {
    && ts != []
    && bar.open == ts[0].price && bar.close == ts[|ts| - 1].price
    && bar.high == Highest(ts) && bar.low == Lowest(ts) && bar.volume == Volume(ts)
  }

  function BarVolume(bars: seq<Bar>): real {
    if bars == [] then 0.0 else BarVolume(bars[..|bars| - 1]) + bars[|bars| - 1].volume
  }

  ghost predicate Grouped(interval: real, bars: seq<Bar>, ts: seq<Tick>)
    requires interval > 0.0
  {
    && Ascending(bars)
    && (forall i :: 0 <= i < |bars| ==> BarOfGroup(bars[i], Group(interval, ts, bars[i].ts)))
    && Covered(interval, bars, ts)
  }

  ghost predicate Ascending(bars: seq<Bar>) {
    forall i, j :: 0 <= i < j < |bars| ==> bars[i].ts < bars[j].ts
  }

  lemma {:induction false} AscendingNext(bars: seq<Bar>, bar: Bar)
    requires Ascending(bars) && (bars != [] ==> bars[|bars| - 1].ts < bar.ts)
    ensures Ascending(bars + [bar])
    ensures forall i :: 0 <= i < |bars| ==> bars[i].ts < bar.ts
  {
    forall i | 0 <= i < |bars|
      ensures bars[i].ts < bar.ts
    {
      assert i < |bars| - 1 ==> bars[i].ts < bars[|bars| - 1].ts;
    }
  }

  /** Every tick has the bar of its bucket. */
  ghost predicate Covered(interval: real, bars: seq<Bar>, ts: seq<Tick>)
    requires interval > 0.0
  {
    forall t :: t in ts ==> exists i :: 0 <= i < |bars| && bars[i].ts == Bucket(interval, t.ts)
  }

  /** The bars keep their buckets, and the last is that of the new tick. */
  lemma {:induction false} CoveredNext(interval: real, bars: seq<Bar>, bars1: seq<Bar>, ts: seq<Tick>, t: Tick)
    requires interval > 0.0 && Covered(interval, bars, ts) && |bars| <= |bars1| && bars1 != []
    requires forall i :: 0 <= i < |bars| ==> bars1[i].ts == bars[i].ts
    requires bars1[|bars1| - 1].ts == Bucket(interval, t.ts)
    ensures Covered(interval, bars1, ts + [t])
  {
    forall x | x in ts + [t]
      ensures exists i :: 0 <= i < |bars1| && bars1[i].ts == Bucket(interval, x.ts)
    {
      if x in ts {
        var i :| 0 <= i < |bars| && bars[i].ts == Bucket(interval, x.ts);
        assert bars1[i].ts == bars[i].ts;
      } else {
        assert bars1[|bars1| - 1].ts == Bucket(interval, x.ts);
      }
    }
  }

  lemma {:induction false} GroupEmpty(interval: real, ts: seq<Tick>, b: real)
    requires interval > 0.0 && forall t :: t in ts ==> Bucket(interval, t.ts) != b
    ensures Group(interval, ts, b) == []
  {
    if ts != [] {
      GroupEmpty(interval, ts[..|ts| - 1], b);
      assert ts[|ts| - 1] in ts;
    }
  }

  /** The bar of a group grows with the group. */
  lemma {:induction false} AbsorbGroup(bar: Bar, ts: seq<Tick>, t: Tick)
    requires BarOfGroup(bar, ts)
    ensures BarOfGroup(Absorb(bar, t), ts + [t])
  {
    assert (ts + [t])[..|ts|] == ts;
  }

  lemma {:induction false} SingleGroup(b: real, t: Tick)
    ensures BarOfGroup(BarFrom(b, t), [t])
  {
    assert [t][..0] == [];
  }

  lemma {:induction false} GroupNext(interval: real, ts: seq<Tick>, t: Tick, b: real)
    requires interval > 0.0
    ensures Group(interval, ts + [t], b) == Group(interval, ts, b) + (if Bucket(interval, t.ts) == b then [t] else [])
  {
    assert (ts + [t])[..|ts|] == ts;
  }

  lemma {:induction false} SameTimes(bars: seq<Bar>, bars1: seq<Bar>)
    requires Ascending(bars) && |bars1| == |bars|
    requires forall i :: 0 <= i < |bars| ==> bars1[i].ts == bars[i].ts
    ensures Ascending(bars1)
  {
  }

  /** A tick in the open bucket. */
  lemma {:induction false} AbsorbGroups(interval: real, bars: seq<Bar>, ts: seq<Tick>, t: Tick)
    requires interval > 0.0 && Grouped(interval, bars, ts)
    requires bars != [] && Bucket(interval, t.ts) == bars[|bars| - 1].ts
    ensures Grouped(interval, bars[|bars| - 1 := Absorb(bars[|bars| - 1], t)], ts + [t])
  {
    var n := |bars| - 1;
    var b := bars[n].ts;
    var bars1 := bars[n := Absorb(bars[n], t)];
    SameTimes(bars, bars1);
    AbsorbGroup(bars[n], Group(interval, ts, b), t);
    forall i | 0 <= i < |bars1|
      ensures BarOfGroup(bars1[i], Group(interval, ts + [t], bars1[i].ts))
    {
      if i < n {
        assert bars1[i] == bars[i] && bars[i].ts < b;
        OtherGroup(interval, ts, t, bars[i]);
      } else {
        GroupNext(interval, ts, t, b);
      }
    }
    CoveredNext(interval, bars, bars1, ts, t);
  }

  lemma {:induction false} OtherGroup(interval: real, ts: seq<Tick>, t: Tick, bar: Bar)
    requires interval > 0.0 && BarOfGroup(bar, Group(interval, ts, bar.ts)) && Bucket(interval, t.ts) != bar.ts
    ensures BarOfGroup(bar, Group(interval, ts + [t], bar.ts))
  {
    GroupNext(interval, ts, t, bar.ts);
    assert Group(interval, ts, bar.ts) + [] == Group(interval, ts, bar.ts);
  }

  lemma {:induction false} FirstOfGroup(interval: real, ts: seq<Tick>, t: Tick)
    requires interval > 0.0 && Group(interval, ts, Bucket(interval, t.ts)) == []
    ensures var b := Bucket(interval, t.ts); BarOfGroup(BarFrom(b, t), Group(interval, ts + [t], b))
  {
    var b := Bucket(interval, t.ts);
    GroupNext(interval, ts, t, b);
    SingleGroup(b, t);
    assert [] + [t] == [t];
  }

  lemma {:induction false} NewBucketIsEmpty(interval: real, bars: seq<Bar>, ts: seq<Tick>, b: real)
    requires interval > 0.0 && Grouped(interval, bars, ts) && (bars != [] ==> b > bars[|bars| - 1].ts)
    ensures Group(interval, ts, b) == []
  {
    forall x | x in ts
      ensures Bucket(interval, x.ts) != b
    {
      var i :| 0 <= i < |bars| && bars[i].ts == Bucket(interval, x.ts);
      assert bars[i].ts <= bars[|bars| - 1].ts;
    }
    GroupEmpty(interval, ts, b);
  }

  /** A tick in a later bucket than any seen. */
  lemma {:induction false} OpenGroups(interval: real, bars: seq<Bar>, ts: seq<Tick>, t: Tick)
    requires interval > 0.0 && Grouped(interval, bars, ts)
    requires bars != [] ==> Bucket(interval, t.ts) > bars[|bars| - 1].ts
    ensures Grouped(interval, bars + [BarFrom(Bucket(interval, t.ts), t)], ts + [t])
  {
    var b := Bucket(interval, t.ts);
    var bars1 := bars + [BarFrom(b, t)];
    AscendingNext(bars, BarFrom(b, t));
    NewBucketIsEmpty(interval, bars, ts, b);
    forall i | 0 <= i < |bars1|
      ensures BarOfGroup(bars1[i], Group(interval, ts + [t], bars1[i].ts))
    {
      if i < |bars| {
        assert bars1[i] == bars[i];
        OtherGroup(interval, ts, t, bars[i]);
      } else {
        FirstOfGroup(interval, ts, t);
      }
    }
    CoveredNext(interval, bars, bars1, ts, t);
  }

  lemma {:induction false} StepGroups(interval: real, f: Feed, ts: seq<Tick>, t: Tick)
    requires interval > 0.0 && Grouped(interval, AllBars(f), ts) && (f.open.None? ==> f.done == [])
    requires Accepts(interval, f.open, t)
    ensures Grouped(interval, AllBars(Step(interval, f, t)), ts + [t])
  {
    var bars, bars1 := AllBars(f), AllBars(Step(interval, f, t));
    if f.open.Some? && Bucket(interval, t.ts) == f.open.value.ts {
      AbsorbGroups(interval, bars, ts, t);
      assert bars1 == bars[|bars| - 1 := Absorb(f.open.value, t)];
    } else {
      OpenGroups(interval, bars, ts, t);
      assert bars1 == bars + [BarFrom(Bucket(interval, t.ts), t)];
    }
  }

  /** Emitted bars and the open one are exactly the accepted ticks grouped by
      bucket, in strictly increasing bucket order - for ticks in any order. */
  lemma {:induction false} BarsAreGroups(interval: real, ts: seq<Tick>)
    requires interval > 0.0
    ensures Grouped(interval, AllBars(Run(interval, ts)), Accepted(interval, ts))
    ensures Run(interval, ts).open.None? ==> Run(interval, ts).done == []
  {
    if ts != [] {
      var init, t := ts[..|ts| - 1], ts[|ts| - 1];
      BarsAreGroups(interval, init);
      var f := Run(interval, init);
      if Accepts(interval, f.open, t) {
        StepGroups(interval, f, Accepted(interval, init), t);
      } else {
        assert Accepted(interval, ts) == Accepted(interval, init);
      }
    }
  }

  lemma {:induction false} BarVolumeNext(bars: seq<Bar>, bar: Bar)
    ensures BarVolume(bars + [bar]) == BarVolume(bars) + bar.volume
  {
    assert (bars + [bar])[..|bars|] == bars;
  }

  lemma {:induction false} StepVolume(interval: real, f: Feed, t: Tick)
    requires interval > 0.0 && Accepts(interval, f.open, t)
    ensures BarVolume(AllBars(Step(interval, f, t))) == BarVolume(AllBars(f)) + t.volume
  {
    var f1 := Step(interval, f, t);
    BarVolumeNext(f1.done, f1.open.value);
    if f.open.Some? {
      BarVolumeNext(f.done, f.open.value);
    } else {
      assert AllBars(f) == f.done;
    }
  }

  /** No accepted volume is lost or counted twice. */
  lemma {:induction false} VolumeIsConserved(interval: real, ts: seq<Tick>)
    requires interval > 0.0
    ensures BarVolume(AllBars(Run(interval, ts))) == Volume(Accepted(interval, ts))
  {
    if ts != [] {
      var init, t := ts[..|ts| - 1], ts[|ts| - 1];
      VolumeIsConserved(interval, init);
      var accepted := Accepted(interval, init);
      if Accepts(interval, Run(interval, init).open, t) {
        StepVolume(interval, Run(interval, init), t);
        assert (accepted + [t])[..|accepted|] == accepted;
      } else {
        assert Accepted(interval, ts) == accepted;
      }
    }
  }

  /** Some tick falls into a bucket after b. */
  ghost predicate LaterSeen(interval: real, ts: seq<Tick>, b: real)
    requires interval > 0.0
  {
    exists x :: x in ts && Bucket(interval, x.ts) > b
  }

  lemma {:induction false} LaterSeenNext(interval: real, ts: seq<Tick>, b: real)
    requires interval > 0.0 && ts != []
    ensures LaterSeen(interval, ts, b)
            <==> LaterSeen(interval, ts[..|ts| - 1], b) || Bucket(interval, ts[|ts| - 1].ts) > b
  {
    assert ts == ts[..|ts| - 1] + [ts[|ts| - 1]];
    assert forall x :: x in ts <==> x in ts[..|ts| - 1] || x == ts[|ts| - 1];
  }

  /** A tick is dropped exactly when a later bucket has already been opened by an
      earlier tick: history is never rewritten. */
  lemma {:induction false} StaleIff(interval: real, ts: seq<Tick>, t: Tick)
    requires interval > 0.0
    ensures !Accepts(interval, Run(interval, ts).open, t)
            <==> LaterSeen(interval, ts, Bucket(interval, t.ts))
  {
    if ts != [] {
      var init, last := ts[..|ts| - 1], ts[|ts| - 1];
      StaleIff(interval, init, t);
      StaleIff(interval, init, last);
      LaterSeenNext(interval, ts, Bucket(interval, t.ts));
    }
  }
}
