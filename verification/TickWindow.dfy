/** The anomaly guard's sliding window and its cool-off. The window forgets old
    ticks, yet for a stream in time order its volume and returns are those of the
    whole stream. */
module TickWindow {
  import opened Basics

  datatype Tick = Tick(ts: real, price: real, bid: real, ask: real, volume: real)

  predicate InOrder(xs: seq<Tick>) {
    forall i, j :: 0 <= i < j < |xs| ==> xs[i].ts <= xs[j].ts
  }

  // ---------- the window as a value ----------

  /** Ticks popped from the front while older than the cutoff. */
  function DropOld(xs: seq<Tick>, cutoff: real): seq<Tick> {
    if xs == [] || xs[0].ts >= cutoff then xs else DropOld(xs[1..], cutoff)
  }

  function Add(xs: seq<Tick>, t: Tick, maxAge: real): seq<Tick> {
    DropOld(xs + [t], t.ts - maxAge)
  }

  /** The last tick before the scan meets one later than the target. */
  function Scan(xs: seq<Tick>, target: real, base: Option<Tick>): Option<Tick>
    decreases |xs|
  {
    if xs == [] || xs[0].ts > target then base else Scan(xs[1..], target, Some(xs[0]))
  }

  function ReturnFrom(base: Option<Tick>, last: Tick): Option<real> {
    if base.None? || base.value.price <= 0.0 then None
    else Some((last.price - base.value.price) / base.value.price)
  }

  function ReturnOver(xs: seq<Tick>, seconds: real): Option<real> {
    if xs == [] then None
    else
      var last := xs[|xs| - 1];
      ReturnFrom(Scan(xs, last.ts - seconds, None), last)
  }

  /** Volume of the ticks at or after the cutoff. */
  function VolumeSince(xs: seq<Tick>, cutoff: real): real {
    if xs == [] then 0.0
    else
      var t := xs[|xs| - 1];
      VolumeSince(xs[..|xs| - 1], cutoff) + (if t.ts >= cutoff then t.volume else 0.0)
  }

  function VolumeOver(xs: seq<Tick>, seconds: real): real {
    if xs == [] then 0.0 else VolumeSince(xs, xs[|xs| - 1].ts - seconds)
  }

  class Window {
    const maxAge: real
    var ticks: seq<Tick>

    constructor (maxAge: real)
      ensures this.maxAge == maxAge && ticks == []
    {
      this.maxAge := maxAge;
      ticks := [];
    }

    method Push(t: Tick)
      modifies this
      ensures ticks == Add(old(ticks), t, maxAge)
    {
      ticks := ticks + [t];
      var cutoff := t.ts - maxAge;
      while ticks != [] && ticks[0].ts < cutoff
        invariant DropOld(ticks, cutoff) == DropOld(old(ticks) + [t], cutoff)
        decreases |ticks|
      {
        ticks := ticks[1..];
      }
    }

    method Return(seconds: real) returns (r: Option<real>)
      ensures r == ReturnOver(ticks, seconds)
    {
      if ticks == [] {
        return None;
      }
      var last := ticks[|ticks| - 1];
      var target := last.ts - seconds;
      var base: Option<Tick> := None;
      var i := 0;
      while i < |ticks|
        invariant i <= |ticks|
        invariant Scan(ticks[i..], target, base) == Scan(ticks, target, None)
      {
        if ticks[i].ts > target {
          break;
        }
        base := Some(ticks[i]);
        assert ticks[i..][1..] == ticks[i + 1..];
        i := i + 1;
      }
      if base.None? || base.value.price <= 0.0 {
        return None;
      }
      return Some((last.price - base.value.price) / base.value.price);
    }

    method Volume(seconds: real) returns (v: real)
      ensures v == VolumeOver(ticks, seconds)
    {
      if ticks == [] {
        return 0.0;
      }
      var cutoff := ticks[|ticks| - 1].ts - seconds;
      v := 0.0;
      for i := 0 to |ticks|
        invariant v == VolumeSince(ticks[..i], cutoff)
      {
        assert ticks[..i + 1][..i] == ticks[..i];
        if ticks[i].ts >= cutoff {
          v := v + ticks[i].volume;
        }
      }
      assert ticks[..|ticks|] == ticks;
    }
  }

  // ---------- against the whole stream ----------

  /** The window after a stream has been pushed into it. */
  function WindowOf(stream: seq<Tick>, maxAge: real): seq<Tick> {
    if stream == [] then []
    else Add(WindowOf(stream[..|stream| - 1], maxAge), stream[|stream| - 1], maxAge)
  }

  /** The latest tick of a stream at or before an instant. */
  function AsOf(stream: seq<Tick>, target: real): Option<Tick> {
    if stream == [] then None
    else if stream[|stream| - 1].ts <= target then Some(stream[|stream| - 1])
    else AsOf(stream[..|stream| - 1], target)
  }

  lemma {:induction false} DropTwice(xs: seq<Tick>, t: Tick, c1: real, c2: real)
    requires c1 <= c2
    ensures DropOld(DropOld(xs, c1) + [t], c2) == DropOld(xs + [t], c2)
    decreases |xs|
  {
    if xs != [] && xs[0].ts < c1 {
      DropTwice(xs[1..], t, c1, c2);
      assert (xs + [t])[1..] == xs[1..] + [t];
    }
  }

  lemma {:induction false} AddDropsOnce(window: seq<Tick>, xs: seq<Tick>, t: Tick, maxAge: real)
    requires xs != [] && xs[|xs| - 1].ts <= t.ts && window == DropOld(xs, xs[|xs| - 1].ts - maxAge)
    ensures Add(window, t, maxAge) == DropOld(xs + [t], t.ts - maxAge)
  {
    DropTwice(xs, t, xs[|xs| - 1].ts - maxAge, t.ts - maxAge);
  }

  lemma {:induction false} InOrderInit(stream: seq<Tick>)
    requires InOrder(stream) && |stream| > 1
    ensures var init := stream[..|stream| - 1];
            InOrder(init) && init[|init| - 1].ts <= stream[|stream| - 1].ts
  {
  }

  lemma {:induction false} WindowIsRecent(stream: seq<Tick>, maxAge: real)
    requires InOrder(stream) && stream != [] && maxAge >= 0.0
    ensures WindowOf(stream, maxAge) == DropOld(stream, stream[|stream| - 1].ts - maxAge)
  {
    var init, t := stream[..|stream| - 1], stream[|stream| - 1];
    assert init + [t] == stream;
    if init != [] {
      InOrderInit(stream);
      WindowIsRecent(init, maxAge);
      AddDropsOnce(WindowOf(init, maxAge), init, t, maxAge);
    }
  }

  /** Dropping is taking a suffix whose ticks are, in time order, all recent. */
  lemma {:induction false} DropOldSuffix(xs: seq<Tick>, c: real) returns (k: nat)
    requires InOrder(xs)
    ensures k <= |xs| && DropOld(xs, c) == xs[k..]
    ensures forall i :: 0 <= i < k ==> xs[i].ts < c
    ensures forall i :: k <= i < |xs| ==> xs[i].ts >= c
    decreases |xs|
  {
    if xs == [] || xs[0].ts >= c {
      k := 0;
    } else {
      var j := DropOldSuffix(xs[1..], c);
      k := j + 1;
      assert xs[1..][j..] == xs[k..];
      forall i | 0 <= i < |xs|
        ensures if i < k then xs[i].ts < c else xs[i].ts >= c
      {
        assert i > 0 ==> xs[i] == xs[1..][i - 1];
      }
    }
  }

  lemma {:induction false} VolumeOfSuffix(xs: seq<Tick>, k: nat, c: real)
    requires k <= |xs| && forall i :: 0 <= i < k ==> xs[i].ts < c
    ensures VolumeSince(xs[k..], c) == VolumeSince(xs, c)
    decreases |xs|
  {
    if xs != [] {
      var init := xs[..|xs| - 1];
      if k == |xs| {
        VolumeOfSuffix(init, |init|, c);
        assert init[|init|..] == [];
      } else {
        VolumeOfSuffix(init, k, c);
        assert xs[k..][..|xs[k..]| - 1] == init[k..];
      }
    }
  }

  /** The volume over any span the window covers is that of the whole stream. */
  lemma {:induction false} VolumeRefinesStream(stream: seq<Tick>, maxAge: real, seconds: real)
    requires InOrder(stream) && 0.0 <= seconds <= maxAge
    ensures VolumeOver(WindowOf(stream, maxAge), seconds) == VolumeOver(stream, seconds)
  {
    if stream != [] {
      WindowIsRecent(stream, maxAge);
      var last := stream[|stream| - 1];
      var k := DropOldSuffix(stream, last.ts - maxAge);
      VolumeOfSuffix(stream, k, last.ts - seconds);
    }
  }

  /** In time order the scan finds the latest tick at or before the target. */
  lemma {:induction false} ScanIsAsOf(xs: seq<Tick>, target: real, base: Option<Tick>)
    requires InOrder(xs)
    ensures Scan(xs, target, base) == if AsOf(xs, target).Some? then AsOf(xs, target) else base
    decreases |xs|
  {
    if xs == [] {
    } else if xs[0].ts > target {
      AllLater(xs, target);
    } else {
      ScanIsAsOf(xs[1..], target, Some(xs[0]));
      AsOfHead(xs, target);
    }
  }

  lemma {:induction false} AllLater(xs: seq<Tick>, target: real)
    requires forall i :: 0 <= i < |xs| ==> xs[i].ts > target
    ensures AsOf(xs, target) == None
  {
    if xs != [] {
      AllLater(xs[..|xs| - 1], target);
    }
  }

  lemma {:induction false} AsOfHead(xs: seq<Tick>, target: real)
    requires xs != [] && xs[0].ts <= target
    ensures AsOf(xs, target) == if AsOf(xs[1..], target).Some? then AsOf(xs[1..], target) else Some(xs[0])
  {
    if xs[|xs| - 1].ts > target {
      AsOfHead(xs[..|xs| - 1], target);
      assert xs[..|xs| - 1][1..] == xs[1..][..|xs[1..]| - 1];
    }
  }

  lemma {:induction false} AsOfSuffix(xs: seq<Tick>, k: nat, target: real)
    requires InOrder(xs) && k <= |xs|
    ensures AsOf(xs[k..], target)
         == if exists i :: k <= i < |xs| && xs[i].ts <= target then AsOf(xs, target) else None
    decreases |xs|
  {
    if k < |xs| {
      var init := xs[..|xs| - 1];
      assert xs[k..][..|xs[k..]| - 1] == init[k..];
      if xs[|xs| - 1].ts > target {
        AsOfSuffix(init, k, target);
        assert forall i :: 0 <= i < |init| ==> init[i] == xs[i];
      }
    }
  }

  lemma {:induction false} AsOfMember(xs: seq<Tick>, target: real) returns (i: nat)
    requires AsOf(xs, target).Some?
    ensures i < |xs| && xs[i] == AsOf(xs, target).value && xs[i].ts <= target
    ensures forall j :: i < j < |xs| ==> xs[j].ts > target
  {
    if xs[|xs| - 1].ts <= target {
      i := |xs| - 1;
    } else {
      i := AsOfMember(xs[..|xs| - 1], target);
    }
  }

  /** The return over a span is measured from the stream's latest tick at or before
      its start, when the window still holds that tick; otherwise there is none. */
  lemma {:induction false} ReturnRefinesStream(stream: seq<Tick>, maxAge: real, seconds: real)
    requires InOrder(stream) && stream != [] && 0.0 <= seconds <= maxAge
    ensures var last := stream[|stream| - 1];
            var base := AsOf(stream, last.ts - seconds);
            ReturnOver(WindowOf(stream, maxAge), seconds)
            == if base.Some? && base.value.ts >= last.ts - maxAge then ReturnFrom(base, last) else None
  {
    var last := stream[|stream| - 1];
    var target := last.ts - seconds;
    WindowIsRecent(stream, maxAge);
    var k := DropOldSuffix(stream, last.ts - maxAge);
    assert k < |stream|;
    var w := stream[k..];
    assert WindowOf(stream, maxAge) == w && w[|w| - 1] == last;
    InOrderSuffix(stream, k);
    ScanIsAsOf(w, target, None);
    AsOfRecent(stream, k, target, last.ts - maxAge);
  }

  lemma {:induction false} InOrderSuffix(xs: seq<Tick>, k: nat)
    requires InOrder(xs) && k <= |xs|
    ensures InOrder(xs[k..])
  {
  }

  /** The suffix of recent ticks knows the latest tick before an instant exactly
      when that tick is recent. */
  lemma {:induction false} AsOfRecent(xs: seq<Tick>, k: nat, target: real, c: real)
    requires InOrder(xs) && k <= |xs|
    requires forall i :: 0 <= i < k ==> xs[i].ts < c
    requires forall i :: k <= i < |xs| ==> xs[i].ts >= c
    ensures var base := AsOf(xs, target);
            AsOf(xs[k..], target) == if base.Some? && base.value.ts >= c then base else None
  {
    AsOfSuffix(xs, k, target);
    if AsOf(xs, target).Some? {
      var i := AsOfMember(xs, target);
    } else if exists i :: k <= i < |xs| && xs[i].ts <= target {
      var i :| k <= i < |xs| && xs[i].ts <= target;
      AsOfExists(xs, i, target);
    }
  }

  lemma {:induction false} AsOfExists(xs: seq<Tick>, i: nat, target: real)
    requires i < |xs| && xs[i].ts <= target
    ensures AsOf(xs, target).Some?
  {
    if xs[|xs| - 1].ts > target {
      AsOfExists(xs[..|xs| - 1], i, target);
    }
  }
}
