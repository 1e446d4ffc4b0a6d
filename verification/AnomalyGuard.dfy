/** Shock detection per symbol and the cool-off that keeps acted shocks of one
    symbol apart. */
module AnomalyGuard {
  import opened Basics
  import opened TickWindow

  /** Sigma multiples per horizon, in the order they are tried. */
  datatype Config = Config(velocity: seq<(real, real)>, spreadMult: real, volumeMult: real, cooloff: real)

  datatype Baseline = Baseline(sigma: map<real, real>, medianSpread: real, volume30s: real)

  datatype Trigger = Velocity(horizon: real) | SpreadBlowout | VolumeSpike

  const MAX_AGE: real := 60.0

  /** The first horizon whose return exceeds its band; one is enough. */
  function VelocityTrigger(bands: seq<(real, real)>, base: Baseline, ticks: seq<Tick>): seq<Trigger>
    decreases |bands|
  {
    if bands == [] then []
    else
      var (horizon, k) := bands[0];
      var sigma := if horizon in base.sigma then base.sigma[horizon] else 0.0;
      var ret := if sigma <= 0.0 then None else ReturnOver(ticks, horizon);
      if ret.Some? && Abs(ret.value) > k * sigma then [Velocity(horizon)]
      else VelocityTrigger(bands[1..], base, ticks)
  }

  predicate SpreadBlown(cfg: Config, base: Baseline, t: Tick) {
    base.medianSpread > 0.0 && Max(0.0, t.ask - t.bid) > cfg.spreadMult * base.medianSpread
  }

  predicate VolumeSpiked(cfg: Config, base: Baseline, volume: real) {
    base.volume30s > 0.0 && volume > cfg.volumeMult * base.volume30s
  }

  function Triggers(cfg: Config, base: Baseline, ticks: seq<Tick>, t: Tick): seq<Trigger> {
    VelocityTrigger(cfg.velocity, base, ticks)
    + (if SpreadBlown(cfg, base, t) then [SpreadBlowout] else [])
    + (if VolumeSpiked(cfg, base, VolumeOver(ticks, 30.0)) then [VolumeSpike] else [])
  }

  /** A symbol's side of the guard: its window and the time of its last acted shock. */
  datatype Watch = Watch(ticks: seq<Tick>, lastShock: Option<real>)

  /** One tick: the new watch and the triggers acted on (none while cooling off). */
  function Process(cfg: Config, base: Option<Baseline>, w: Watch, t: Tick): (Watch, seq<Trigger>) {
    var w1 := w.(ticks := Add(w.ticks, t, MAX_AGE));
    if base.None? then (w1, [])
    else
      var found := Triggers(cfg, base.value, w1.ticks, t);
      if found == [] || (w.lastShock.Some? && t.ts - w.lastShock.value < cfg.cooloff) then (w1, [])
      else (w1.(lastShock := Some(t.ts)), found)
  }

  /** The events an acted shock leaves on record. */
  function Noted(s: Symbol, found: seq<Trigger>, ts: real): seq<(Symbol, Trigger, real)> {
    seq(|found|, i requires 0 <= i < |found| => (s, found[i], ts))
  }

  class Guard {
    const cfg: Config
    var windows: map<Symbol, Window>
    var baselines: map<Symbol, Baseline>
    var lastShock: map<Symbol, real>
    var events: seq<(Symbol, Trigger, real)>

    ghost predicate Valid()
      reads this, windows.Values
    {
      && (forall s :: s in windows ==> windows[s].maxAge == MAX_AGE)
      && (forall s, u :: s in windows && u in windows && s != u ==> windows[s] != windows[u])
    }

    ghost function WatchOf(s: Symbol): Watch
      reads this, windows.Values
    {
      Watch(if s in windows then windows[s].ticks else [],
            if s in lastShock then Some(lastShock[s]) else None)
    }

    constructor (cfg: Config)
      ensures Valid() && this.cfg == cfg && windows == map[] && baselines == map[] && lastShock == map[]
    {
      this.cfg, windows, baselines, lastShock, events := cfg, map[], map[], map[], [];
    }

    /** The symbol's window, opened at its first tick, takes the tick in. */
    method Feed(symbol: Symbol, t: Tick)
      requires Valid()
      modifies this`windows, windows.Values
      ensures Valid() && symbol in windows
      ensures WatchOf(symbol) == old(WatchOf(symbol)).(ticks := Add(old(WatchOf(symbol)).ticks, t, MAX_AGE))
      ensures forall s :: s != symbol ==> WatchOf(s) == old(WatchOf(s))
    {
      if symbol !in windows {
        var w := new Window(MAX_AGE);
        windows := windows[symbol := w];
      }
      windows[symbol].Push(t);
    }

    method ProcessTick(symbol: Symbol, t: Tick) returns (acted: seq<Trigger>)
      requires Valid()
      modifies this, windows.Values
      ensures Valid() && baselines == old(baselines)
      ensures (WatchOf(symbol), acted)
           == Process(cfg, if symbol in baselines then Some(baselines[symbol]) else None, old(WatchOf(symbol)), t)
      ensures forall s :: s != symbol ==> WatchOf(s) == old(WatchOf(s))
      ensures events == old(events) + Noted(symbol, acted, t.ts)
    {
      Feed(symbol, t);
      var window := windows[symbol];
      if symbol !in baselines {
        return [];
      }
      var found := Triggers(cfg, baselines[symbol], window.ticks, t);
      if found == [] {
        return [];
      }
      if symbol in lastShock && t.ts - lastShock[symbol] < cfg.cooloff {
        return [];
      }
      lastShock := lastShock[symbol := t.ts];
      events := events + Noted(symbol, found, t.ts);
      return found;
    }
  }

  // ---------- runs over one symbol's ticks ----------

  /** A tick and the symbol's baseline when it came, which `prime` may set or change
      between any two ticks. */
  datatype Seen = Seen(tick: Tick, base: Option<Baseline>)

  function Ticks(stream: seq<Seen>): seq<Tick> {
    if stream == [] then [] else Ticks(stream[..|stream| - 1]) + [stream[|stream| - 1].tick]
  }

  function After(cfg: Config, stream: seq<Seen>): Watch {
    if stream == [] then Watch([], None)
    else
      var last := stream[|stream| - 1];
      Process(cfg, last.base, After(cfg, stream[..|stream| - 1]), last.tick).0
  }

  /** The times of the ticks that were acted on. */
  function ActedAt(cfg: Config, stream: seq<Seen>): seq<real> {
    if stream == [] then []
    else
      var init, last := stream[..|stream| - 1], stream[|stream| - 1];
      ActedAt(cfg, init)
      + (if Process(cfg, last.base, After(cfg, init), last.tick).1 != [] then [last.tick.ts] else [])
  }

  ghost predicate Apart(times: seq<real>, gap: real) {
    forall i, j :: 0 <= i < j < |times| ==> times[j] - times[i] >= gap
  }

  lemma {:induction false} OneMore(times: seq<real>, gap: real, t: real)
    requires Apart(times, gap) && gap >= 0.0 && (times != [] ==> t - times[|times| - 1] >= gap)
    ensures Apart(times + [t], gap)
  {
    forall i | 0 <= i < |times|
      ensures t - times[i] >= gap
    {
      assert i < |times| - 1 ==> times[|times| - 1] - times[i] >= gap;
    }
  }

  lemma {:induction false} CoolOff(cfg: Config, base: Option<Baseline>, w: Watch, t: Tick)
    ensures var (w1, acted) := Process(cfg, base, w, t);
            if acted == [] then w1.lastShock == w.lastShock
            else w1.lastShock == Some(t.ts) && (w.lastShock.Some? ==> t.ts - w.lastShock.value >= cfg.cooloff)
  {
  }

  /** Whatever the order of the ticks and however often the baseline changes, acted
      shocks of a symbol are at least one cool-off apart, and the guard remembers
      the latest. */
  lemma {:induction false} ShocksAreApart(cfg: Config, stream: seq<Seen>)
    requires cfg.cooloff >= 0.0
    ensures var acted := ActedAt(cfg, stream);
            && Apart(acted, cfg.cooloff)
            && After(cfg, stream).lastShock == (if acted == [] then None else Some(acted[|acted| - 1]))
  {
    if stream != [] {
      var init, last := stream[..|stream| - 1], stream[|stream| - 1];
      ShocksAreApart(cfg, init);
      CoolOff(cfg, last.base, After(cfg, init), last.tick);
      var was := ActedAt(cfg, init);
      if Process(cfg, last.base, After(cfg, init), last.tick).1 != [] {
        OneMore(was, cfg.cooloff, last.tick.ts);
      } else {
        assert ActedAt(cfg, stream) == was;
      }
    }
  }

  /** The guard's window is the tick window of the stream, so detection on a stream
      in time order sees the stream's own volume and returns. */
  lemma {:induction false} GuardWindow(cfg: Config, stream: seq<Seen>)
    ensures After(cfg, stream).ticks == WindowOf(Ticks(stream), MAX_AGE)
  {
    if stream != [] {
      var init, last := stream[..|stream| - 1], stream[|stream| - 1];
      GuardWindow(cfg, init);
      assert (Ticks(init) + [last.tick])[..|Ticks(init)|] == Ticks(init);
    }
  }

  /** A volume spike is judged on the whole stream's last 30 seconds. */
  lemma {:induction false} VolumeSpikeSeesTheStream(cfg: Config, base: Baseline, stream: seq<Tick>)
    requires InOrder(stream) && stream != []
    ensures VolumeSpike in Triggers(cfg, base, WindowOf(stream, MAX_AGE), stream[|stream| - 1])
            <==> VolumeSpiked(cfg, base, VolumeOver(stream, 30.0))
  {
    var w := WindowOf(stream, MAX_AGE);
    VolumeRefinesStream(stream, MAX_AGE, 30.0);
    NoSpikeFromVelocity(cfg.velocity, base, w);
  }

  lemma {:induction false} NoSpikeFromVelocity(bands: seq<(real, real)>, base: Baseline, ticks: seq<Tick>)
    ensures VolumeSpike !in VelocityTrigger(bands, base, ticks)
    decreases |bands|
  {
    if bands != [] {
      NoSpikeFromVelocity(bands[1..], base, ticks);
    }
  }

  // ---------- what a shock is ----------

  /** Tick n of the stream is the latest at or before an instant, and the window still
      remembers it. */
  predicate IsBase(stream: seq<Tick>, n: nat, target: real)
    requires n < |stream|
  {
    && stream[n].ts <= target && stream[n].ts >= stream[|stream| - 1].ts - 60.0
    && forall j :: n < j < |stream| ==> stream[j].ts > target
  }

  /** From base to last the price moves, up or down, by more than k sigma. */
  predicate MovesBeyond(base: Tick, last: Tick, k: real, sigma: real) {
    && base.price > 0.0
    && (last.price - base.price > k * sigma * base.price || base.price - last.price > k * sigma * base.price)
  }

  /** The band is broken: the symbol has a positive sigma for the horizon, and the price
      has moved too far since the stream's tick one horizon ago. */
  predicate Breaks(base: Baseline, stream: seq<Tick>, band: (real, real))
    requires stream != []
  {
    var (horizon, k) := band;
    var last := stream[|stream| - 1];
    && horizon in base.sigma && base.sigma[horizon] > 0.0
    && exists n :: 0 <= n < |stream| && IsBase(stream, n, last.ts - horizon)
                   && MovesBeyond(stream[n], last, k, base.sigma[horizon])
  }

  lemma {:induction false} AsOfIs(stream: seq<Tick>, target: real, n: nat)
    requires n < |stream| && stream[n].ts <= target && forall j :: n < j < |stream| ==> stream[j].ts > target
    ensures AsOf(stream, target) == Some(stream[n])
  {
    if n < |stream| - 1 {
      AsOfIs(stream[..|stream| - 1], target, n);
    }
  }

  lemma {:induction false} MoveIff(base: Tick, last: Tick, k: real, sigma: real)
    requires base.price > 0.0
    ensures Abs((last.price - base.price) / base.price) > k * sigma <==> MovesBeyond(base, last, k, sigma)
  {
    var d, p, x := last.price - base.price, base.price, k * sigma;
    BeyondIff(d, p, x);
    BeyondIff(-d, p, x);
    DivMul(d, p);
    DivMul(-d, p);
    OppositeQuotient(d, p);
  }

  lemma {:induction false} BeyondIff(d: real, p: real, x: real)
    requires p > 0.0
    ensures d / p > x <==> d > x * p
  {
    DivMul(d, p);
    var q := d / p;
    if q > x {
      MulMonoStrict(x, q, p);
    } else {
      MulMono(q, x, p);
    }
  }

  lemma {:induction false} OppositeQuotient(d: real, p: real)
    requires p > 0.0
    ensures -d / p == -(d / p)
  {
    DivMul(d, p);
    var q := d / p;
    assert -q * p == -d;
    DivMul(-q, p);
  }

  lemma {:induction false} BreaksIff(base: Baseline, stream: seq<Tick>, band: (real, real))
    requires InOrder(stream) && stream != [] && 0.0 <= band.0 <= MAX_AGE
    requires band.0 in base.sigma && base.sigma[band.0] > 0.0
    ensures var ret := ReturnOver(WindowOf(stream, MAX_AGE), band.0);
            Breaks(base, stream, band) <==> ret.Some? && Abs(ret.value) > band.1 * base.sigma[band.0]
  {
    var last := stream[|stream| - 1];
    var target := last.ts - band.0;
    var b := AsOf(stream, target);
    ReturnRefinesStream(stream, MAX_AGE, band.0);
    if Breaks(base, stream, band) {
      var n :| 0 <= n < |stream| && IsBase(stream, n, target)
               && MovesBeyond(stream[n], last, band.1, base.sigma[band.0]);
      AsOfIs(stream, target, n);
      MoveIff(stream[n], last, band.1, base.sigma[band.0]);
    } else if b.Some? && b.value.ts >= last.ts - MAX_AGE && b.value.price > 0.0 {
      var n := AsOfMember(stream, target);
      MoveIff(stream[n], last, band.1, base.sigma[band.0]);
      assert IsBase(stream, n, target);
    }
  }

  /** Band i is the first that is broken; there is none if i is their number. */
  predicate FirstBroken(bands: seq<(real, real)>, base: Baseline, stream: seq<Tick>, i: nat)
    requires stream != []
  {
    && i <= |bands| && (i < |bands| ==> Breaks(base, stream, bands[i]))
    && forall j :: 0 <= j < i ==> !Breaks(base, stream, bands[j])
  }

  lemma {:induction false} VelocityHead(bands: seq<(real, real)>, base: Baseline, stream: seq<Tick>)
    requires InOrder(stream) && stream != [] && bands != [] && 0.0 <= bands[0].0 <= MAX_AGE
    ensures VelocityTrigger(bands, base, WindowOf(stream, MAX_AGE))
         == if Breaks(base, stream, bands[0]) then [Velocity(bands[0].0)]
            else VelocityTrigger(bands[1..], base, WindowOf(stream, MAX_AGE))
  {
    if bands[0].0 in base.sigma && base.sigma[bands[0].0] > 0.0 {
      BreaksIff(base, stream, bands[0]);
    }
  }

  lemma {:induction false} VelocityRule(bands: seq<(real, real)>, base: Baseline, stream: seq<Tick>) returns (i: nat)
    requires InOrder(stream) && stream != [] && forall band :: band in bands ==> 0.0 <= band.0 <= MAX_AGE
    ensures FirstBroken(bands, base, stream, i)
    ensures VelocityTrigger(bands, base, WindowOf(stream, MAX_AGE))
         == if i < |bands| then [Velocity(bands[i].0)] else []
    decreases |bands|
  {
    i := 0;
    if bands != [] {
      assert bands[0] in bands;
      VelocityHead(bands, base, stream);
      if !Breaks(base, stream, bands[0]) {
        var rest := bands[1..];
        assert forall band :: band in rest ==> band in bands;
        var j := VelocityRule(rest, base, stream);
        i := j + 1;
        LaterBroken(bands, base, stream, j);
      }
    }
  }

  lemma {:induction false} LaterBroken(bands: seq<(real, real)>, base: Baseline, stream: seq<Tick>, j: nat)
    requires stream != [] && bands != [] && !Breaks(base, stream, bands[0])
    requires FirstBroken(bands[1..], base, stream, j)
    ensures FirstBroken(bands, base, stream, j + 1)
  {
    forall n | 0 <= n < j + 1
      ensures !Breaks(base, stream, bands[n])
    {
      assert n > 0 ==> bands[n] == bands[1..][n - 1];
    }
  }

  function VolumeSum(xs: seq<Tick>): real {
    if xs == [] then 0.0 else VolumeSum(xs[..|xs| - 1]) + xs[|xs| - 1].volume
  }

  /** In time order the ticks of a span are a suffix; its volume is their sum. */
  lemma {:induction false} VolumeIsSum(xs: seq<Tick>, k: nat, c: real)
    requires k <= |xs| && (forall i :: 0 <= i < k ==> xs[i].ts < c) && (forall i :: k <= i < |xs| ==> xs[i].ts >= c)
    ensures VolumeSince(xs, c) == VolumeSum(xs[k..])
  {
    if xs != [] {
      var init := xs[..|xs| - 1];
      if k == |xs| {
        VolumeIsSum(init, |init|, c);
        assert xs[k..] == [] && init[|init|..] == [];
      } else {
        VolumeIsSum(init, k, c);
        assert xs[k..][..|xs[k..]| - 1] == init[k..];
      }
    }
  }

  /** The last k ticks of the stream are those of its last 30 seconds. */
  predicate LastHalfMinute(stream: seq<Tick>, k: nat)
    requires stream != [] && k <= |stream|
  {
    var c := stream[|stream| - 1].ts - 30.0;
    (forall i :: 0 <= i < |stream| - k ==> stream[i].ts < c)
    && forall i :: |stream| - k <= i < |stream| ==> stream[i].ts >= c
  }

  lemma {:induction false} HalfMinuteVolume(stream: seq<Tick>, k: nat)
    requires InOrder(stream) && stream != [] && k <= |stream| && LastHalfMinute(stream, k)
    ensures VolumeOver(WindowOf(stream, MAX_AGE), 30.0) == VolumeSum(stream[|stream| - k..])
  {
    VolumeRefinesStream(stream, MAX_AGE, 30.0);
    VolumeIsSum(stream, |stream| - k, stream[|stream| - 1].ts - 30.0);
  }

  /** The triggers of a tick, for a stream in time order and bands within the window's
      memory: the first broken band i, if there is one; a spread beyond its multiple of
      the median; more volume in the last 30 seconds than its multiple of the usual -
      in this order, and nothing else. */
  lemma {:induction false} TriggerRule(cfg: Config, base: Baseline, stream: seq<Tick>) returns (i: nat, k: nat)
    requires InOrder(stream) && stream != [] && forall band :: band in cfg.velocity ==> 0.0 <= band.0 <= 60.0
    ensures FirstBroken(cfg.velocity, base, stream, i) && k <= |stream| && LastHalfMinute(stream, k)
    ensures var t := stream[|stream| - 1];
            var spread := if t.ask > t.bid then t.ask - t.bid else 0.0;
            var blown := base.medianSpread > 0.0 && spread > cfg.spreadMult * base.medianSpread;
            var spiked := base.volume30s > 0.0 && VolumeSum(stream[|stream| - k..]) > cfg.volumeMult * base.volume30s;
            Triggers(cfg, base, WindowOf(stream, MAX_AGE), t)
            == (if i < |cfg.velocity| then [Velocity(cfg.velocity[i].0)] else [])
               + (if blown then [SpreadBlowout] else []) + (if spiked then [VolumeSpike] else [])
  {
    i := VelocityRule(cfg.velocity, base, stream);
    var dropped := DropOldSuffix(stream, stream[|stream| - 1].ts - 30.0);
    k := |stream| - dropped;
    HalfMinuteVolume(stream, k);
  }

  /** The guard acts on a tick exactly when the symbol is primed, something is found,
      and no acted shock is less than a cool-off ago; then on all that is found. */
  lemma {:induction false} ActedRule(cfg: Config, stream: seq<Seen>)
    requires stream != [] && cfg.cooloff >= 0.0
    ensures var init, last := stream[..|stream| - 1], stream[|stream| - 1];
            var before := ActedAt(cfg, init);
            var acted := Process(cfg, last.base, After(cfg, init), last.tick).1;
            acted == if last.base.None? || (before != [] && last.tick.ts - before[|before| - 1] < cfg.cooloff) then []
                     else Triggers(cfg, last.base.value, WindowOf(Ticks(stream), MAX_AGE), last.tick)
  {
    var init, last := stream[..|stream| - 1], stream[|stream| - 1];
    ShocksAreApart(cfg, init);
    GuardWindow(cfg, init);
    assert (Ticks(init) + [last.tick])[..|Ticks(init)|] == Ticks(init);
  }
}
