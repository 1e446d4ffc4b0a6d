/** The golden-section search for the growth-optimal risk fraction. `log` is any
    function with log(1) = 0 that lies strictly below its tangents, `invphi` any
    positive root of x*x + x = 1, as the golden ratio's inverse is. */
module KellySearch {
  import opened Basics
  import opened Rounding

  /** log at y lies below its tangent at x. */
  predicate BelowTangent(log: real -> real, x: real, y: real)
    requires x > 0.0
  {
    log(y) < log(x) + (y - x) / x
  }

  ghost predicate LogLike(log: real -> real) {
    log(1.0) == 0.0 && forall x, y :: x > 0.0 && y > 0.0 && x != y ==> BelowTangent(log, x, y)
  }

  predicate Golden(phi: real) {
    phi > 0.0 && phi * phi + phi == 1.0
  }

  function Pow(x: real, n: nat): real {
    if n == 0 then 1.0 else x * Pow(x, n - 1)
  }

  // ---------- growth ----------

  function Wealth(f: real, r: real): real {
    1.0 + f * r
  }

  /** Every trade leaves something at fraction f. */
  predicate Survives(rs: seq<real>, f: real) {
    forall r :: r in rs ==> Wealth(f, r) > 0.0
  }

  function LogSum(log: real -> real, rs: seq<real>, f: real): real {
    if rs == [] then 0.0 else LogSum(log, rs[..|rs| - 1], f) + log(Wealth(f, rs[|rs| - 1]))
  }

  /** Mean log growth per trade; `None` outside the domain. */
  function Growth(log: real -> real, rs: seq<real>, f: real): Option<real>
    requires rs != []
  {
    if f < 0.0 then None
    else if f == 0.0 then Some(0.0)
    else if !Survives(rs, f) then None
    else Some(LogSum(log, rs, f) / |rs| as real)
  }

  /** Growth is a mean of logs: of one trade the log of what it leaves, ... */
  lemma {:induction false} GrowthOfOne(log: real -> real, r: real, f: real)
    requires f > 0.0
    ensures Growth(log, [r], f) == if 1.0 + f * r > 0.0 then Some(log(1.0 + f * r)) else None
  {
    var one := [r];
    assert one[..|one| - 1] == [] && one[|one| - 1] == r;
    assert Survives(one, f) <==> Wealth(f, r) > 0.0 by {
      assert r in one && forall x :: x in one ==> x == r;
    }
    assert LogSum(log, one, f) == LogSum(log, [], f) + log(Wealth(f, r));
    if Survives(one, f) {
      GrowthTimesCount(log, one, f);
    }
  }

  /** ... and of two lists together the weighted mean of theirs. */
  lemma {:induction false} GrowthOfBoth(log: real -> real, xs: seq<real>, ys: seq<real>, f: real)
    requires xs != [] && ys != [] && f > 0.0
    ensures var g, a, b := Growth(log, xs + ys, f), Growth(log, xs, f), Growth(log, ys, f);
            && (g.Some? <==> a.Some? && b.Some?)
            && (g.Some? ==> g.value * (|xs| + |ys|) as real == a.value * |xs| as real + b.value * |ys| as real)
  {
    LogSumAdds(log, xs, ys, f);
    SurvivesBoth(xs, ys, f);
    if Survives(xs + ys, f) {
      GrowthTimesCount(log, xs + ys, f);
      GrowthTimesCount(log, xs, f);
      GrowthTimesCount(log, ys, f);
    }
  }

  lemma {:induction false} SurvivesBoth(xs: seq<real>, ys: seq<real>, f: real)
    ensures Survives(xs + ys, f) <==> Survives(xs, f) && Survives(ys, f)
  {
    assert forall x :: x in xs + ys <==> x in xs || x in ys;
  }

  lemma {:induction false} GrowthTimesCount(log: real -> real, rs: seq<real>, f: real)
    requires rs != [] && f > 0.0 && Survives(rs, f)
    ensures var g := Growth(log, rs, f); g.Some? && g.value * |rs| as real == LogSum(log, rs, f)
  {
    DivMul(LogSum(log, rs, f), |rs| as real);
  }

  lemma {:induction false} LogSumAdds(log: real -> real, xs: seq<real>, ys: seq<real>, f: real)
    ensures LogSum(log, xs + ys, f) == LogSum(log, xs, f) + LogSum(log, ys, f)
  {
    if ys == [] {
      assert xs + ys == xs;
    } else {
      LogSumAdds(log, xs, ys[..|ys| - 1], f);
      assert (xs + ys)[..|xs + ys| - 1] == xs + ys[..|ys| - 1];
    }
  }

  method GrowthPerTrade(log: real -> real, rs: seq<real>, f: real) returns (g: Option<real>)
    requires rs != []
    ensures g == Growth(log, rs, f)
  {
    if f < 0.0 {
      return None;
    }
    if f == 0.0 {
      return Some(0.0);
    }
    var total := 0.0;
    for i := 0 to |rs|
      invariant total == LogSum(log, rs[..i], f)
      invariant Survives(rs[..i], f)
    {
      assert rs[..i + 1][..i] == rs[..i];
      var w := Wealth(f, rs[i]);
      if w <= 0.0 {
        assert rs[i] in rs;
        return None;
      }
      total := total + log(w);
    }
    assert rs[..|rs|] == rs;
    return Some(total / |rs| as real);
  }

  // ---------- concavity ----------

  function Slope(rs: seq<real>, f: real): real
    requires Survives(rs, f)
  {
    if rs == [] then 0.0
    else
      var r := rs[|rs| - 1];
      assert r in rs && forall x :: x in rs[..|rs| - 1] ==> x in rs;
      Slope(rs[..|rs| - 1], f) + r / Wealth(f, r)
  }

  lemma {:induction false} TangentOne(log: real -> real, r: real, x: real, y: real)
    requires LogLike(log) && Wealth(x, r) > 0.0 && Wealth(y, r) > 0.0
    ensures log(Wealth(y, r)) <= log(Wealth(x, r)) + (y - x) * (r / Wealth(x, r))
    ensures r != 0.0 && x != y ==> log(Wealth(y, r)) < log(Wealth(x, r)) + (y - x) * (r / Wealth(x, r))
  {
    var wx, wy := Wealth(x, r), Wealth(y, r);
    Distribute(y, x, r);
    assert wy - wx == (y - x) * r;
    assert (wy - wx) / wx == (y - x) * (r / wx);
    if wx == wy {
      assert (y - x) * r == 0.0;
    } else {
      assert BelowTangent(log, wx, wy);
    }
  }

  /** The tangent to the log-growth sum at x, evaluated at y. */
  function TangentAt(log: real -> real, rs: seq<real>, x: real, y: real): real
    requires Survives(rs, x)
  {
    LogSum(log, rs, x) + (y - x) * Slope(rs, x)
  }

  lemma {:induction false} TangentStep(log: real -> real, rs: seq<real>, x: real, y: real)
    requires rs != [] && Survives(rs, x)
    ensures var init, r := rs[..|rs| - 1], rs[|rs| - 1];
            && Survives(init, x) && Wealth(x, r) > 0.0
            && TangentAt(log, rs, x, y)
               == TangentAt(log, init, x, y) + (log(Wealth(x, r)) + (y - x) * (r / Wealth(x, r)))
  {
    var init, r := rs[..|rs| - 1], rs[|rs| - 1];
    assert r in rs && forall z :: z in init ==> z in rs;
    Distribute(Slope(init, x), r / Wealth(x, r), y - x);
  }

  /** The tangent at x lies above the log-growth sum, strictly away from x. */
  lemma {:induction false} Tangent(log: real -> real, rs: seq<real>, x: real, y: real)
    requires LogLike(log) && Survives(rs, x) && Survives(rs, y)
    ensures LogSum(log, rs, y) <= TangentAt(log, rs, x, y)
    ensures x != y && (exists r :: r in rs && r != 0.0) ==> LogSum(log, rs, y) < TangentAt(log, rs, x, y)
  {
    if rs != [] {
      var init, r := rs[..|rs| - 1], rs[|rs| - 1];
      assert rs == init + [r] && r in rs;
      TangentStep(log, rs, x, y);
      TangentStep(log, rs, y, y);
      Tangent(log, init, x, y);
      TangentOne(log, r, x, y);
    }
  }

  /** Strict concavity, three points at a time: the middle one is never the worst. */
  lemma {:induction false} MiddleBeatsAnEnd(log: real -> real, rs: seq<real>, x: real, y: real, z: real)
    requires LogLike(log) && Survives(rs, x) && Survives(rs, y) && Survives(rs, z)
    requires x < y < z && exists r :: r in rs && r != 0.0
    ensures LogSum(log, rs, y) > Min(LogSum(log, rs, x), LogSum(log, rs, z))
  {
    Tangent(log, rs, y, x);
    Tangent(log, rs, y, z);
    PickEnd(LogSum(log, rs, x), LogSum(log, rs, y), LogSum(log, rs, z), x - y, z - y, Slope(rs, y));
  }

  lemma {:induction false} PickEnd(sx: real, sy: real, sz: real, left: real, right: real, d: real)
    requires left < 0.0 < right && sx < sy + left * d && sz < sy + right * d
    ensures sy > Min(sx, sz)
  {
    if d >= 0.0 {
      MulMono(left, 0.0, d);
    } else {
      MulMono(d, 0.0, right);
    }
  }

  // ---------- the domain ----------

  function Worst(rs: seq<real>): real
    requires rs != []
  {
    if |rs| == 1 then rs[0] else Min(Worst(rs[..|rs| - 1]), rs[|rs| - 1])
  }

  lemma {:induction false} WorstIsLeast(rs: seq<real>)
    requires rs != []
    ensures Worst(rs) in rs && forall r :: r in rs ==> Worst(rs) <= r
  {
    if |rs| > 1 {
      WorstIsLeast(rs[..|rs| - 1]);
      assert rs == rs[..|rs| - 1] + [rs[|rs| - 1]];
    }
  }

  function SumOf(rs: seq<real>): real {
    if rs == [] then 0.0 else SumOf(rs[..|rs| - 1]) + rs[|rs| - 1]
  }

  function FMax(rs: seq<real>): real
    requires rs != [] && Worst(rs) < 0.0
  {
    0.999 / -Worst(rs)
  }

  /** No fraction up to f_max can wipe the account: growth is never `None` there. */
  lemma {:induction false} DomainSurvives(rs: seq<real>, f: real)
    requires rs != [] && Worst(rs) < 0.0 && 0.0 <= f <= FMax(rs)
    ensures Survives(rs, f)
  {
    WorstIsLeast(rs);
    var worst := Worst(rs);
    DivMul(0.999, -worst);
    forall r | r in rs
      ensures Wealth(f, r) > 0.0
    {
      WealthPositive(f, FMax(rs), r, worst);
    }
  }

  lemma {:induction false} WealthPositive(f: real, fMax: real, r: real, worst: real)
    requires 0.0 <= f <= fMax && worst <= r && worst < 0.0 && fMax * -worst == 0.999
    ensures Wealth(f, r) > 0.0
  {
    MulMono(worst, r, f);
    MulMono(f, fMax, -worst);
    assert f * -worst == -(worst * f);
    assert r * f == f * r;
  }

  // ---------- the search ----------

  datatype KellyResult =
    | NoTrades
    | NoLosingTrade
    | NoEdge
    | Optimum(fStar: real, fMax: real, growth: real)

  /** Fractions dropped so far are strictly worse than one of the two probes. */
  ghost predicate Beaten(log: real -> real, rs: seq<real>, lo: real, hi: real, a: real, b: real)
    requires rs != [] && Worst(rs) < 0.0
  {
    forall f :: 0.0 <= f <= FMax(rs) && (f < lo || f > hi) ==>
                  LogSum(log, rs, f) < Max(LogSum(log, rs, a), LogSum(log, rs, b))
  }

  function LeftProbe(phi: real, lo: real, hi: real): real {
    hi - phi * (hi - lo)
  }

  function RightProbe(phi: real, lo: real, hi: real): real {
    lo + phi * (hi - lo)
  }

  predicate Placed(phi: real, lo: real, hi: real, a: real, b: real) {
    a == LeftProbe(phi, lo, hi) && b == RightProbe(phi, lo, hi)
  }

  /** Width of the bracket after k narrowings. */
  function Width(phi: real, k: nat, fMax: real): real {
    Pow(phi, k) * fMax
  }

  predicate Near(phi: real, fMax: real, f: real, centre: real) {
    Abs(f - centre) <= Width(phi, 80, fMax) / 2.0
  }

  lemma {:induction false} GoldenFacts(phi: real, w: real)
    requires Golden(phi)
    ensures 0.5 < phi < 1.0
    ensures phi * (phi * w) == w - phi * w
    ensures w > 0.0 ==> 0.0 < w - phi * w < phi * w < w
  {
    if phi >= 1.0 {
      MulMono(1.0, phi, phi);
      assert false;
    }
    if phi <= 0.5 {
      MulMono(phi, 0.5, phi);
      assert false;
    }
    assert phi * (phi * w) == (phi * phi) * w;
    assert phi * phi == 1.0 - phi;
    Distribute(1.0, phi, w);
    if w > 0.0 {
      MulMonoStrict(phi, 1.0, w);
      MulMonoStrict(0.5, phi, w);
    }
  }

  /** Dropping [lo, a) when the right probe is better. */
  lemma {:induction false} DropLeft(log: real -> real, rs: seq<real>, lo: real, hi: real, a: real, b: real, b1: real)
    requires LogLike(log) && rs != [] && Worst(rs) < 0.0 && 0.0 <= lo < a < b < hi <= FMax(rs)
    requires Beaten(log, rs, lo, hi, a, b) && LogSum(log, rs, b) > LogSum(log, rs, a)
    ensures Beaten(log, rs, a, hi, b, b1)
  {
    WorstIsLeast(rs);
    forall f | 0.0 <= f <= FMax(rs) && (f < a || f > hi)
      ensures LogSum(log, rs, f) < Max(LogSum(log, rs, b), LogSum(log, rs, b1))
    {
      if lo <= f < a {
        DomainSurvives(rs, f);
        DomainSurvives(rs, a);
        DomainSurvives(rs, b);
        MiddleBeatsAnEnd(log, rs, f, a, b);
      }
    }
  }

  /** Dropping (b, hi] when the left probe is at least as good. */
  lemma {:induction false} DropRight(log: real -> real, rs: seq<real>, lo: real, hi: real, a: real, b: real, a1: real)
    requires LogLike(log) && rs != [] && Worst(rs) < 0.0 && 0.0 <= lo < a < b < hi <= FMax(rs)
    requires Beaten(log, rs, lo, hi, a, b) && LogSum(log, rs, b) <= LogSum(log, rs, a)
    ensures Beaten(log, rs, lo, b, a1, a)
  {
    WorstIsLeast(rs);
    forall f | 0.0 <= f <= FMax(rs) && (f < lo || f > b)
      ensures LogSum(log, rs, f) < Max(LogSum(log, rs, a1), LogSum(log, rs, a))
    {
      if b < f <= hi {
        DomainSurvives(rs, f);
        DomainSurvives(rs, a);
        DomainSurvives(rs, b);
        MiddleBeatsAnEnd(log, rs, a, b, f);
      }
    }
  }

  lemma {:induction false} GrowthOrder(log: real -> real, rs: seq<real>, a: real, b: real)
    requires rs != [] && 0.0 < a && 0.0 < b && Survives(rs, a) && Survives(rs, b)
    ensures Growth(log, rs, a).Some? && Growth(log, rs, b).Some?
    ensures Growth(log, rs, b).value > Growth(log, rs, a).value <==> LogSum(log, rs, b) > LogSum(log, rs, a)
  {
    var n := |rs| as real;
    var x, y := LogSum(log, rs, a), LogSum(log, rs, b);
    DivMul(x, n);
    DivMul(y, n);
    if x < y {
      if y / n <= x / n {
        MulMono(y / n, x / n, n);
        assert false;
      }
    } else {
      DivMono(y, x, n);
    }
  }

  /** One narrowing keeps both probes at their golden positions. */
  lemma {:induction false} GoldenStep(phi: real, lo: real, hi: real, a: real, b: real)
    requires Golden(phi) && lo < hi && Placed(phi, lo, hi, a, b)
    ensures lo < a < b < hi
    ensures hi - a == phi * (hi - lo) && Placed(phi, a, hi, b, RightProbe(phi, a, hi))
    ensures b - lo == phi * (hi - lo) && Placed(phi, lo, b, LeftProbe(phi, lo, b), a)
  {
    var w := hi - lo;
    GoldenFacts(phi, w);
    ProbeOrder(phi, lo, w, a, b);
  }

  lemma {:induction false} ProbeOrder(phi: real, lo: real, w: real, a: real, b: real)
    requires Golden(phi) && w > 0.0 && a == lo + w - phi * w && b == lo + phi * w
    ensures lo < a < b < lo + w
  {
    GoldenFacts(phi, w);
  }

  lemma {:induction false} FirstProbes(phi: real, hi: real)
    requires Golden(phi) && hi > 0.0
    ensures 0.0 < LeftProbe(phi, 0.0, hi) < RightProbe(phi, 0.0, hi) < hi
  {
    GoldenFacts(phi, hi);
  }

  /** Everything the search knows after k narrowings. */
  ghost predicate Narrowed(log: real -> real, rs: seq<real>, phi: real, k: nat,
                           lo: real, hi: real, a: real, b: real)
    requires rs != [] && Worst(rs) < 0.0
  {
    && 0.0 <= lo < a < b < hi <= FMax(rs)
    && Placed(phi, lo, hi, a, b)
    && hi - lo == Width(phi, k, FMax(rs))
    && Beaten(log, rs, lo, hi, a, b)
  }

  lemma {:induction false} NextWidth(phi: real, k: nat, fMax: real)
    ensures Width(phi, k + 1, fMax) == phi * Width(phi, k, fMax)
  {
    assert Pow(phi, k + 1) == phi * Pow(phi, k);
  }

  lemma {:induction false} NarrowLeft(log: real -> real, rs: seq<real>, phi: real, k: nat, lo: real, hi: real,
                                      a: real, b: real)
    requires LogLike(log) && Golden(phi) && rs != [] && Worst(rs) < 0.0
    requires Narrowed(log, rs, phi, k, lo, hi, a, b) && LogSum(log, rs, b) > LogSum(log, rs, a)
    ensures Narrowed(log, rs, phi, k + 1, a, hi, b, RightProbe(phi, a, hi))
  {
    var b1 := RightProbe(phi, a, hi);
    GoldenStep(phi, lo, hi, a, b);
    GoldenStep(phi, a, hi, b, b1);
    DropLeft(log, rs, lo, hi, a, b, b1);
    NextWidth(phi, k, FMax(rs));
  }

  lemma {:induction false} NarrowRight(log: real -> real, rs: seq<real>, phi: real, k: nat, lo: real, hi: real,
                                       a: real, b: real)
    requires LogLike(log) && Golden(phi) && rs != [] && Worst(rs) < 0.0
    requires Narrowed(log, rs, phi, k, lo, hi, a, b) && LogSum(log, rs, b) <= LogSum(log, rs, a)
    ensures Narrowed(log, rs, phi, k + 1, lo, b, LeftProbe(phi, lo, b), a)
  {
    var a1 := LeftProbe(phi, lo, b);
    GoldenStep(phi, lo, hi, a, b);
    GoldenStep(phi, lo, b, a1, a);
    DropRight(log, rs, lo, hi, a, b, a1);
    NextWidth(phi, k, FMax(rs));
  }

  /** x survives every trade, and any fraction of the domain further than
      phi^80 * f_max / 2 from it grows strictly slower than some fraction within that
      distance: so does every fraction but the maximiser's neighbourhood, and the
      maximiser itself is that close. */
  ghost predicate Peak(log: real -> real, rs: seq<real>, phi: real, x: real)
    requires rs != [] && Worst(rs) < 0.0
  {
    && 0.0 < x < FMax(rs) && Survives(rs, x)
    && forall f :: 0.0 <= f <= FMax(rs) && !Near(phi, FMax(rs), f, x) ==>
                     exists p :: Near(phi, FMax(rs), p, x) && 0.0 < p < FMax(rs)
                                 && LogSum(log, rs, f) < LogSum(log, rs, p)
  }

  /** The three rounded numbers of a report about x. */
  ghost predicate Reports(log: real -> real, rs: seq<real>, phi: real, x: real, r: KellyResult)
    requires rs != [] && Worst(rs) < 0.0 && r.Optimum?
  {
    && Peak(log, rs, phi, x) && Growth(log, rs, x).Some?
    && r.fStar == RoundTo(x, FOUR_PLACES) && r.fMax == RoundTo(FMax(rs), FOUR_PLACES)
    && r.growth == RoundTo(Growth(log, rs, x).value, SIX_PLACES)
  }

  /** How far the reported fraction can be from the maximiser. */
  function Reach(phi: real, fMax: real): real {
    Width(phi, 80, fMax) / 2.0 + FOUR_PLACES / 2.0
  }

  predicate Close(phi: real, fMax: real, f: real, centre: real) {
    Abs(f - centre) <= Reach(phi, fMax)
  }

  /** Any fraction further from the reported one than the search width and half a
      unit of the fourth decimal is strictly beaten by one within that distance. */
  ghost predicate ReportIsClose(log: real -> real, rs: seq<real>, phi: real, fStar: real)
    requires rs != [] && Worst(rs) < 0.0
  {
    forall f :: 0.0 <= f <= FMax(rs) && !Close(phi, FMax(rs), f, fStar) ==>
                  exists p :: Close(phi, FMax(rs), p, fStar) && 0.0 < p < FMax(rs)
                              && LogSum(log, rs, f) < LogSum(log, rs, p)
  }

  lemma {:induction false} RoundedIsClose(log: real -> real, rs: seq<real>, phi: real, x: real)
    requires rs != [] && Worst(rs) < 0.0 && Peak(log, rs, phi, x)
    ensures ReportIsClose(log, rs, phi, RoundTo(x, FOUR_PLACES))
  {
    var fStar := RoundTo(x, FOUR_PLACES);
    RoundNear(x, FOUR_PLACES);
    forall f | 0.0 <= f <= FMax(rs) && !Close(phi, FMax(rs), f, fStar)
      ensures exists p :: Close(phi, FMax(rs), p, fStar) && 0.0 < p < FMax(rs)
                          && LogSum(log, rs, f) < LogSum(log, rs, p)
    {
      assert !Near(phi, FMax(rs), f, x);
      var p :| Near(phi, FMax(rs), p, x) && 0.0 < p < FMax(rs) && LogSum(log, rs, f) < LogSum(log, rs, p);
      assert Close(phi, FMax(rs), p, fStar);
    }
  }

  /** The search, 80 narrowings, and its rounded report. */
  method KellyFraction(log: real -> real, rs: seq<real>, phi: real) returns (r: KellyResult)
    requires LogLike(log) && Golden(phi)
    ensures r.NoTrades? <==> rs == []
    ensures r.NoLosingTrade? <==> rs != [] && Worst(rs) >= 0.0
    ensures r.NoEdge? <==> rs != [] && Worst(rs) < 0.0 && SumOf(rs) <= 0.0
    ensures r.Optimum? ==> ReportIsClose(log, rs, phi, r.fStar) && exists x :: Reports(log, rs, phi, x, r)
  {
    if rs == [] {
      return NoTrades;
    }
    var worst := Worst(rs);
    WorstIsLeast(rs);
    if worst >= 0.0 {
      return NoLosingTrade;
    }
    var mean := SumOf(rs) / |rs| as real;
    MeanSign(rs);
    if forall x :: x in rs ==> x <= 0.0 {
      AllLosing(rs);
    }
    if (forall x :: x in rs ==> x <= 0.0) || mean <= 0.0 {
      return NoEdge;
    }
    var fMax := FMax(rs);
    FMaxPositive(rs);
    var lo, hi := 0.0, fMax;
    FirstProbes(phi, fMax);
    var a, b := LeftProbe(phi, lo, hi), RightProbe(phi, lo, hi);
    var ga := GrowthPerTrade(log, rs, a);
    var gb := GrowthPerTrade(log, rs, b);
    assert Pow(phi, 0) == 1.0 && Width(phi, 0, fMax) == fMax;
    for k := 0 to 80
      invariant Narrowed(log, rs, phi, k, lo, hi, a, b)
      invariant ga == Growth(log, rs, a) && gb == Growth(log, rs, b)
    {
      DomainSurvives(rs, a);
      DomainSurvives(rs, b);
      GrowthOrder(log, rs, a, b);
      if ga.None? || (gb.Some? && gb.value > ga.value) {
        NarrowLeft(log, rs, phi, k, lo, hi, a, b);
        lo, a, ga := a, b, gb;
        b := RightProbe(phi, lo, hi);
        gb := GrowthPerTrade(log, rs, b);
      } else {
        NarrowRight(log, rs, phi, k, lo, hi, a, b);
        hi, b, gb := b, a, ga;
        a := LeftProbe(phi, lo, hi);
        ga := GrowthPerTrade(log, rs, a);
      }
    }
    var fStar := (lo + hi) / 2.0;
    DomainSurvives(rs, fStar);
    var g := GrowthPerTrade(log, rs, fStar);
    Conclude(log, rs, phi, lo, hi, a, b);
    assert Peak(log, rs, phi, fStar);
    RoundedIsClose(log, rs, phi, fStar);
    r := Optimum(RoundTo(fStar, FOUR_PLACES), RoundTo(fMax, FOUR_PLACES),
                 RoundTo(if g.Some? then g.value else 0.0, SIX_PLACES));
    assert Reports(log, rs, phi, fStar, r);
  }

  lemma {:induction false} MeanSign(rs: seq<real>)
    requires rs != []
    ensures SumOf(rs) / |rs| as real <= 0.0 <==> SumOf(rs) <= 0.0
  {
    var n := |rs| as real;
    DivMul(SumOf(rs), n);
    if SumOf(rs) <= 0.0 {
      DivMono(SumOf(rs), 0.0, n);
    } else if SumOf(rs) / n <= 0.0 {
      MulMono(SumOf(rs) / n, 0.0, n);
      assert false;
    }
  }

  lemma {:induction false} AllLosing(rs: seq<real>)
    requires forall x :: x in rs ==> x <= 0.0
    ensures SumOf(rs) <= 0.0
  {
    if rs != [] {
      var init, last := rs[..|rs| - 1], rs[|rs| - 1];
      assert last in rs && forall x :: x in init ==> x in rs;
      AllLosing(init);
    }
  }

  lemma {:induction false} FMaxPositive(rs: seq<real>)
    requires rs != [] && Worst(rs) < 0.0
    ensures FMax(rs) > 0.0
  {
  }

  lemma {:induction false} Conclude(log: real -> real, rs: seq<real>, phi: real, lo: real, hi: real, a: real, b: real)
    requires rs != [] && Worst(rs) < 0.0 && Narrowed(log, rs, phi, 80, lo, hi, a, b)
    ensures var mid := (lo + hi) / 2.0;
            forall f :: 0.0 <= f <= FMax(rs) && !Near(phi, FMax(rs), f, mid) ==>
              exists p :: Near(phi, FMax(rs), p, mid) && 0.0 < p < FMax(rs)
                          && LogSum(log, rs, f) < LogSum(log, rs, p)
  {
    var mid := (lo + hi) / 2.0;
    var best := if LogSum(log, rs, a) >= LogSum(log, rs, b) then a else b;
    assert Near(phi, FMax(rs), best, mid);
    forall f | 0.0 <= f <= FMax(rs) && !Near(phi, FMax(rs), f, mid)
      ensures LogSum(log, rs, f) < LogSum(log, rs, best)
    {
      assert f < lo || f > hi;
    }
  }

  // ---------- what rounding does to survival ----------

  lemma {:induction false} SurvivesIff(rs: seq<real>, f: real)
    requires rs != [] && Worst(rs) < 0.0 && f >= 0.0
    ensures Survives(rs, f) <==> Stake(rs, f) < 1.0
  {
    WorstIsLeast(rs);
    forall r | r in rs
      ensures Wealth(f, r) >= Wealth(f, Worst(rs))
    {
      MulMono(Worst(rs), r, f);
    }
    assert Wealth(f, Worst(rs)) == 1.0 - Stake(rs, f);
  }

  /** The share of the account the worst trade takes at fraction f. */
  function Stake(rs: seq<real>, f: real): real
    requires rs != []
  {
    f * -Worst(rs)
  }

  lemma {:induction false} StakeMono(rs: seq<real>, f: real, g: real)
    requires rs != [] && Worst(rs) < 0.0 && f <= g
    ensures Stake(rs, f) <= Stake(rs, g)
  {
    MulMono(f, g, -Worst(rs));
  }

  /** Every fraction of the searched range still survives every trade once it is
      rounded to four decimals if and only if the rounded f_max does. */
  lemma {:induction false} RoundedSurvivesIff(rs: seq<real>)
    requires rs != [] && Worst(rs) < 0.0
    ensures (forall x :: 0.0 <= x <= FMax(rs) ==> Survives(rs, RoundTo(x, FOUR_PLACES)))
            <==> Stake(rs, RoundTo(FMax(rs), FOUR_PLACES)) < 1.0
  {
    FMaxPositive(rs);
    var top := RoundTo(FMax(rs), FOUR_PLACES);
    RoundZero(FOUR_PLACES);
    RoundMono(0.0, FMax(rs), FOUR_PLACES);
    SurvivesIff(rs, top);
    if Stake(rs, top) < 1.0 {
      forall x | 0.0 <= x <= FMax(rs)
        ensures Survives(rs, RoundTo(x, FOUR_PLACES))
      {
        RoundMono(0.0, x, FOUR_PLACES);
        RoundMono(x, FMax(rs), FOUR_PLACES);
        SurvivesIff(rs, RoundTo(x, FOUR_PLACES));
        StakeMono(rs, RoundTo(x, FOUR_PLACES), top);
      }
    }
  }

  /** It does as long as no trade lost 20 times its risk. */
  lemma {:induction false} RoundedSurvives(rs: seq<real>)
    requires rs != [] && -20.0 < Worst(rs) < 0.0
    ensures Stake(rs, RoundTo(FMax(rs), FOUR_PLACES)) < 1.0
  {
    var worst := -Worst(rs);
    RoundNear(FMax(rs), FOUR_PLACES);
    StakeMono(rs, RoundTo(FMax(rs), FOUR_PLACES), FMax(rs) + FOUR_PLACES / 2.0);
    DivMul(0.999, worst);
    Distribute(FMax(rs), FOUR_PLACES / 2.0, worst);
  }

  /** After a loss of 15000 times the risk the reported f_max wipes the account. */
  lemma {:induction false} RoundedWipesOut(rs: seq<real>)
    requires rs != [] && Worst(rs) == -15000.0
    ensures RoundTo(FMax(rs), FOUR_PLACES) == FOUR_PLACES && !Survives(rs, RoundTo(FMax(rs), FOUR_PLACES))
  {
    SurvivesIff(rs, FOUR_PLACES);
    assert FMax(rs) == 0.0000666;
    assert FMax(rs) / FOUR_PLACES == 0.666;
    assert HalfEven(0.666) == 1;
  }

  // ---------- what the search leaves out ----------

  /** The slope of growth at the end of the searched range. */
  function SlopeAtEnd(rs: seq<real>): real
    requires rs != [] && Worst(rs) < 0.0
  {
    FMaxPositive(rs);
    DomainSurvives(rs, FMax(rs));
    Slope(rs, FMax(rs))
  }

  /** One more than the sum of squares, trade by trade. */
  function Squares(rs: seq<real>): (k: real)
    ensures k >= |rs| as real
  {
    if rs == [] then 0.0
    else
      var r := rs[|rs| - 1];
      SquarePositive(r);
      Squares(rs[..|rs| - 1]) + (r * r + 1.0)
  }

  /** A bound on how fast the slope falls just beyond f_max. */
  function Bend(rs: seq<real>): real {
    2000000.0 * Squares(rs)
  }

  lemma {:induction false} SquarePositive(r: real)
    ensures r * r >= 0.0
  {
  }

  /** Up to 0.9995 / |worst| every trade leaves at least 0.0005. */
  lemma {:induction false} Margin(f: real, r: real, worst: real, used: real)
    requires 0.0 <= f && worst <= r && worst < 0.0 && f * -worst <= used <= 1.0
    ensures Wealth(f, r) >= 1.0 - used
  {
    MulMono(worst, r, f);
    assert f * -worst == -(worst * f);
    assert r * f == f * r;
  }

  lemma {:induction false} ProductMargin(wx: real, wy: real)
    requires wx >= 0.001 && wy >= 0.0005
    ensures wx * wy >= 0.0000005
  {
    MulMono(0.001, wx, wy);
    assert 0.001 * wy >= 0.0000005;
  }

  lemma {:induction false} FallWithin(fall: real, p: real, share: real)
    requires p >= 0.0000005 && share >= 0.0 && fall * p == share
    ensures fall <= 2000000.0 * share
  {
    var cap := 2000000.0 * share;
    MulMono(0.0000005, p, cap);
    if fall > cap {
      MulMonoStrict(cap, fall, p);
      assert false;
    }
  }

  /** One trade's slope falls by at most its share of the bend. */
  lemma {:induction false} SlopeTermFalls(r: real, x: real, y: real)
    requires x <= y && Wealth(x, r) >= 0.001 && Wealth(y, r) >= 0.0005
    ensures r / Wealth(y, r) >= r / Wealth(x, r) - 2000000.0 * ((y - x) * (r * r))
  {
    var wx, wy, d := Wealth(x, r), Wealth(y, r), y - x;
    Distribute(y, x, r);
    ProductMargin(wx, wy);
    FallTimes(r, wx, wy, d);
    SquarePositive(r);
    MulMono(0.0, d, r * r);
    FallWithin(r / wx - r / wy, wx * wy, d * (r * r));
  }

  lemma {:induction false} FallTimes(r: real, wx: real, wy: real, d: real)
    requires wx > 0.0 && wy > 0.0 && wy - wx == d * r
    ensures (r / wx - r / wy) * (wx * wy) == d * (r * r)
  {
    var a, b := r / wx, r / wy;
    DivMul(r, wx);
    DivMul(r, wy);
    Distribute(a, b, wx * wy);
    assert a * (wx * wy) == r * wy;
    assert b * (wx * wy) == r * wx;
    assert r * wy - r * wx == r * (wy - wx);
    assert r * (d * r) == d * (r * r);
  }

  /** Every trade leaves at least this much. */
  predicate Leaves(rs: seq<real>, f: real, least: real) {
    forall r :: r in rs ==> Wealth(f, r) >= least
  }

  lemma {:induction false} LeavesParts(rs: seq<real>, f: real, least: real)
    requires rs != [] && Leaves(rs, f, least)
    ensures Leaves(rs[..|rs| - 1], f, least) && Wealth(f, rs[|rs| - 1]) >= least
    ensures least > 0.0 ==> Survives(rs, f)
  {
    var init, r := rs[..|rs| - 1], rs[|rs| - 1];
    assert rs == init + [r] && r in rs;
  }

  lemma {:induction false} SlopeFalls(rs: seq<real>, x: real, y: real)
    requires x <= y && Leaves(rs, x, 0.001) && Leaves(rs, y, 0.0005)
    ensures Survives(rs, x) && Survives(rs, y)
    ensures Slope(rs, y) >= Slope(rs, x) - 2000000.0 * ((y - x) * Squares(rs))
  {
    if rs != [] {
      var init, r := rs[..|rs| - 1], rs[|rs| - 1];
      LeavesParts(rs, x, 0.001);
      LeavesParts(rs, y, 0.0005);
      SlopeFalls(init, x, y);
      SlopeTermFalls(r, x, y);
      FallsAdd(Slope(init, x), Slope(init, y), r / Wealth(x, r), r / Wealth(y, r), y - x, Squares(init), r * r,
               Squares(rs));
    }
  }

  lemma {:induction false} FallsAdd(a: real, b: real, s: real, t: real, d: real, k: real, square: real, total: real)
    requires d >= 0.0 && total == k + (square + 1.0)
    requires b >= a - 2000000.0 * (d * k) && t >= s - 2000000.0 * (d * square)
    ensures b + t >= a + s - 2000000.0 * (d * total)
  {
    var p, q := d * k, d * square;
    Distribute(k, square + 1.0, d);
    Distribute(square, 1.0, d);
    assert d * total == p + q + d;
  }

  /** How far beyond f_max is near enough. */
  lemma {:induction false} StepBeyond(worst: real, end: real, k: real, slope: real) returns (step: real)
    requires worst < 0.0 && end * -worst == 0.999 && k > 0.0 && slope > 0.0
    ensures step > 0.0 && (end + step) * -worst <= 0.9995 && step * k <= slope / 2.0
  {
    var room, near := 0.0005 / -worst, slope / (2.0 * k);
    DivMul(0.0005, -worst);
    DivMul(slope, 2.0 * k);
    QuotientPositive(0.0005, -worst);
    QuotientPositive(slope, 2.0 * k);
    step := Min(room, near);
    MulMono(step, room, -worst);
    MulMono(step, near, k);
    assert near * (2.0 * k) == 2.0 * (near * k);
    Distribute(end, step, -worst);
  }

  lemma {:induction false} QuotientPositive(x: real, y: real)
    requires x > 0.0 && y > 0.0
    ensures x / y > 0.0
  {
    DivMul(x, y);
    if x / y <= 0.0 {
      MulMono(x / y, 0.0, y);
      assert false;
    }
  }

  lemma {:induction false} RisesTo(log: real -> real, rs: seq<real>, x: real, y: real)
    requires LogLike(log) && x < y && Survives(rs, x) && Survives(rs, y) && Slope(rs, y) > 0.0
    ensures LogSum(log, rs, y) > LogSum(log, rs, x)
  {
    Tangent(log, rs, y, x);
    BelowRising(LogSum(log, rs, x), LogSum(log, rs, y), x - y, Slope(rs, y), TangentAt(log, rs, y, x));
  }

  lemma {:induction false} BelowRising(sx: real, sy: real, d: real, slope: real, t: real)
    requires t == sy + d * slope && sx <= t && d < 0.0 && slope > 0.0
    ensures sx < sy
  {
    var p := d * slope;
    MulMonoStrict(d, 0.0, slope);
  }

  lemma {:induction false} Margins(rs: seq<real>, f: real, used: real)
    requires rs != [] && Worst(rs) < 0.0 && 0.0 <= f && Stake(rs, f) <= used < 1.0
    ensures Leaves(rs, f, 1.0 - used) && Survives(rs, f)
  {
    WorstIsLeast(rs);
    forall r | r in rs
      ensures Wealth(f, r) >= 1.0 - used
    {
      Margin(f, r, Worst(rs), used);
    }
  }

  /** A step short enough leaves the slope positive. */
  lemma {:induction false} StillRising(rs: seq<real>, end: real, step: real)
    requires step > 0.0 && Leaves(rs, end, 0.001) && Leaves(rs, end + step, 0.0005)
    requires Survives(rs, end) && Slope(rs, end) > 0.0 && step * Bend(rs) <= Slope(rs, end) / 2.0
    ensures Survives(rs, end + step) && Slope(rs, end + step) > 0.0
  {
    SlopeFalls(rs, end, end + step);
    assert step * Bend(rs) == 2000000.0 * (step * Squares(rs));
  }

  lemma {:induction false} BendPositive(rs: seq<real>)
    requires rs != []
    ensures Bend(rs) > 0.0
  {
    assert Squares(rs) >= 1.0;
  }

  lemma {:induction false} StepFor(rs: seq<real>, end: real, k: real, slope: real) returns (step: real)
    requires rs != [] && Worst(rs) < 0.0 && 0.0 <= end && Stake(rs, end) == 0.999 && k > 0.0 && slope > 0.0
    ensures step > 0.0 && Stake(rs, end + step) <= 0.9995 && step * k <= slope / 2.0
  {
    step := StepBeyond(Worst(rs), end, k, slope);
  }

  /** A rising end: some survivable fraction beyond it grows faster. */
  lemma {:induction false} BeyondGrowsFaster(log: real -> real, rs: seq<real>, end: real) returns (f: real)
    requires LogLike(log) && rs != [] && Worst(rs) < 0.0 && 0.0 <= end && Stake(rs, end) == 0.999
    requires Survives(rs, end) && Slope(rs, end) > 0.0
    ensures f > end && Survives(rs, f) && LogSum(log, rs, f) > LogSum(log, rs, end)
  {
    BendPositive(rs);
    var step := StepFor(rs, end, Bend(rs), Slope(rs, end));
    f := end + step;
    Margins(rs, end, 0.999);
    Margins(rs, f, 0.9995);
    StillRising(rs, end, step);
    RisesTo(log, rs, end, f);
  }

  /** The search stops at 0.999 of the survivable range. Nothing beyond grows faster
      than f_max - so the best survivable fraction is within the searched range -
      if and only if growth no longer rises at f_max. */
  lemma {:induction false} SearchCoversTheBestIff(log: real -> real, rs: seq<real>)
    requires LogLike(log) && rs != [] && Worst(rs) < 0.0
    ensures (forall f :: f > FMax(rs) && Survives(rs, f) ==> LogSum(log, rs, f) <= LogSum(log, rs, FMax(rs)))
            <==> SlopeAtEnd(rs) <= 0.0
  {
    FMaxPositive(rs);
    DomainSurvives(rs, FMax(rs));
    if SlopeAtEnd(rs) <= 0.0 {
      forall f | f > FMax(rs) && Survives(rs, f)
        ensures LogSum(log, rs, f) <= LogSum(log, rs, FMax(rs))
      {
        Tangent(log, rs, FMax(rs), f);
        MulMono(SlopeAtEnd(rs), 0.0, f - FMax(rs));
      }
    } else {
      DivMul(0.999, -Worst(rs));
      var f := BeyondGrowsFaster(log, rs, FMax(rs));
    }
  }

  /** One loss of 1 and n wins of 1. */
  function OneLoss(n: nat): (rs: seq<real>)
    ensures rs != []
  {
    if n == 0 then [-1.0] else OneLoss(n - 1) + [1.0]
  }

  lemma {:induction false} OneLossFacts(n: nat)
    ensures Worst(OneLoss(n)) == -1.0 && Survives(OneLoss(n), 0.999)
    ensures Slope(OneLoss(n), 0.999) == -1000.0 + n as real / 1.999
  {
    var rs := OneLoss(n);
    if n == 0 {
      assert Slope(rs[..0], 0.999) == 0.0;
      assert -1.0 / Wealth(0.999, -1.0) == -1000.0;
    } else {
      OneLossFacts(n - 1);
      assert rs[..|rs| - 1] == OneLoss(n - 1);
      assert 1.0 / Wealth(0.999, 1.0) == 1.0 / 1.999;
      assert (n - 1) as real / 1.999 + 1.0 / 1.999 == n as real / 1.999;
    }
  }

  /** With at most 1999 wins to the loss the searched range holds the best fraction;
      with more, it does not. */
  lemma {:induction false} BestBeyondTheSearchIff(log: real -> real, n: nat)
    requires LogLike(log)
    ensures Worst(OneLoss(n)) < 0.0
    ensures (exists f :: f > FMax(OneLoss(n)) && Survives(OneLoss(n), f)
                         && LogSum(log, OneLoss(n), f) > LogSum(log, OneLoss(n), FMax(OneLoss(n))))
            <==> n >= 2000
  {
    OneLossFacts(n);
    var rs := OneLoss(n);
    assert FMax(rs) == 0.999;
    SearchCoversTheBestIff(log, rs);
    assert SlopeAtEnd(rs) == -1000.0 + n as real / 1.999;
    assert n as real / 1.999 <= 1000.0 <==> n as real <= 1999.0;
  }
}
