/** Portfolio heat: the currency the book loses if every stop is hit from here,
    and the cap that new risk is admitted under. */
module PortfolioHeat {
  import opened Basics
  import opened ExitEngine

  /** `position_heat`: currency lost if the stop is hit from here. */
  function PositionHeat(direction: Side, entry: real, stop: real, remaining: real): real {
    if remaining <= 0.0 then 0.0
    else
      var lossPerUnit := if direction.Buy? then entry - stop else stop - entry;
      Max(0.0, lossPerUnit * remaining)
  }

  function HeatOf(p: Position): real {
    if p.phase == Exited then 0.0 else PositionHeat(p.direction, p.entry, p.stop, p.remaining)
  }

  function HeatSum(ps: seq<Position>): real {
    if ps == [] then 0.0 else HeatSum(ps[..|ps| - 1]) + HeatOf(ps[|ps| - 1])
  }

  /** An open position's heat is what it was bought for less what its stop would fetch
      (for a short: the other way round), where that is a loss. */
  lemma {:induction false} HeatIsLossAtStop(p: Position)
    ensures var cost, fetched := p.remaining * p.entry, p.remaining * p.stop;
            var loss := if p.direction.Buy? then cost - fetched else fetched - cost;
            HeatOf(p) == if p.phase == Exited || p.remaining <= 0.0 || loss <= 0.0 then 0.0 else loss
  {
    Distribute(p.entry, p.stop, p.remaining);
    Distribute(p.stop, p.entry, p.remaining);
  }

  /** The book's heat is that of its parts. */
  lemma {:induction false} HeatAdds(xs: seq<Position>, ys: seq<Position>)
    ensures HeatSum(xs + ys) == HeatSum(xs) + HeatSum(ys)
    ensures forall p :: HeatSum([p]) == HeatOf(p)
  {
    assert forall p: Position :: [p][..0] == [];
    if ys == [] {
      assert xs + ys == xs;
    } else {
      HeatAdds(xs, ys[..|ys| - 1]);
      assert (xs + ys)[..|xs + ys| - 1] == xs + ys[..|ys| - 1];
    }
  }

  function Scaled(fraction: real, equity: real): real {
    fraction * equity
  }

  lemma {:induction false} ScaledCompare(x: real, y: real, equity: real)
    requires equity > 0.0
    ensures x <= y <==> Scaled(x, equity) <= Scaled(y, equity)
  {
    if x <= y {
      MulMono(x, y, equity);
    } else {
      MulMonoStrict(y, x, equity);
    }
  }

  datatype HeatCheck = HeatCheck(allowed: bool, reason: string)

  class PortfolioHeatManager {
    const maxHeatPct: real

    constructor (maxHeatPct: real)
      requires maxHeatPct > 0.0
      ensures this.maxHeatPct == maxHeatPct
    {
      this.maxHeatPct := maxHeatPct;
    }

    /** `None` stands for the infinite heat of a worthless account. */
    method CurrentHeat(positions: seq<Position>, equity: real) returns (heat: Option<real>)
      ensures equity <= 0.0 <==> heat.None?
      ensures heat.Some? ==> heat.value * equity == HeatSum(positions)
    {
      if equity <= 0.0 {
        return None;
      }
      var total := 0.0;
      for i := 0 to |positions|
        invariant total == HeatSum(positions[..i])
      {
        var p := positions[i];
        assert positions[..i + 1][..i] == positions[..i];
        if p.phase != Exited {
          total := total + PositionHeat(p.direction, p.entry, p.stop, p.remaining);
        }
      }
      assert positions[..|positions|] == positions;
      return Some(total / equity);
    }

    /** A new order is admitted exactly within the cap and the code's rounding
        allowance, in currency at this equity. */
    method Check(positions: seq<Position>, equity: real, proposedRisk: real) returns (r: HeatCheck)
      ensures r.allowed <==> equity > 0.0 && proposedRisk >= 0.0
                             && HeatSum(positions) + proposedRisk <= (maxHeatPct + 0.000000000001) * equity
      ensures r.reason == if r.allowed then "ok"
                          else if equity > 0.0 && proposedRisk >= 0.0 then "portfolio_heat" else "invalid_inputs"
    {
      if equity <= 0.0 || proposedRisk < 0.0 {
        return HeatCheck(false, "invalid_inputs");
      }
      var cur := CurrentHeat(positions, equity);
      var prop := cur.value + proposedRisk / equity;
      DivMul(proposedRisk, equity);
      Distribute(cur.value, proposedRisk / equity, equity);
      assert prop * equity == HeatSum(positions) + proposedRisk;
      var cap := maxHeatPct + 0.000000000001;
      ScaledCompare(prop, cap, equity);
      if prop > cap {
        return HeatCheck(false, "portfolio_heat");
      }
      return HeatCheck(true, "ok");
    }
  }
}
