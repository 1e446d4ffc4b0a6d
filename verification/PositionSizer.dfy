/** Position sizing: the stop-distance budget, scaled by a clamped Kelly edge,
    capped by position size, reduced by VaR headroom, limited by gap survival,
    gated by costs and floored to lots. */
module PositionSizer {
  import opened Basics

  datatype RiskLimits = RiskLimits(
    maxVarDaily: real, maxPositionPct: real, maxRiskPerTradePct: real, maxDailyLossPct: real,
    gapAssumptionAtr: real, kellyCap: real)

  /** The ranges the configuration loader enforces. */
  predicate Configured(risk: RiskLimits) {
    && 0.0 < risk.maxVarDaily && 0.0 < risk.maxPositionPct && 0.0 < risk.maxRiskPerTradePct
    && 0.0 < risk.maxDailyLossPct && 0.0 <= risk.gapAssumptionAtr && 0.0 <= risk.kellyCap <= 1.0
  }

  datatype Edge = Edge(pWin: real, payoff: real)

  datatype CostGate = CostGate(profitPerUnit: real, cost: real -> real)

  datatype Inputs = Inputs(
    entry: real, stop: real, atr: real, balance: real, currentVar: real, lot: real,
    edge: Option<Edge>, gate: Option<CostGate>)

  datatype Reason =
    | Sized | InvalidInputs | StopAtEntry | NoEdgeKelly | VarAtLimit | NoNetEdgeAfterCosts | BelowMinLot

  datatype SizeResult = SizeResult(qty: real, notional: real, reason: Reason)

  function Zero(reason: Reason): SizeResult {
    SizeResult(0.0, 0.0, reason)
  }

  function KellyFraction(pWin: real, payoff: real): real {
    if payoff <= 0.0 then 0.0 else pWin - (1.0 - pWin) / payoff
  }

  // ---------- the ingredients ----------

  function Ratio(x: real, y: real): real
    requires y > 0.0
  {
    x / y
  }

  function Budget(x: real, y: real): real {
    x * y
  }

  predicate Valid(x: Inputs) {
    x.entry > 0.0 && x.balance > 0.0 && x.atr >= 0.0 && x.lot > 0.0
  }

  function Distance(x: Inputs): real {
    Abs(x.entry - x.stop)
  }

  /** The edge multiplier: 1 without a calibrated edge. */
  function EdgeFactor(x: Inputs, risk: RiskLimits): real {
    if x.edge.None? then 1.0
    else Max(0.0, Min(KellyFraction(x.edge.value.pWin, x.edge.value.payoff), risk.kellyCap))
  }

  function Headroom(x: Inputs, risk: RiskLimits): real
    requires risk.maxVarDaily > 0.0
  {
    Max(0.0, Min(1.0, 1.0 - Ratio(x.currentVar, risk.maxVarDaily)))
  }

  function BaseQty(x: Inputs, risk: RiskLimits): real
    requires Distance(x) > 0.0
  {
    Ratio(Budget(x.balance, risk.maxRiskPerTradePct), Distance(x))
  }

  function CapQty(x: Inputs, risk: RiskLimits): real
    requires x.entry > 0.0
  {
    Ratio(Budget(x.balance, risk.maxPositionPct), x.entry)
  }

  function WorstLoss(x: Inputs, risk: RiskLimits): real {
    Distance(x) + Budget(risk.gapAssumptionAtr, x.atr)
  }

  function GapQty(x: Inputs, risk: RiskLimits): real
    requires WorstLoss(x, risk) > 0.0
  {
    Ratio(Budget(x.balance, risk.maxDailyLossPct), WorstLoss(x, risk))
  }

  lemma {:induction false} WorstLossPositive(x: Inputs, risk: RiskLimits)
    requires Configured(risk) && Valid(x) && Distance(x) > 0.0
    ensures WorstLoss(x, risk) >= Distance(x)
  {
    MulMono(0.0, risk.gapAssumptionAtr, x.atr);
  }

  /** The size before costs and lots: min(headroom * min(k * base, cap), gap). */
  function Ideal(x: Inputs, risk: RiskLimits): real
    requires Configured(risk) && Valid(x) && Distance(x) > 0.0
  {
    WorstLossPositive(x, risk);
    Min(Budget(Headroom(x, risk), Capped(x, risk)), GapQty(x, risk))
  }

  predicate GatePasses(x: Inputs, qty: real) {
    x.gate.Some? ==> x.gate.value.profitPerUnit * qty > x.gate.value.cost(qty)
  }

  // ---------- the calculation ----------

  /** The answer in closed form, reason by reason. */
  function SizeOf(x: Inputs, risk: RiskLimits): SizeResult
    requires Configured(risk)
  {
    if !Valid(x) then Zero(InvalidInputs)
    else if Distance(x) == 0.0 then Zero(StopAtEntry)
    else if EdgeFactor(x, risk) == 0.0 then Zero(NoEdgeKelly)
    else if Headroom(x, risk) == 0.0 then Zero(VarAtLimit)
    else if !GatePasses(x, Ideal(x, risk)) then Zero(NoNetEdgeAfterCosts)
    else if Ideal(x, risk) < x.lot then Zero(BelowMinLot)
    else SizeResult(FloorLot(Ideal(x, risk), x.lot), Budget(FloorLot(Ideal(x, risk), x.lot), x.entry), Sized)
  }

  /** Steps 1 to 5 on valid inputs: the running quantity, or the reason it is zero. */
  method SizeBeforeCosts(x: Inputs, risk: RiskLimits) returns (zero: Option<Reason>, qty: real)
    requires Configured(risk) && Valid(x) && Distance(x) > 0.0
    ensures zero == (if EdgeFactor(x, risk) == 0.0 then Some(NoEdgeKelly)
                     else if Headroom(x, risk) == 0.0 then Some(VarAtLimit) else None)
    ensures zero.None? ==> qty == Ideal(x, risk) <= CapQty(x, risk)
  {
    qty := BaseQty(x, risk);
    if x.edge.Some? {
      var k := Max(0.0, Min(KellyFraction(x.edge.value.pWin, x.edge.value.payoff), risk.kellyCap));
      if k == 0.0 {
        return Some(NoEdgeKelly), 0.0;
      }
      qty := Budget(k, qty);
    }
    var capQty := CapQty(x, risk);
    qty := Min(qty, capQty);
    CappedIs(x, risk, qty);
    var headroom := Headroom(x, risk);
    qty := Budget(headroom, qty);
    if qty <= 0.0 {
      return Some(VarAtLimit), 0.0;
    }
    WorstLossPositive(x, risk);
    qty := Min(qty, GapQty(x, risk));
    zero := None;
  }

  method CalculatePositionSize(x: Inputs, risk: RiskLimits) returns (r: SizeResult)
    requires Configured(risk)
    ensures r == SizeOf(x, risk)
  {
    if x.entry <= 0.0 || x.balance <= 0.0 || x.atr < 0.0 || x.lot <= 0.0 {
      return Zero(InvalidInputs);
    }
    if Abs(x.entry - x.stop) <= 0.0 {
      return Zero(StopAtEntry);
    }
    var zero, qty := SizeBeforeCosts(x, risk);
    if zero.Some? {
      return Zero(zero.value);
    }
    if x.gate.Some? {
      if x.gate.value.profitPerUnit * qty <= x.gate.value.cost(qty) {
        return Zero(NoNetEdgeAfterCosts);
      }
    }
    r := FloorToLots(Min(qty, CapQty(x, risk)), x.lot, x.entry);
  }

  /** The last step: whole lots, and at least one. */
  method FloorToLots(ideal: real, lot: real, entry: real) returns (r: SizeResult)
    requires lot > 0.0
    ensures r == if ideal < lot then Zero(BelowMinLot)
                 else SizeResult(FloorLot(ideal, lot), Budget(FloorLot(ideal, lot), entry), Sized)
  {
    FloorOfPositive(ideal, lot);
    var qty := FloorLot(ideal, lot);
    if qty <= 0.0 {
      return Zero(BelowMinLot);
    }
    return SizeResult(qty, Budget(qty, entry), Sized);
  }

  /** The size after edge and cap. */
  function Capped(x: Inputs, risk: RiskLimits): real
    requires x.entry > 0.0 && Distance(x) > 0.0
  {
    Min(Budget(EdgeFactor(x, risk), BaseQty(x, risk)), CapQty(x, risk))
  }

  /** The running quantity after steps 1 to 3, and what headroom does to it. */
  lemma {:induction false} CappedIs(x: Inputs, risk: RiskLimits, qty: real)
    requires Configured(risk) && Valid(x) && Distance(x) > 0.0
    requires EdgeFactor(x, risk) > 0.0
    requires qty == Min(if x.edge.Some? then Budget(EdgeFactor(x, risk), BaseQty(x, risk)) else BaseQty(x, risk),
                        CapQty(x, risk))
    ensures qty == Capped(x, risk) && qty <= CapQty(x, risk)
    ensures Budget(Headroom(x, risk), qty) <= CapQty(x, risk)
    ensures Budget(Headroom(x, risk), qty) <= 0.0 <==> Headroom(x, risk) == 0.0
  {
    PositiveParts(x, risk);
    HeadroomReduces(Headroom(x, risk), qty);
  }

  lemma {:induction false} FloorOfPositive(q: real, lot: real)
    requires lot > 0.0
    ensures q < lot <==> FloorLot(q, lot) <= 0.0
  {
    FloorLotIsGreatest(q, lot);
    LotsOf(1, lot);
    LotsOf(0, lot);
    assert LotQty(1, lot) == lot && LotQty(0, lot) == 0.0;
    var n := (q / lot).Floor;
    LotQtyMono(n, 0, lot);
    LotQtyMono(1, n, lot);
  }

  lemma {:induction false} RatioPositive(x: real, y: real)
    requires x > 0.0 && y > 0.0
    ensures Ratio(x, y) > 0.0
  {
  }

  lemma {:induction false} BudgetPositive(x: real, y: real)
    requires x > 0.0 && y > 0.0
    ensures Budget(x, y) > 0.0
  {
    MulMonoStrict(0.0, x, y);
  }

  lemma {:induction false} PositiveParts(x: Inputs, risk: RiskLimits)
    requires Configured(risk) && Valid(x) && Distance(x) > 0.0
    ensures BaseQty(x, risk) > 0.0 && CapQty(x, risk) > 0.0 && WorstLoss(x, risk) > 0.0
    ensures GapQty(x, risk) > 0.0
    ensures EdgeFactor(x, risk) > 0.0 ==> Budget(EdgeFactor(x, risk), BaseQty(x, risk)) > 0.0
    ensures x.edge.None? ==> Budget(1.0, BaseQty(x, risk)) == BaseQty(x, risk)
  {
    WorstLossPositive(x, risk);
    BudgetPositive(x.balance, risk.maxRiskPerTradePct);
    BudgetPositive(x.balance, risk.maxPositionPct);
    BudgetPositive(x.balance, risk.maxDailyLossPct);
    RatioPositive(Budget(x.balance, risk.maxRiskPerTradePct), Distance(x));
    RatioPositive(Budget(x.balance, risk.maxPositionPct), x.entry);
    RatioPositive(Budget(x.balance, risk.maxDailyLossPct), WorstLoss(x, risk));
    if EdgeFactor(x, risk) > 0.0 {
      BudgetPositive(EdgeFactor(x, risk), BaseQty(x, risk));
    }
  }

  lemma {:induction false} HeadroomReduces(h: real, q: real)
    requires 0.0 <= h <= 1.0 && q > 0.0
    ensures 0.0 <= Budget(h, q) <= q
    ensures h == 0.0 <==> Budget(h, q) <= 0.0
  {
    MulMono(h, 1.0, q);
    if h > 0.0 {
      BudgetPositive(h, q);
    }
  }

  // ---------- what the size means ----------

  lemma {:induction false} BudgetMono(a: real, b: real, c: real, d: real)
    requires 0.0 <= a <= c && 0.0 <= b <= d
    ensures Budget(a, b) <= Budget(c, d)
  {
    MulMono(a, c, b);
    MulMono(b, d, c);
  }

  lemma {:induction false} RatioMono(a: real, b: real, c: real, d: real)
    requires 0.0 <= a <= c && 0.0 < d <= b
    ensures Ratio(a, b) <= Ratio(c, d)
  {
    DivMono(a, c, b);
    DivMul(c, b);
    DivMul(c, d);
    if c / b > c / d {
      MulMonoStrict(c / d, c / b, b);
      MulMono(d, b, c / d);
      assert false;
    }
  }

  lemma {:induction false} EdgeFactorRange(x: Inputs, risk: RiskLimits)
    requires Configured(risk)
    ensures 0.0 <= EdgeFactor(x, risk) <= 1.0
  {
  }

  /** Without a cost gate the size is the largest lot multiple not above the ideal
      quantity, and zero when there is none. */
  lemma {:induction false} SizeIsLargestLotMultiple(x: Inputs, risk: RiskLimits)
    requires Configured(risk) && Valid(x) && Distance(x) > 0.0 && x.gate.None?
    ensures var qty := SizeOf(x, risk).qty;
            && qty == Max(0.0, FloorLot(Ideal(x, risk), x.lot))
            && IsLots(qty, x.lot) && (qty > 0.0 ==> qty <= Ideal(x, risk))
            && forall y :: IsLots(y, x.lot) && 0.0 <= y <= Ideal(x, risk) ==> y <= qty
  {
    FloorLotIsGreatest(Ideal(x, risk), x.lot);
    FloorOfPositive(Ideal(x, risk), x.lot);
    LotsOf(0, x.lot);
    assert LotQty(0, x.lot) == 0.0;
    if EdgeFactor(x, risk) == 0.0 || Headroom(x, risk) == 0.0 {
      IdealIsZero(x, risk);
    }
  }

  lemma {:induction false} IdealIsZero(x: Inputs, risk: RiskLimits)
    requires Configured(risk) && Valid(x) && Distance(x) > 0.0
    requires EdgeFactor(x, risk) == 0.0 || Headroom(x, risk) == 0.0
    ensures Ideal(x, risk) == 0.0
  {
    PositiveParts(x, risk);
    assert EdgeFactor(x, risk) == 0.0 ==> Budget(EdgeFactor(x, risk), BaseQty(x, risk)) == 0.0;
  }

  /** Every accepted size meets the position cap, the per-trade risk budget and
      the gap-loss budget at once. */
  lemma {:induction false} SizeMeetsAllBudgets(x: Inputs, risk: RiskLimits)
    requires Configured(risk) && Valid(x) && Distance(x) > 0.0
    ensures var qty := SizeOf(x, risk).qty;
            && 0.0 <= qty
            && Budget(qty, x.entry) <= Budget(x.balance, risk.maxPositionPct)
            && Budget(qty, Distance(x)) <= Budget(x.balance, risk.maxRiskPerTradePct)
            && Budget(qty, WorstLoss(x, risk)) <= Budget(x.balance, risk.maxDailyLossPct)
  {
    var qty := SizeOf(x, risk).qty;
    PositiveParts(x, risk);
    BudgetPositive(x.balance, risk.maxPositionPct);
    BudgetPositive(x.balance, risk.maxRiskPerTradePct);
    BudgetPositive(x.balance, risk.maxDailyLossPct);
    if SizeOf(x, risk).reason.Sized? {
      FloorLotIsGreatest(Ideal(x, risk), x.lot);
      FloorOfPositive(Ideal(x, risk), x.lot);
      IdealWithinParts(x, risk);
      Within(qty, Budget(x.balance, risk.maxPositionPct), x.entry);
      Within(qty, Budget(x.balance, risk.maxRiskPerTradePct), Distance(x));
      Within(qty, Budget(x.balance, risk.maxDailyLossPct), WorstLoss(x, risk));
    } else {
      assert qty == 0.0 && Budget(qty, x.entry) == 0.0 && Budget(qty, Distance(x)) == 0.0
          && Budget(qty, WorstLoss(x, risk)) == 0.0;
    }
  }

  lemma {:induction false} Within(q: real, money: real, unit: real)
    requires unit > 0.0 && q <= Ratio(money, unit)
    ensures Budget(q, unit) <= money
  {
    MulMono(q, Ratio(money, unit), unit);
    DivMul(money, unit);
  }

  lemma {:induction false} IdealWithinParts(x: Inputs, risk: RiskLimits)
    requires Configured(risk) && Valid(x) && Distance(x) > 0.0 && WorstLoss(x, risk) > 0.0
    ensures Ideal(x, risk) <= CapQty(x, risk) && Ideal(x, risk) <= BaseQty(x, risk)
    ensures Ideal(x, risk) <= GapQty(x, risk)
  {
    PositiveParts(x, risk);
    EdgeFactorRange(x, risk);
    var k, base := EdgeFactor(x, risk), BaseQty(x, risk);
    HeadroomReduces(k, base);
    if k > 0.0 {
      HeadroomReduces(Headroom(x, risk), Capped(x, risk));
    } else {
      assert Capped(x, risk) == 0.0;
    }
  }

  /** More balance, less VaR in use, a lower ATR and a closer stop never shrink
      the size. */
  lemma {:induction false} SizeIsMonotone(x: Inputs, y: Inputs, risk: RiskLimits)
    requires Configured(risk) && Valid(x) && Valid(y) && x.gate.None? && y.gate.None?
    requires y.entry == x.entry && y.lot == x.lot && y.edge == x.edge
    requires x.balance <= y.balance && y.currentVar <= x.currentVar && y.atr <= x.atr
    requires 0.0 < Distance(y) <= Distance(x)
    ensures SizeOf(x, risk).qty <= SizeOf(y, risk).qty
  {
    IdealIsMonotone(x, y, risk);
    SizeIsLargestLotMultiple(x, risk);
    SizeIsLargestLotMultiple(y, risk);
    FloorLotIsGreatest(Ideal(x, risk), x.lot);
    FloorLotIsGreatest(Ideal(y, risk), y.lot);
  }

  lemma {:induction false} IdealIsMonotone(x: Inputs, y: Inputs, risk: RiskLimits)
    requires Configured(risk) && Valid(x) && Valid(y)
    requires y.entry == x.entry && y.edge == x.edge
    requires x.balance <= y.balance && y.currentVar <= x.currentVar && y.atr <= x.atr
    requires 0.0 < Distance(y) <= Distance(x)
    ensures Ideal(x, risk) <= Ideal(y, risk)
  {
    PositiveParts(x, risk);
    PositiveParts(y, risk);
    EdgeFactorRange(x, risk);
    BudgetMono(x.balance, risk.maxRiskPerTradePct, y.balance, risk.maxRiskPerTradePct);
    BudgetMono(x.balance, risk.maxPositionPct, y.balance, risk.maxPositionPct);
    BudgetMono(x.balance, risk.maxDailyLossPct, y.balance, risk.maxDailyLossPct);
    BudgetMono(risk.gapAssumptionAtr, y.atr, risk.gapAssumptionAtr, x.atr);
    BudgetPositive(x.balance, risk.maxRiskPerTradePct);
    BudgetPositive(x.balance, risk.maxPositionPct);
    BudgetPositive(x.balance, risk.maxDailyLossPct);
    RatioMono(Budget(x.balance, risk.maxRiskPerTradePct), Distance(x),
              Budget(y.balance, risk.maxRiskPerTradePct), Distance(y));
    RatioMono(Budget(x.balance, risk.maxPositionPct), x.entry, Budget(y.balance, risk.maxPositionPct), y.entry);
    RatioMono(Budget(x.balance, risk.maxDailyLossPct), WorstLoss(x, risk),
              Budget(y.balance, risk.maxDailyLossPct), WorstLoss(y, risk));
    CappedIsMonotone(x, y, risk);
    DivMono(y.currentVar, x.currentVar, risk.maxVarDaily);
    BudgetMono(Headroom(x, risk), Capped(x, risk), Headroom(y, risk), Capped(y, risk));
  }

  lemma {:induction false} CappedIsMonotone(x: Inputs, y: Inputs, risk: RiskLimits)
    requires Configured(risk) && x.entry > 0.0 && y.entry > 0.0 && Distance(x) > 0.0 && Distance(y) > 0.0
    requires y.edge == x.edge && 0.0 < BaseQty(x, risk) <= BaseQty(y, risk)
    requires 0.0 < CapQty(x, risk) <= CapQty(y, risk)
    ensures 0.0 <= Capped(x, risk) <= Capped(y, risk)
  {
    EdgeFactorRange(x, risk);
    BudgetMono(EdgeFactor(x, risk), BaseQty(x, risk), EdgeFactor(y, risk), BaseQty(y, risk));
    BudgetMono(0.0, 0.0, EdgeFactor(x, risk), BaseQty(x, risk));
  }

  // ---------- the cost gate and the lot floor ----------

  /** One unit of y costs no more than one unit of q. */
  predicate NoDearer(c: real -> real, y: real, q: real) {
    Budget(c(y), q) <= Budget(c(q), y)
  }

  /** Flooring to lots never raises the cost per unit. */
  ghost predicate FloorsNoDearer(c: real -> real) {
    forall q, lot :: 0.0 < lot <= q ==> NoDearer(c, FloorLot(q, lot), q)
  }

  /** The input was accepted under this cost function. */
  ghost predicate Cleared(x: Inputs, risk: RiskLimits, c: real -> real)
    requires Configured(risk)
  {
    x.gate.Some? && x.gate.value.cost == c && SizeOf(x, risk).reason.Sized?
  }

  lemma {:induction false} GateShrinks(e: real, q: real, y: real, cq: real, cy: real)
    requires q > 0.0 && y > 0.0 && e * q > cq && cy * q <= cq * y
    ensures e * y > cy
  {
    if e * y <= cy {
      MulMono(e * y, cy, q);
      MulMonoStrict(cq, e * q, y);
      assert false;
    }
  }

  lemma {:induction false} NoDearerPasses(x: Inputs, risk: RiskLimits, c: real -> real)
    requires Configured(risk) && Cleared(x, risk, c) && NoDearer(c, FloorLot(Ideal(x, risk), x.lot), Ideal(x, risk))
    ensures GatePasses(x, SizeOf(x, risk).qty)
  {
    var q := Ideal(x, risk);
    var y := FloorLot(q, x.lot);
    FloorOfPositive(q, x.lot);
    GateShrinks(x.gate.value.profitPerUnit, q, y, c(q), c(y));
  }

  /** An input whose ideal quantity is q, whatever the limits. */
  function InputFor(risk: RiskLimits, q: real, lot: real, gate: CostGate): Inputs
    requires Configured(risk) && q > 0.0
  {
    var balance := q / Min(risk.maxRiskPerTradePct, risk.maxDailyLossPct);
    var entry := balance * risk.maxPositionPct / q;
    Inputs(entry, entry - 1.0, 0.0, balance, 0.0, lot, None, Some(gate))
  }

  lemma {:induction false} InputForIs(risk: RiskLimits, q: real, lot: real, gate: CostGate)
    requires Configured(risk) && 0.0 < lot && 0.0 < q
    ensures var x := InputFor(risk, q, lot, gate);
            Valid(x) && Distance(x) == 1.0 && EdgeFactor(x, risk) == 1.0 && Headroom(x, risk) == 1.0
            && Ideal(x, risk) == q
  {
    var u := Min(risk.maxRiskPerTradePct, risk.maxDailyLossPct);
    var x := InputFor(risk, q, lot, gate);
    RatioPositive(q, u);
    DivMul(q, u);
    MulMono(u, risk.maxRiskPerTradePct, x.balance);
    MulMono(u, risk.maxDailyLossPct, x.balance);
    assert BaseQty(x, risk) >= q && GapQty(x, risk) >= q;
    CapIs(x.balance, risk.maxPositionPct, q);
    assert CapQty(x, risk) == q;
  }

  lemma {:induction false} CapIs(balance: real, pct: real, q: real)
    requires balance > 0.0 && pct > 0.0 && q > 0.0
    ensures var entry := balance * pct / q; entry > 0.0 && balance * pct / entry == q
  {
    var money := balance * pct;
    assert money > 0.0;
    var entry := money / q;
    DivMul(money, q);
    if entry <= 0.0 {
      MulMono(entry, 0.0, q);
      assert false;
    }
    DivMul(q, entry);
    assert q * entry == money;
  }

  /** A profit per unit between the two unit costs: q clears, y does not. */
  lemma {:induction false} ProfitBetween(q: real, y: real, cq: real, cy: real) returns (e: real)
    requires q > 0.0 && y > 0.0 && cy * q > cq * y
    ensures e * q > cq && e * y < cy
  {
    var a, b := cq / q, cy / y;
    DivMul(cq, q);
    DivMul(cy, y);
    if a >= b {
      MulMono(b, a, y * q);
      assert false;
    }
    e := (a + b) / 2.0;
    MulMonoStrict(a, e, q);
    MulMonoStrict(e, b, y);
  }

  /** A dearer floor: some accepted input under these costs no longer clears them. */
  lemma {:induction false} DearerFails(risk: RiskLimits, c: real -> real, q: real, lot: real) returns (x: Inputs)
    requires Configured(risk) && 0.0 < lot <= q && !NoDearer(c, FloorLot(q, lot), q)
    ensures Cleared(x, risk, c) && !GatePasses(x, SizeOf(x, risk).qty)
  {
    var y := FloorLot(q, lot);
    FloorOfPositive(q, lot);
    var e := ProfitBetween(q, y, c(q), c(y));
    x := InputFor(risk, q, lot, CostGate(e, c));
    InputForIs(risk, q, lot, CostGate(e, c));
    assert x.lot == lot && SizeOf(x, risk).qty == y;
  }

  /** The cost gate looks at the quantity before lot flooring. Under a cost function
      every accepted order still clears its costs after flooring if and only if
      flooring never raises the cost per unit. */
  lemma {:induction false} CostsSurviveFlooringIff(risk: RiskLimits, c: real -> real)
    requires Configured(risk)
    ensures (forall x :: Cleared(x, risk, c) ==> GatePasses(x, SizeOf(x, risk).qty)) <==> FloorsNoDearer(c)
  {
    if FloorsNoDearer(c) {
      forall x | Cleared(x, risk, c)
        ensures GatePasses(x, SizeOf(x, risk).qty)
      {
        NoDearerPasses(x, risk, c);
      }
    } else {
      var q, lot :| 0.0 < lot <= q && !NoDearer(c, FloorLot(q, lot), q);
      var x := DearerFails(risk, c, q, lot);
    }
  }

  /** Costs proportional to quantity never become dearer. */
  lemma {:induction false} ProportionalCostsSurviveFlooring(x: Inputs, risk: RiskLimits, rate: real)
    requires Configured(risk) && SizeOf(x, risk).reason.Sized? && x.gate.Some?
    requires forall q :: x.gate.value.cost(q) == Budget(rate, q)
    ensures GatePasses(x, SizeOf(x, risk).qty)
  {
    var q, c := Ideal(x, risk), x.gate.value.cost;
    var y := FloorLot(q, x.lot);
    assert c(y) == rate * y && c(q) == rate * q;
    assert rate * y * q == rate * q * y;
    NoDearerPasses(x, risk, c);
  }

  /** With a flat fee it need not: an ideal size of 90 earns more than the fee of
      80, the order of one lot of 50 does not. */
  lemma {:induction false} FlatFeeCanEatTheFlooredOrder()
    ensures exists x: Inputs, risk: RiskLimits ::
              Configured(risk) && SizeOf(x, risk).reason.Sized? && x.gate.Some? && !GatePasses(x, SizeOf(x, risk).qty)
  {
    var risk := RiskLimits(0.5, 0.9, 0.75, 0.9, 0.0, 0.5);
    var x := Inputs(1.0, 0.5, 0.0, 100.0, 0.0, 50.0, None, Some(CostGate(1.0, _ => 80.0)));
    assert Ideal(x, risk) == 90.0;
    assert (90.0 / 50.0 as real).Floor == 1;
    assert SizeOf(x, risk).qty == 50.0;
  }

  // ---------- the size in terms of the inputs ----------

  /** The edge multiplier: 1 without a calibrated edge, else the Kelly fraction between
      0 and its cap. */
  predicate IsEdge(x: Inputs, risk: RiskLimits, k: real) {
    match x.edge
    case None => k == 1.0
    case Some(edge) =>
      if edge.payoff <= 0.0 then k == 0.0
      else
        var f := edge.pWin - (1.0 - edge.pWin) / edge.payoff;
        k == if f <= 0.0 then 0.0 else if f < risk.kellyCap then f else risk.kellyCap
  }

  function StopDistance(x: Inputs): real {
    if x.entry > x.stop then x.entry - x.stop else x.stop - x.entry
  }

  function UnusedVar(x: Inputs, risk: RiskLimits): real {
    risk.maxVarDaily - (if x.currentVar > 0.0 then x.currentVar else 0.0)
  }

  function RiskBudget(x: Inputs, risk: RiskLimits): real
    requires x.entry != x.stop
  {
    x.balance * risk.maxRiskPerTradePct / StopDistance(x)
  }

  function PositionCap(x: Inputs, risk: RiskLimits): real
    requires x.entry > 0.0
  {
    x.balance * risk.maxPositionPct / x.entry
  }

  /** The smaller of the edge's share of the risk budget and the position cap. */
  function Budgeted(x: Inputs, risk: RiskLimits, k: real): real
    requires x.entry > 0.0 && x.entry != x.stop
  {
    var share := k * RiskBudget(x, risk);
    if share < PositionCap(x, risk) then share else PositionCap(x, risk)
  }

  /** What a unit loses when the price gaps through the stop. */
  function GapLoss(x: Inputs, risk: RiskLimits): real {
    StopDistance(x) + risk.gapAssumptionAtr * x.atr
  }

  function LossBudget(x: Inputs, risk: RiskLimits): real {
    x.balance * risk.maxDailyLossPct
  }

  /** The quantity y fits: as a share of the VaR limit, the VaR not yet in use times
      what is budgeted; and a gap through the stop stays within the daily loss budget. */
  predicate Fits(x: Inputs, risk: RiskLimits, k: real, y: real)
    requires x.entry > 0.0 && x.entry != x.stop
  {
    WithinBoth(y, risk.maxVarDaily, UnusedVar(x, risk), Budgeted(x, risk, k), GapLoss(x, risk), LossBudget(x, risk))
  }

  predicate WithinBoth(y: real, limit: real, unused: real, c: real, worst: real, loss: real) {
    y * limit <= unused * c && worst > 0.0 && y <= loss / worst
  }

  /** The largest quantity that fits. */
  ghost predicate IsIdeal(x: Inputs, risk: RiskLimits, k: real, q: real)
    requires x.entry > 0.0 && x.entry != x.stop
  {
    Fits(x, risk, k, q) && forall y :: Fits(x, risk, k, y) ==> y <= q
  }

  lemma {:induction false} EdgeIs(x: Inputs, risk: RiskLimits)
    requires Configured(risk)
    ensures forall k :: IsEdge(x, risk, k) <==> k == EdgeFactor(x, risk)
  {
  }

  /** What headroom means: its share of the limit is what is not in use. */
  lemma {:induction false} HeadroomIs(x: Inputs, risk: RiskLimits)
    requires Configured(risk)
    ensures Headroom(x, risk) == 0.0 <==> x.currentVar >= risk.maxVarDaily
    ensures x.currentVar < risk.maxVarDaily ==>
              Headroom(x, risk) * risk.maxVarDaily == risk.maxVarDaily - Max(0.0, x.currentVar)
  {
    var u := Ratio(x.currentVar, risk.maxVarDaily);
    DivMul(x.currentVar, risk.maxVarDaily);
    if u >= 1.0 {
      MulMono(1.0, u, risk.maxVarDaily);
    } else {
      MulMonoStrict(u, 1.0, risk.maxVarDaily);
    }
    if u > 0.0 {
      MulMonoStrict(0.0, u, risk.maxVarDaily);
    } else {
      MulMono(u, 0.0, risk.maxVarDaily);
    }
    Distribute(1.0, u, risk.maxVarDaily);
  }

  lemma {:induction false} ShareIff(h: real, limit: real, unused: real, c: real, y: real)
    requires limit > 0.0 && h * limit == unused
    ensures y * limit <= unused * c <==> y <= Budget(h, c)
  {
    assert unused * c == (h * c) * limit;
    if y <= h * c {
      MulMono(y, h * c, limit);
    } else {
      MulMonoStrict(h * c, y, limit);
    }
  }

  lemma {:induction false} FitsIff(x: Inputs, risk: RiskLimits, k: real, y: real)
    requires Configured(risk) && Valid(x) && x.entry != x.stop && IsEdge(x, risk, k)
    requires x.currentVar < risk.maxVarDaily
    ensures Distance(x) > 0.0 && (Fits(x, risk, k, y) <==> y <= Ideal(x, risk))
  {
    IdealParts(x, risk, k);
    BothIff(y, risk.maxVarDaily, UnusedVar(x, risk), Budgeted(x, risk, k), GapLoss(x, risk), LossBudget(x, risk),
            Headroom(x, risk));
  }

  lemma {:induction false} IdealParts(x: Inputs, risk: RiskLimits, k: real)
    requires Configured(risk) && Valid(x) && x.entry != x.stop && IsEdge(x, risk, k)
    requires x.currentVar < risk.maxVarDaily
    ensures Distance(x) > 0.0 && GapLoss(x, risk) > 0.0
    ensures Headroom(x, risk) * risk.maxVarDaily == UnusedVar(x, risk)
    ensures Ideal(x, risk) == Min(Budget(Headroom(x, risk), Budgeted(x, risk, k)),
                                  Ratio(LossBudget(x, risk), GapLoss(x, risk)))
  {
    EdgeIs(x, risk);
    PartsAre(x, risk, k);
    WorstLossPositive(x, risk);
    HeadroomIs(x, risk);
  }

  lemma {:induction false} BothIff(y: real, limit: real, unused: real, c: real, worst: real, loss: real, h: real)
    requires limit > 0.0 && worst > 0.0 && h * limit == unused
    ensures WithinBoth(y, limit, unused, c, worst, loss) <==> y <= Min(Budget(h, c), Ratio(loss, worst))
  {
    ShareIff(h, limit, unused, c, y);
  }

  lemma {:induction false} BudgetedIs(x: Inputs, risk: RiskLimits, k: real)
    requires Configured(risk) && Valid(x) && x.entry != x.stop && k == EdgeFactor(x, risk)
    ensures Distance(x) == StopDistance(x) > 0.0 && Budgeted(x, risk, k) == Capped(x, risk)
  {
    BudgetsAre(x, risk);
  }

  lemma {:induction false} BudgetsAre(x: Inputs, risk: RiskLimits)
    requires x.entry > 0.0 && x.entry != x.stop
    ensures Distance(x) == StopDistance(x) > 0.0
    ensures RiskBudget(x, risk) == BaseQty(x, risk) && PositionCap(x, risk) == CapQty(x, risk)
  {
    assert Distance(x) == StopDistance(x);
  }

  lemma {:induction false} PartsAre(x: Inputs, risk: RiskLimits, k: real)
    requires Configured(risk) && Valid(x) && x.entry != x.stop && k == EdgeFactor(x, risk)
    ensures Distance(x) == StopDistance(x) > 0.0 && UnusedVar(x, risk) == risk.maxVarDaily - Max(0.0, x.currentVar)
    ensures Budgeted(x, risk, k) == Capped(x, risk) && GapLoss(x, risk) == WorstLoss(x, risk)
    ensures LossBudget(x, risk) == Budget(x.balance, risk.maxDailyLossPct)
  {
    BudgetedIs(x, risk, k);
  }

  /** Every valid input with VaR to spare has an ideal quantity, and it is positive
      exactly when there is an edge. */
  lemma {:induction false} IdealExists(x: Inputs, risk: RiskLimits, k: real) returns (q: real)
    requires Configured(risk) && Valid(x) && x.entry != x.stop && IsEdge(x, risk, k)
    requires x.currentVar < risk.maxVarDaily
    ensures IsIdeal(x, risk, k, q) && (q > 0.0 <==> k > 0.0)
  {
    FitsIff(x, risk, k, 0.0);
    q := Ideal(x, risk);
    forall y
      ensures Fits(x, risk, k, y) <==> y <= q
    {
      FitsIff(x, risk, k, y);
    }
    EdgeIs(x, risk);
    PositiveParts(x, risk);
    HeadroomIs(x, risk);
    if k > 0.0 {
      HeadroomReduces(Headroom(x, risk), Capped(x, risk));
    } else {
      IdealIsZero(x, risk);
    }
  }

  /** Why an answer is zero, in the order the reasons are tried. */
  lemma {:induction false} RefusalRule(x: Inputs, risk: RiskLimits, k: real)
    requires Configured(risk) && IsEdge(x, risk, k)
    ensures var r := SizeOf(x, risk);
            var valid := x.entry > 0.0 && x.balance > 0.0 && x.atr >= 0.0 && x.lot > 0.0;
            && (r.reason == InvalidInputs <==> !valid)
            && (r.reason == StopAtEntry <==> valid && x.stop == x.entry)
            && (r.reason == NoEdgeKelly <==> valid && x.stop != x.entry && k == 0.0)
            && (r.reason == VarAtLimit <==> valid && x.stop != x.entry && k > 0.0
                                            && x.currentVar >= risk.maxVarDaily)
            && (!r.reason.Sized? ==> r.qty == r.notional == 0.0)
  {
    EdgeIs(x, risk);
    EdgeFactorRange(x, risk);
    HeadroomIs(x, risk);
  }

  /** With VaR to spare and an edge, the size follows from the ideal quantity q: none
      if q does not earn its costs, else the largest whole number of lots within q. */
  lemma {:induction false} SizeRule(x: Inputs, risk: RiskLimits, k: real, q: real)
    requires Configured(risk) && Valid(x) && x.entry != x.stop && IsEdge(x, risk, k) && k > 0.0
    requires x.currentVar < risk.maxVarDaily && IsIdeal(x, risk, k, q)
    ensures var r := SizeOf(x, risk);
            && (r.reason == NoNetEdgeAfterCosts
                <==> x.gate.Some? && x.gate.value.profitPerUnit * q <= x.gate.value.cost(q))
            && (r.reason != NoNetEdgeAfterCosts ==>
                  && 0.0 <= r.qty <= q < r.qty + x.lot && r.qty == (r.qty / x.lot).Floor as real * x.lot
                  && r.notional == r.qty * x.entry
                  && r.reason == if q < x.lot then BelowMinLot else Sized)
  {
    IdealIs(x, risk, k, q);
    EdgeIs(x, risk);
    HeadroomIs(x, risk);
    FlooredSize(x, risk);
  }

  lemma {:induction false} IdealIs(x: Inputs, risk: RiskLimits, k: real, q: real)
    requires Configured(risk) && Valid(x) && x.entry != x.stop && IsEdge(x, risk, k) && k > 0.0
    requires x.currentVar < risk.maxVarDaily && IsIdeal(x, risk, k, q)
    ensures Distance(x) > 0.0 && q == Ideal(x, risk) && q > 0.0
  {
    FitsIff(x, risk, k, q);
    FitsIff(x, risk, k, Ideal(x, risk));
    var q1 := IdealExists(x, risk, k);
  }

  lemma {:induction false} FlooredSize(x: Inputs, risk: RiskLimits)
    requires Configured(risk) && Valid(x) && Distance(x) > 0.0 && Ideal(x, risk) > 0.0
    ensures var r, q := SizeOf(x, risk), Ideal(x, risk);
            r.reason.Sized? || r.reason.BelowMinLot? ==>
              && 0.0 <= r.qty <= q < r.qty + x.lot && r.qty == (r.qty / x.lot).Floor as real * x.lot
  {
    var r, q := SizeOf(x, risk), Ideal(x, risk);
    FloorLotIsGreatest(q, x.lot);
    FloorOfPositive(q, x.lot);
    LotsOf(0, x.lot);
    assert LotQty(0, x.lot) == 0.0;
    if r.reason.Sized? {
      assert LotQty((r.qty / x.lot).Floor, x.lot) == r.qty;
    }
  }
}
