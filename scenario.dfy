/** The what-if simulator, `calculateScenario` of
    components/ScenarioSimulator.tsx: revenue and expenses scaled by
    percentage price and cost adjustments, then profit, margin and the
    change against the current profit recomputed. */
module Scenario {
  import opened Ledger
  import opened ProjectRollup

  datatype ScenarioResult = ScenarioResult(
    originalProfit: real,
    projectedProfit: real,
    change: real,
    changePercent: real,
    newMargin: real,
    originalMargin: real)

  /** `x * (1 + pct / 100)`: `x` moved by `pct` percent. */
  function Adjusted(x: real, pct: real): real {
    x * (1.0 + pct / 100.0)
  }

  function CalculateScenario(currentRevenue: real, currentExpenses: real, currentProfit: real,
                             currentMargin: real, costAdjustment: real, pricingAdjustment: real): (r: ScenarioResult)
    // the current figures are passed through untouched
    ensures r.originalProfit == currentProfit && r.originalMargin == currentMargin
    ensures r.change == r.projectedProfit - currentProfit
  {
    var adjustedRevenue := Adjusted(currentRevenue, pricingAdjustment);
    var adjustedExpenses := Adjusted(currentExpenses, costAdjustment);
    var projectedProfit := adjustedRevenue - adjustedExpenses;
    ScenarioResult(
      originalProfit := currentProfit,
      projectedProfit := projectedProfit,
      change := projectedProfit - currentProfit,
      changePercent := ChangePercent(currentProfit, projectedProfit),
      newMargin := Percent(projectedProfit, adjustedRevenue),
      originalMargin := currentMargin)
  }

  /** The projected profit is the adjusted revenue less the adjusted
      expenses; the new margin is that profit in percent of the adjusted
      revenue (zero when the adjusted revenue is not positive), and the
      change percentage is the change in percent of the current profit's
      magnitude (zero when the current profit is zero). */
  lemma ScenarioFigures(currentRevenue: real, currentExpenses: real, currentProfit: real,
                        currentMargin: real, costAdjustment: real, pricingAdjustment: real)
    ensures var r := CalculateScenario(currentRevenue, currentExpenses, currentProfit, currentMargin,
                                       costAdjustment, pricingAdjustment);
      var adjustedRevenue := currentRevenue + currentRevenue * pricingAdjustment / 100.0;
      && r.projectedProfit == adjustedRevenue - (currentExpenses + currentExpenses * costAdjustment / 100.0)
      && IsPercentOf(r.newMargin, r.projectedProfit, adjustedRevenue)
      && IsPercentOf(r.changePercent, r.change, Abs(currentProfit))
  {
    var r := CalculateScenario(currentRevenue, currentExpenses, currentProfit, currentMargin,
                               costAdjustment, pricingAdjustment);
    assert Adjusted(currentRevenue, pricingAdjustment) == currentRevenue + currentRevenue * pricingAdjustment / 100.0;
    assert Adjusted(currentExpenses, costAdjustment) == currentExpenses + currentExpenses * costAdjustment / 100.0;
    PercentMeaning(r.projectedProfit, Adjusted(currentRevenue, pricingAdjustment), r.newMargin);
    ChangePercentMeaning(currentProfit, r.projectedProfit, r.changePercent);
  }

  /** With both sliders at zero and a current profit that is revenue minus
      expenses, the scenario reproduces the current profit: no change. */
  lemma NoAdjustmentNoChange(currentRevenue: real, currentExpenses: real, currentMargin: real)
    ensures var r := CalculateScenario(currentRevenue, currentExpenses, currentRevenue - currentExpenses,
                                       currentMargin, 0.0, 0.0);
      r.projectedProfit == currentRevenue - currentExpenses && r.change == 0.0 && r.changePercent == 0.0
  {
  }

  /** With non-negative revenue, a higher price adjustment never lowers the
      projected profit. */
  lemma PricingMonotone(currentRevenue: real, currentExpenses: real, currentProfit: real, currentMargin: real,
                        costAdjustment: real, p1: real, p2: real)
    requires currentRevenue >= 0.0 && p1 <= p2
    ensures CalculateScenario(currentRevenue, currentExpenses, currentProfit, currentMargin, costAdjustment, p1).projectedProfit
         <= CalculateScenario(currentRevenue, currentExpenses, currentProfit, currentMargin, costAdjustment, p2).projectedProfit
  {
    AdjustedMonotone(currentRevenue, p1, p2);
  }

  /** With non-negative expenses, a higher cost adjustment never raises the
      projected profit. */
  lemma CostMonotone(currentRevenue: real, currentExpenses: real, currentProfit: real, currentMargin: real,
                     c1: real, c2: real, pricingAdjustment: real)
    requires currentExpenses >= 0.0 && c1 <= c2
    ensures CalculateScenario(currentRevenue, currentExpenses, currentProfit, currentMargin, c2, pricingAdjustment).projectedProfit
         <= CalculateScenario(currentRevenue, currentExpenses, currentProfit, currentMargin, c1, pricingAdjustment).projectedProfit
  {
    AdjustedMonotone(currentExpenses, c1, c2);
  }

  lemma AdjustedMonotone(x: real, p1: real, p2: real)
    requires x >= 0.0 && p1 <= p2
    ensures Adjusted(x, p1) <= Adjusted(x, p2)
  {
    assert Adjusted(x, p2) - Adjusted(x, p1) == x * ((p2 - p1) / 100.0);
  }

  /** The rollup feeds the simulator paid revenue, paid operating expenses
      plus paid payables, cash-basis profit and its margin; with both
      sliders at zero the scenario then projects exactly that profit and that
      margin. */
  lemma SimulatorOnRollup(project: Project, invoices: seq<Invoice>, expenses: seq<Expense>,
                          payables: seq<PayableInvoice>, notes: seq<CreditNote>, window: seq<string>)
    ensures var d := ProjectFinancialsOf(project, invoices, expenses, payables, notes, window);
      var r := CalculateScenario(d.paidRevenue, d.paidOpExpenses + d.paidPayables, d.netProfit, d.profitMargin, 0.0, 0.0);
      && r.projectedProfit == d.netProfit && r.change == 0.0 && r.changePercent == 0.0
      && r.newMargin == d.profitMargin
  {
    RollupIdentities(project, invoices, expenses, payables, notes, window);
    var d := ProjectFinancialsOf(project, invoices, expenses, payables, notes, window);
    NoAdjustmentNoChange(d.paidRevenue, d.paidOpExpenses + d.paidPayables, d.profitMargin);
  }
}
