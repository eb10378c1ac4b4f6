/** The local analytics over a project rollup (services/geminiService.ts):
    the 0-100 health score with its rating and factors, the early warnings,
    and the month-pair insight timeline. Messages and recommendations are
    free text built around formatted numbers; the model keeps their kind and
    severity. */
module HealthAnalytics {
  import opened Ledger

  // ---------------------------------------------------------------------
  // Health score
  // ---------------------------------------------------------------------

  datatype Rating = Excellent | Good | Fair | Poor | Critical

  datatype Factors = Factors(profitMargin: int, costControl: int, trend: int)

  datatype HealthScore = HealthScore(score: int, rating: Rating, factors: Factors)

  /** `Math.round`: the nearest integer, halves rounded up. */
  function Round(x: real): (n: int)
    ensures x - 0.5 < n as real <= x + 0.5
  {
    (x + 0.5).Floor
  }

  function Clamp100(x: real): (r: real)
    ensures 0.0 <= r <= 100.0
    ensures 0.0 <= x <= 100.0 ==> r == x
  {
    Min(100.0, Max(0.0, x))
  }

  /** The profit-margin factor, weighted 40 percent: full marks from a 30
      percent margin up, nothing at a margin of 0 or below. */
  function MarginScore(profitMargin: real): (r: real)
    ensures 0.0 <= r <= 40.0
    ensures profitMargin >= 30.0 ==> r == 40.0
    ensures profitMargin <= 0.0 ==> r == 0.0
  {
    Clamp100(profitMargin / 30.0 * 100.0) * 0.4
  }

  /** The cost-control factor, weighted 30 percent, from the budget variance
      percentage. */
  function CostScore(variancePercent: real): (r: real)
    ensures 0.0 <= r <= 30.0
  {
    var budgetVariance := variancePercent / 100.0;
    if budgetVariance >= 0.0 then Min(100.0, 100.0 + budgetVariance * 50.0) * 0.3
    else Max(0.0, 100.0 + budgetVariance * 100.0) * 0.3
  }

  /** `m.profitChange || 0` summed over `months`. */
  function ProfitChangeSum(months: seq<MonthlyMetrics>): real
    decreases |months|
  {
    if months == [] then 0.0
    else ProfitChangeSum(months[..|months| - 1]) + OrZero(months[|months| - 1].profitChange)
  }

  /** `monthlyBreakdown.slice(-3)`: the last three months, or all of them. */
  function LastThree(months: seq<MonthlyMetrics>): (r: seq<MonthlyMetrics>)
    ensures |r| == if |months| < 3 then |months| else 3
    ensures r == months[|months| - |r|..]
  {
    if |months| < 3 then months else months[|months| - 3..]
  }

  /** The trend factor, weighted 30 percent: a neutral 15 points with fewer
      than two months, otherwise driven by the mean profit change of the last
      (up to) three months, 50 points plus twice the mean, clamped. */
  function TrendScore(months: seq<MonthlyMetrics>): (r: real)
    ensures 0.0 <= r <= 30.0
    ensures |months| < 2 ==> r == 15.0
  {
    if |months| >= 2 then
      var recent := LastThree(months);
      var avgChange := ProfitChangeSum(recent) / |recent| as real;
      Clamp100(50.0 + avgChange * 2.0) * 0.3
    else
      50.0 * 0.3
  }

  /** The rating bands of the score. */
  function RatingOf(score: int): Rating {
    if score >= 80 then Excellent
    else if score >= 60 then Good
    else if score >= 40 then Fair
    else if score >= 20 then Poor
    else Critical
  }

  /** Ratings from worst (0) to best (4). */
  function RatingRank(r: Rating): nat {
    match r
    case Critical => 0
    case Poor => 1
    case Fair => 2
    case Good => 3
    case Excellent => 4
  }

  /** `calculateHealthScore`: the score is the rounded sum of the three
      weighted factors, an integer between 0 and 100 whatever the inputs;
      each reported factor is its unweighted value rounded, also between 0
      and 100. */
  function CalculateHealthScore(detail: ProjectFinancialDetail): (h: HealthScore)
    ensures 0 <= h.score <= 100
    ensures h.rating == RatingOf(h.score)
    ensures 0 <= h.factors.profitMargin <= 100
    ensures 0 <= h.factors.costControl <= 100
    ensures 0 <= h.factors.trend <= 100
  {
    var marginScore := MarginScore(detail.profitMargin);
    var costScore := CostScore(detail.budgetVsActual.variancePercent);
    var trendScore := TrendScore(detail.monthlyBreakdown);
    var score := Round(marginScore + costScore + trendScore);
    HealthScore(score, RatingOf(score),
      Factors(Round(marginScore / 0.4), Round(costScore / 0.3), Round(trendScore / 0.3)))
  }

  /** A higher score never gets a worse rating. */
  lemma RatingMonotone(s1: int, s2: int)
    requires s1 <= s2
    ensures RatingRank(RatingOf(s1)) <= RatingRank(RatingOf(s2))
  {
  }

  /** The cost factor is its full 30 points whenever spending is within
      budget; over budget it falls linearly, 0.3 points per percent, and is 0
      from 100 percent over budget on. */
  lemma CostScoreShape(variancePercent: real)
    ensures variancePercent >= 0.0 ==> CostScore(variancePercent) == 30.0
    ensures -100.0 < variancePercent < 0.0 ==> CostScore(variancePercent) == 30.0 + 0.3 * variancePercent
    ensures variancePercent <= -100.0 ==> CostScore(variancePercent) == 0.0
  {
  }

  /** Spending less never lowers the cost factor. */
  lemma CostScoreMonotone(v1: real, v2: real)
    requires v1 <= v2
    ensures CostScore(v1) <= CostScore(v2)
  {
    CostScoreShape(v1);
    CostScoreShape(v2);
  }

  /** With at least two months the trend factor is the clamped
      `50 + 2 * mean` of the last up-to-three profit changes (a missing change
      counting as 0), scaled to 30 points. */
  lemma TrendScoreUsesRecentMean(months: seq<MonthlyMetrics>)
    requires |months| >= 2
    ensures var n := if |months| < 3 then |months| else 3;
      var mean := ProfitChangeSum(months[|months| - n..]) / n as real;
      TrendScore(months) == Clamp100(50.0 + mean * 2.0) * 0.3
  {
  }

  // ---------------------------------------------------------------------
  // Early warnings
  // ---------------------------------------------------------------------

  datatype Severity = High | Medium | Low

  datatype WarningKind = MarginErosion | BudgetOverrun | RevenueShortfall | NegativeTrend

  /** A warning: its severity, its kind, and the percentage its message shows
      (0 for the two kinds whose message shows no figure). */
  datatype EarlyWarning = EarlyWarning(severity: Severity, kind: WarningKind, figure: real)

  /** The order in which the checks run. */
  function KindRank(k: WarningKind): nat {
    match k
    case MarginErosion => 0
    case BudgetOverrun => 1
    case RevenueShortfall => 2
    case NegativeTrend => 3
  }

  /** The change of the margin between the last two months (0 with fewer
      than two months). */
  function MarginChange(months: seq<MonthlyMetrics>): real {
    if |months| >= 2 then months[|months| - 1].profitMargin - months[|months| - 2].profitMargin else 0.0
  }

  /** The margin fell by more than 5 points between the last two months. */
  predicate MarginEroding(months: seq<MonthlyMetrics>) {
    |months| >= 2 && MarginChange(months) < -5.0
  }

  /** How many of `months` had a falling profit (a missing change counting
      as 0). */
  function FallingMonths(months: seq<MonthlyMetrics>): (n: nat)
    ensures n <= |months|
    decreases |months|
  {
    if months == [] then 0
    else FallingMonths(months[..|months| - 1]) + (if OrZero(months[|months| - 1].profitChange) < 0.0 then 1 else 0)
  }

  /** At least two of the last three of at least three months had a falling
      profit. */
  predicate TrendNegative(months: seq<MonthlyMetrics>) {
    |months| >= 3 && FallingMonths(months[|months| - 3..]) >= 2
  }

  /** Severity of a budget overrun of `overrunPercent` percent. */
  function OverrunSeverity(overrunPercent: real): Severity {
    if overrunPercent > 20.0 then High else if overrunPercent > 10.0 then Medium else Low
  }

  predicate HasKind(warnings: seq<EarlyWarning>, k: WarningKind) {
    exists w :: w in warnings && w.kind == k
  }

  /** The severity and the figure each kind of warning carries. */
  predicate SeverityFits(w: EarlyWarning, detail: ProjectFinancialDetail) {
    match w.kind
    case MarginErosion =>
      w.severity == High && w.figure == Abs(MarginChange(detail.monthlyBreakdown))
    case BudgetOverrun =>
      w.severity == OverrunSeverity(Abs(detail.budgetVsActual.variancePercent))
      && w.figure == Abs(detail.budgetVsActual.variancePercent)
    case RevenueShortfall => w.severity == High && w.figure == 0.0
    case NegativeTrend => w.severity == Medium && w.figure == 0.0
  }

  /** A warning when `cond` holds, nothing otherwise. */
  function WarnIf(cond: bool, w: EarlyWarning): (r: seq<EarlyWarning>)
    ensures |r| <= 1
  {
    if cond then [w] else []
  }

  /** The margin-erosion check: high, showing the size of the margin drop. */
  function MarginCheck(detail: ProjectFinancialDetail): (r: seq<EarlyWarning>)
    ensures forall i :: 0 <= i < |r| ==> r[i].kind == MarginErosion
  {
    WarnIf(MarginEroding(detail.monthlyBreakdown),
           EarlyWarning(High, MarginErosion, Abs(MarginChange(detail.monthlyBreakdown))))
  }

  /** The budget check: a negative variance, graded by the size of the
      overrun percentage, which the warning shows. */
  function BudgetCheck(detail: ProjectFinancialDetail): (r: seq<EarlyWarning>)
    ensures forall i :: 0 <= i < |r| ==> r[i].kind == BudgetOverrun
  {
    var overrunPercent := Abs(detail.budgetVsActual.variancePercent);
    WarnIf(detail.budgetVsActual.variance < 0.0,
           EarlyWarning(OverrunSeverity(overrunPercent), BudgetOverrun, overrunPercent))
  }

  /** The loss check: high, no figure. */
  function LossCheck(detail: ProjectFinancialDetail): (r: seq<EarlyWarning>)
    ensures forall i :: 0 <= i < |r| ==> r[i].kind == RevenueShortfall
  {
    WarnIf(detail.netProfit < 0.0, EarlyWarning(High, RevenueShortfall, 0.0))
  }

  /** The trend check: medium, no figure. */
  function TrendCheck(detail: ProjectFinancialDetail): (r: seq<EarlyWarning>)
    ensures forall i :: 0 <= i < |r| ==> r[i].kind == NegativeTrend
  {
    WarnIf(TrendNegative(detail.monthlyBreakdown), EarlyWarning(Medium, NegativeTrend, 0.0))
  }

  /** The warnings of a rollup, check by check in the order they run. */
  function EarlyWarningsOf(detail: ProjectFinancialDetail): seq<EarlyWarning> {
    MarginCheck(detail) + BudgetCheck(detail) + LossCheck(detail) + TrendCheck(detail)
  }

  /** `generateEarlyWarnings`: four checks in a row, each pushing at most one
      warning onto the list. */
  method GenerateEarlyWarnings(detail: ProjectFinancialDetail) returns (warnings: seq<EarlyWarning>)
    ensures warnings == EarlyWarningsOf(detail)
  {
    warnings := [];
    var months := detail.monthlyBreakdown;
    if |months| >= 2 {
      var marginChange := RecentMarginChange(months);
      if marginChange < -5.0 {
        warnings := warnings + [EarlyWarning(High, MarginErosion, Abs(marginChange))];
      }
    }
    ghost var w1 := warnings;
    assert w1 == MarginCheck(detail);
    if detail.budgetVsActual.variance < 0.0 {
      var overrunPercent := Abs(detail.budgetVsActual.variancePercent);
      warnings := warnings + [EarlyWarning(OverrunSeverity(overrunPercent), BudgetOverrun, overrunPercent)];
    }
    ghost var w2 := warnings;
    assert w2 == w1 + BudgetCheck(detail);
    if detail.netProfit < 0.0 {
      warnings := warnings + [EarlyWarning(High, RevenueShortfall, 0.0)];
    }
    ghost var w3 := warnings;
    assert w3 == w2 + LossCheck(detail);
    if |months| >= 3 {
      var negativeMonths := FallingMonths(months[|months| - 3..]);
      if negativeMonths >= 2 {
        warnings := warnings + [EarlyWarning(Medium, NegativeTrend, 0.0)];
      }
    }
    assert warnings == w3 + TrendCheck(detail);
  }

  /** The margin change over `slice(-2)`, the last two months. */
  method RecentMarginChange(months: seq<MonthlyMetrics>) returns (change: real)
    requires |months| >= 2
    ensures change == months[|months| - 1].profitMargin - months[|months| - 2].profitMargin
  {
    var recentMonths := months[|months| - 2..];
    change := recentMonths[1].profitMargin - recentMonths[0].profitMargin;
  }

  lemma HasKindAppend(a: seq<EarlyWarning>, b: seq<EarlyWarning>, k: WarningKind)
    ensures HasKind(a + b, k) <==> HasKind(a, k) || HasKind(b, k)
  {
    if HasKind(a + b, k) {
      var w :| w in a + b && w.kind == k;
      assert w in a || w in b;
    }
    if HasKind(a, k) {
      var w :| w in a && w.kind == k;
      assert w in a + b;
    }
    if HasKind(b, k) {
      var w :| w in b && w.kind == k;
      assert w in a + b;
    }
  }

  /** The condition under which a warning of kind `k` is due: margin erosion
      over the last two months, a budget overrun (negative variance), a loss
      (negative cash-basis profit), or a falling profit in at least two of
      the last three months. */
  predicate Raised(detail: ProjectFinancialDetail, k: WarningKind) {
    match k
    case MarginErosion => MarginEroding(detail.monthlyBreakdown)
    case BudgetOverrun => detail.budgetVsActual.variance < 0.0
    case RevenueShortfall => detail.netProfit < 0.0
    case NegativeTrend => TrendNegative(detail.monthlyBreakdown)
  }

  lemma HasKindWarnIf(cond: bool, w: EarlyWarning, k: WarningKind)
    ensures HasKind(WarnIf(cond, w), k) <==> cond && w.kind == k
  {
    if cond && w.kind == k {
      assert w in WarnIf(cond, w);
    }
  }

  /** A warning of each kind is emitted exactly when its condition holds. */
  lemma WarningsIffConditions(detail: ProjectFinancialDetail, k: WarningKind)
    ensures HasKind(EarlyWarningsOf(detail), k) <==> Raised(detail, k)
  {
    var w1, w2, w3, w4 := MarginCheck(detail), BudgetCheck(detail), LossCheck(detail), TrendCheck(detail);
    HasKindAppend(w1, w2, k);
    HasKindAppend(w1 + w2, w3, k);
    HasKindAppend(w1 + w2 + w3, w4, k);
    HasKindWarnIf(MarginEroding(detail.monthlyBreakdown),
                  EarlyWarning(High, MarginErosion, Abs(MarginChange(detail.monthlyBreakdown))), k);
    var overrunPercent := Abs(detail.budgetVsActual.variancePercent);
    HasKindWarnIf(detail.budgetVsActual.variance < 0.0,
                  EarlyWarning(OverrunSeverity(overrunPercent), BudgetOverrun, overrunPercent), k);
    HasKindWarnIf(detail.netProfit < 0.0, EarlyWarning(High, RevenueShortfall, 0.0), k);
    HasKindWarnIf(TrendNegative(detail.monthlyBreakdown), EarlyWarning(Medium, NegativeTrend, 0.0), k);
  }

  /** Margin erosion and a loss are high, a falling trend is medium, and a
      budget overrun is high above 20 percent over, medium above 10 percent
      and low otherwise. Margin erosion shows the size of the margin drop and
      a budget overrun the size of the overrun percentage. */
  lemma WarningSeverities(detail: ProjectFinancialDetail)
    ensures forall w :: w in EarlyWarningsOf(detail) ==> SeverityFits(w, detail)
  {
    var months := detail.monthlyBreakdown;
    var overrunPercent := Abs(detail.budgetVsActual.variancePercent);
    forall w | w in EarlyWarningsOf(detail) ensures SeverityFits(w, detail) {
      if w in MarginCheck(detail) {
        assert w == EarlyWarning(High, MarginErosion, Abs(MarginChange(months)));
      } else if w in BudgetCheck(detail) {
        assert w == EarlyWarning(OverrunSeverity(overrunPercent), BudgetOverrun, overrunPercent);
      } else if w in LossCheck(detail) {
        assert w == EarlyWarning(High, RevenueShortfall, 0.0);
      } else {
        assert w in TrendCheck(detail);
        assert w == EarlyWarning(Medium, NegativeTrend, 0.0);
      }
    }
  }

  /** The warnings come in the order the checks run, so no kind appears
      twice and there are at most four. */
  lemma WarningsOrdered(detail: ProjectFinancialDetail)
    ensures var ws := EarlyWarningsOf(detail);
      && (forall i, j :: 0 <= i < j < |ws| ==> KindRank(ws[i].kind) < KindRank(ws[j].kind))
      && |ws| <= 4
  {
    var w1, w2, w3, w4 := MarginCheck(detail), BudgetCheck(detail), LossCheck(detail), TrendCheck(detail);
    RanksAppend(w1, w2, 1);
    RanksAppend(w1 + w2, w3, 2);
    RanksAppend(w1 + w2 + w3, w4, 3);
  }

  /** Warnings in check order, all ranked below `bound`, followed by at most
      one warning of rank `bound`, are still in check order. */
  lemma RanksAppend(a: seq<EarlyWarning>, b: seq<EarlyWarning>, bound: nat)
    requires forall i, j :: 0 <= i < j < |a| ==> KindRank(a[i].kind) < KindRank(a[j].kind)
    requires forall i :: 0 <= i < |a| ==> KindRank(a[i].kind) < bound
    requires |b| <= 1 && forall i :: 0 <= i < |b| ==> KindRank(b[i].kind) == bound
    ensures forall i, j :: 0 <= i < j < |a + b| ==> KindRank((a + b)[i].kind) < KindRank((a + b)[j].kind)
    ensures forall i :: 0 <= i < |a + b| ==> KindRank((a + b)[i].kind) <= bound
    ensures |a + b| <= |a| + 1
  {
  }

  // ---------------------------------------------------------------------
  // Auto-insights timeline
  // ---------------------------------------------------------------------

  /** The template an insight uses; the text around the numbers is left out. */
  datatype InsightKind = Stable | RevenueDrivenGrowth | CostReductionGrowth | CostDrivenDecline | RevenueDecline

  datatype InsightMetrics = InsightMetrics(revenueChange: real, expenseChange: real, profitChange: real)

  datatype AutoInsight = AutoInsight(month: string, previousMonth: string, kind: InsightKind, metrics: InsightMetrics)

  /** The classification of one month against the previous one: a profit
      move under 5 percent either way is stable; a rise is revenue-driven when
      revenue grew faster than expenses and cost-reduction otherwise; a fall
      is cost-driven when expenses grew faster than revenue and a revenue
      decline otherwise. */
  function Classify(m: InsightMetrics): (k: InsightKind)
    ensures k == Stable <==> Abs(m.profitChange) < 5.0
    ensures k == RevenueDrivenGrowth <==> m.profitChange >= 5.0 && m.revenueChange > m.expenseChange
    ensures k == CostReductionGrowth <==> m.profitChange >= 5.0 && m.revenueChange <= m.expenseChange
    ensures k == CostDrivenDecline <==> m.profitChange <= -5.0 && m.expenseChange > m.revenueChange
    ensures k == RevenueDecline <==> m.profitChange <= -5.0 && m.expenseChange <= m.revenueChange
  {
    if Abs(m.profitChange) < 5.0 then Stable
    else if m.profitChange > 0.0 then
      if m.revenueChange > m.expenseChange then RevenueDrivenGrowth else CostReductionGrowth
    else
      if m.expenseChange > m.revenueChange then CostDrivenDecline else RevenueDecline
  }

  /** The three change fields of a bucket, a missing one read as 0. */
  function MetricsOf(m: MonthlyMetrics): InsightMetrics {
    InsightMetrics(OrZero(m.revenueChange), OrZero(m.expensesChange), OrZero(m.profitChange))
  }

  /** `generateAutoInsights`: one insight per consecutive pair of months,
      none for fewer than two months. */
  method GenerateAutoInsights(months: seq<MonthlyMetrics>) returns (insights: seq<AutoInsight>)
    ensures |insights| == if |months| <= 1 then 0 else |months| - 1
    ensures forall i :: 0 <= i < |insights| ==>
      && insights[i].month == months[i + 1].month
      && insights[i].previousMonth == months[i].month
      && insights[i].metrics == MetricsOf(months[i + 1])
      && insights[i].kind == Classify(insights[i].metrics)
  {
    insights := [];
    var i := 1;
    while i < |months|
      invariant 1 <= i <= if |months| <= 1 then 1 else |months|
      invariant |insights| == i - 1
      invariant forall j :: 0 <= j < |insights| ==>
        && insights[j].month == months[j + 1].month
        && insights[j].previousMonth == months[j].month
        && insights[j].metrics == MetricsOf(months[j + 1])
        && insights[j].kind == Classify(insights[j].metrics)
    {
      var current := months[i];
      var previous := months[i - 1];
      var revenueChange := OrZero(current.revenueChange);
      var expenseChange := OrZero(current.expensesChange);
      var profitChange := OrZero(current.profitChange);
      var insight: InsightKind;
      if Abs(profitChange) < 5.0 {
        insight := Stable;
      } else if profitChange > 0.0 {
        if revenueChange > expenseChange {
          insight := RevenueDrivenGrowth;
        } else {
          insight := CostReductionGrowth;
        }
      } else {
        if expenseChange > revenueChange {
          insight := CostDrivenDecline;
        } else {
          insight := RevenueDecline;
        }
      }
      insights := insights + [AutoInsight(current.month, previous.month, insight,
                                          InsightMetrics(revenueChange, expenseChange, profitChange))];
      i := i + 1;
    }
  }
}
