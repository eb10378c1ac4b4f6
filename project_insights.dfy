/** The rule-based insights of the project detail view
    (components/ProjectDetailModal.tsx): at most one remark on
    profitability, one on the budget and one on the latest profit trend,
    in that order. A remark is its variant and the figures its message
    shows. */
module ProjectInsights {
  import opened Ledger

  datatype ProjectInsight =
    | HighlyProfitable(project: string, margin: real)
    | LowMargin(project: string, margin: real)
    | OverBudget(overrun: real, overrunPercent: real)
    | UnderBudget(underPercent: real)
    | ProfitDecline(dropPercent: real)
    | ProfitGrowth(growthPercent: real)

  datatype Topic = Profitability | BudgetTopic | Trend

  function TopicOf(i: ProjectInsight): Topic {
    match i
    case HighlyProfitable(_, _) => Profitability
    case LowMargin(_, _) => Profitability
    case OverBudget(_, _) => BudgetTopic
    case UnderBudget(_) => BudgetTopic
    case ProfitDecline(_) => Trend
    case ProfitGrowth(_) => Trend
  }

  function TopicRank(t: Topic): nat {
    match t
    case Profitability => 0
    case BudgetTopic => 1
    case Trend => 2
  }

  /** Margin above 30: highly profitable; below 10: low margin. */
  function ProfitabilityInsight(data: ProjectFinancialDetail): Option<ProjectInsight> {
    if data.profitMargin > 30.0 then Some(HighlyProfitable(data.project.name, data.profitMargin))
    else if data.profitMargin < 10.0 then Some(LowMargin(data.project.name, data.profitMargin))
    else None
  }

  /** Negative variance: over budget; otherwise more than 20 percent left:
      under budget. */
  function BudgetInsight(b: BudgetVsActual): Option<ProjectInsight> {
    if b.variance < 0.0 then Some(OverBudget(Abs(b.variance), Abs(b.variancePercent)))
    else if b.variancePercent > 20.0 then Some(UnderBudget(b.variancePercent))
    else None
  }

  /** With two months or more, the latest month's profit change (absent
      reading as zero) below -10 is a decline and above 15 is growth. */
  function TrendInsight(months: seq<MonthlyMetrics>): Option<ProjectInsight> {
    if |months| < 2 then None
    else
      var change := OrZero(months[|months| - 1].profitChange);
      if change < -10.0 then Some(ProfitDecline(Abs(change)))
      else if change > 15.0 then Some(ProfitGrowth(change))
      else None
  }

  function Emit(o: Option<ProjectInsight>): seq<ProjectInsight> {
    if o.Some? then [o.value] else []
  }

  function InsightsOf(data: ProjectFinancialDetail): seq<ProjectInsight> {
    Emit(ProfitabilityInsight(data)) + Emit(BudgetInsight(data.budgetVsActual)) + Emit(TrendInsight(data.monthlyBreakdown))
  }

  /** `generateInsights`: the three rules push onto one list in turn. */
  method GenerateInsights(data: ProjectFinancialDetail) returns (insights: seq<ProjectInsight>)
    ensures insights == InsightsOf(data)
  {
    insights := [];
    if data.profitMargin > 30.0 {
      insights := insights + [HighlyProfitable(data.project.name, data.profitMargin)];
    } else if data.profitMargin < 10.0 {
      insights := insights + [LowMargin(data.project.name, data.profitMargin)];
    }
    var b := data.budgetVsActual;
    if b.variance < 0.0 {
      insights := insights + [OverBudget(Abs(b.variance), Abs(b.variancePercent))];
    } else if b.variancePercent > 20.0 {
      insights := insights + [UnderBudget(b.variancePercent)];
    }
    var months := data.monthlyBreakdown;
    if |months| >= 2 {
      var change := OrZero(months[|months| - 1].profitChange);
      if change < -10.0 {
        insights := insights + [ProfitDecline(Abs(change))];
      } else if change > 15.0 {
        insights := insights + [ProfitGrowth(change)];
      }
    }
  }

  /** Some insight of the list is about `t`. */
  predicate Mentions(insights: seq<ProjectInsight>, t: Topic) {
    exists i :: i in insights && TopicOf(i) == t
  }

  /** The profitability remark: high exactly above a 30 percent margin, low
      exactly below 10 percent, and none in between. */
  lemma ProfitabilityRule(data: ProjectFinancialDetail)
    ensures var p := ProfitabilityInsight(data);
      && (p.Some? && p.value.HighlyProfitable? <==> data.profitMargin > 30.0)
      && (p.Some? && p.value.LowMargin? <==> data.profitMargin < 10.0)
      && (p.None? <==> 10.0 <= data.profitMargin <= 30.0)
      && (p.Some? ==> TopicOf(p.value) == Profitability)
  {
  }

  /** The budget remark: over budget exactly when the variance is
      negative; under budget exactly when it is not and more than 20
      percent of the budget is left. */
  lemma BudgetRule(b: BudgetVsActual)
    ensures var o := BudgetInsight(b);
      && (o.Some? && o.value.OverBudget? <==> b.variance < 0.0)
      && (o.Some? && o.value.UnderBudget? <==> b.variance >= 0.0 && b.variancePercent > 20.0)
      && (o.Some? ==> TopicOf(o.value) == BudgetTopic)
  {
  }

  /** The trend remark needs two months; it reports a decline exactly when
      the latest change is below -10 and growth exactly when it is above
      15. */
  lemma TrendRule(months: seq<MonthlyMetrics>)
    ensures var o := TrendInsight(months);
      && (|months| < 2 ==> o.None?)
      && (o.Some? && o.value.ProfitDecline? <==> |months| >= 2 && OrZero(months[|months| - 1].profitChange) < -10.0)
      && (o.Some? && o.value.ProfitGrowth? <==> |months| >= 2 && OrZero(months[|months| - 1].profitChange) > 15.0)
      && (o.Some? ==> TopicOf(o.value) == Trend)
  {
  }

  lemma MentionsAppend(a: seq<ProjectInsight>, b: seq<ProjectInsight>, t: Topic)
    ensures Mentions(a + b, t) <==> Mentions(a, t) || Mentions(b, t)
  {
    if Mentions(a + b, t) {
      var i :| i in a + b && TopicOf(i) == t;
      assert i in a || i in b;
    }
    if Mentions(a, t) {
      var i :| i in a && TopicOf(i) == t;
      assert i in a + b;
    }
    if Mentions(b, t) {
      var i :| i in b && TopicOf(i) == t;
      assert i in a + b;
    }
  }

  lemma MentionsEmit(o: Option<ProjectInsight>, t: Topic)
    ensures Mentions(Emit(o), t) <==> o.Some? && TopicOf(o.value) == t
  {
    if o.Some? {
      assert o.value in Emit(o);
    }
  }

  /** At most three insights, one per topic at most, always in the order
      profitability, budget, trend; a topic is mentioned exactly when its
      rule fires. */
  lemma InsightsShape(data: ProjectFinancialDetail)
    ensures var ins := InsightsOf(data);
      && |ins| <= 3
      && (forall i, j :: 0 <= i < j < |ins| ==> TopicRank(TopicOf(ins[i])) < TopicRank(TopicOf(ins[j])))
      && (Mentions(ins, Profitability) <==> ProfitabilityInsight(data).Some?)
      && (Mentions(ins, BudgetTopic) <==> BudgetInsight(data.budgetVsActual).Some?)
      && (Mentions(ins, Trend) <==> TrendInsight(data.monthlyBreakdown).Some?)
  {
    var p, b, tr := Emit(ProfitabilityInsight(data)), Emit(BudgetInsight(data.budgetVsActual)),
                    Emit(TrendInsight(data.monthlyBreakdown));
    ProfitabilityRule(data);
    BudgetRule(data.budgetVsActual);
    TrendRule(data.monthlyBreakdown);
    MentionsAppend(p, b, Profitability);
    MentionsAppend(p + b, tr, Profitability);
    MentionsAppend(p, b, BudgetTopic);
    MentionsAppend(p + b, tr, BudgetTopic);
    MentionsAppend(p, b, Trend);
    MentionsAppend(p + b, tr, Trend);
    MentionsEmit(ProfitabilityInsight(data), Profitability);
    MentionsEmit(BudgetInsight(data.budgetVsActual), BudgetTopic);
    MentionsEmit(TrendInsight(data.monthlyBreakdown), Trend);
    MentionsEmit(ProfitabilityInsight(data), BudgetTopic);
    MentionsEmit(ProfitabilityInsight(data), Trend);
    MentionsEmit(BudgetInsight(data.budgetVsActual), Profitability);
    MentionsEmit(BudgetInsight(data.budgetVsActual), Trend);
    MentionsEmit(TrendInsight(data.monthlyBreakdown), Profitability);
    MentionsEmit(TrendInsight(data.monthlyBreakdown), BudgetTopic);
  }
}
