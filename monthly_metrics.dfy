/** The monthly metrics aggregator, `calculateMonthlyMetrics` of
    utils/financialCalculations.ts: paid activity bucketed into a window of
    calendar months, with derived profit, margin and month-over-month
    changes. The window ("the last six months ending today") is a parameter;
    `LastSixMonths` models how its keys are spelled. */
module MonthlyAggregation {
  import opened Ledger
  import opened Credits

  // ---------------------------------------------------------------------
  // The window of month keys
  // ---------------------------------------------------------------------

  function DigitChar(d: nat): char
    requires d < 10
  {
    "0123456789"[d]
  }

  /** `String(n)` for a natural number: decimal digits without leading zeros. */
  function Digits(n: nat): string
    decreases n
  {
    if n < 10 then [DigitChar(n)] else Digits(n / 10) + [DigitChar(n % 10)]
  }

  /** `String(n).padStart(2, '0')` for a number below 100. */
  function Pad2(n: nat): (s: string)
    requires n < 100
    ensures |s| == 2
  {
    [DigitChar(n / 10), DigitChar(n % 10)]
  }

  /** The `YYYY-MM` key of month index `month` (0 = January) of `year`. */
  function KeyOf(year: nat, month: nat): string
    requires month < 12
  {
    Digits(year) + "-" + Pad2(month + 1)
  }

  /** The keys of the six months ending with month index `month` of `year`,
      oldest first: `new Date(year, month - i, 1)` for i = 5 down to 0, where a
      negative month index rolls back into the previous year. The year comes
      from the clock and is at least 100, so the Date constructor's two-digit
      year rule never applies. */
  function LastSixMonths(year: nat, month: nat): (w: seq<string>)
    requires 100 <= year && month < 12
    ensures |w| == 6
    ensures w[5] == KeyOf(year, month)
  {
    seq(6, i requires 0 <= i < 6 =>
      if month >= 5 - i then KeyOf(year, month - (5 - i)) else KeyOf(year - 1, month + 12 - (5 - i)))
  }

  lemma Pad2Injective(a: nat, b: nat)
    requires a < 100 && b < 100 && Pad2(a) == Pad2(b)
    ensures a == b
  {
    assert Pad2(a)[0] == Pad2(b)[0] && Pad2(a)[1] == Pad2(b)[1];
    assert a / 10 == b / 10;
    assert a % 10 == b % 10;
  }

  lemma KeyOfEndsWithMonth(year: nat, month: nat)
    requires month < 12
    ensures var k := KeyOf(year, month); |k| >= 3 && k[|k| - 2..] == Pad2(month + 1)
  {
    var k := KeyOf(year, month);
    assert k == (Digits(year) + "-") + Pad2(month + 1);
  }

  /** Keys of different months of the year differ, whatever the years. */
  lemma KeysOfDifferentMonths(y1: nat, m1: nat, y2: nat, m2: nat)
    requires m1 < 12 && m2 < 12 && m1 != m2
    ensures KeyOf(y1, m1) != KeyOf(y2, m2)
  {
    KeyOfEndsWithMonth(y1, m1);
    KeyOfEndsWithMonth(y2, m2);
    if KeyOf(y1, m1) == KeyOf(y2, m2) {
      Pad2Injective(m1 + 1, m2 + 1);
    }
  }

  /** The month index and year of the `i`-th window slot, counting back
      `5 - i` months from month index `month` of `year`. */
  function SlotMonth(month: nat, i: nat): (m: nat)
    requires month < 12 && i < 6
    ensures m < 12
  {
    if month >= 5 - i then month - (5 - i) else month + 12 - (5 - i)
  }

  function SlotYear(year: nat, month: nat, i: nat): nat
    requires 100 <= year && i < 6
  {
    if month >= 5 - i then year else year - 1
  }

  lemma SlotKey(year: nat, month: nat, i: nat)
    requires 100 <= year && month < 12 && i < 6
    ensures LastSixMonths(year, month)[i] == KeyOf(SlotYear(year, month, i), SlotMonth(month, i))
  {
  }

  /** The six keys are pairwise distinct: six consecutive months have six
      different month numbers, and a key ends with its padded month. */
  lemma LastSixMonthsDistinct(year: nat, month: nat)
    requires 100 <= year && month < 12
    ensures forall i, j :: 0 <= i < j < 6 ==> LastSixMonths(year, month)[i] != LastSixMonths(year, month)[j]
  {
    var w := LastSixMonths(year, month);
    forall i, j | 0 <= i < j < 6 ensures w[i] != w[j] {
      SlotKey(year, month, i);
      SlotKey(year, month, j);
      assert SlotMonth(month, i) != SlotMonth(month, j);
      KeysOfDifferentMonths(SlotYear(year, month, i), SlotMonth(month, i), SlotYear(year, month, j), SlotMonth(month, j));
    }
  }

  // ---------------------------------------------------------------------
  // Bucketing
  // ---------------------------------------------------------------------

  /** `months.find(m => m.month === key)`: the index of the first bucket whose
      key matches, if any. */
  function FindMonth(window: seq<string>, key: string): (r: Option<nat>)
    ensures r.Some? ==> r.value < |window| && window[r.value] == key
    ensures r.Some? ==> forall j :: 0 <= j < r.value ==> window[j] != key
    ensures r.None? <==> key !in window
  {
    if window == [] then None
    else if window[0] == key then Some(0)
    else
      match FindMonth(window[1..], key)
      case None => None
      case Some(j) => Some(j + 1)
  }

  /** Whether a record dated `date` lands in bucket `k`. */
  predicate InBucket(window: seq<string>, k: nat, date: string) {
    FindMonth(window, MonthKey(date)) == Some(k)
  }

  /** Net revenue that the paid invoices among `invoices` add to bucket `k`. */
  function RevenueIn(window: seq<string>, k: nat, invoices: seq<Invoice>, credits: map<string, real>): real
    decreases |invoices|
  {
    if invoices == [] then 0.0
    else
      var inv := invoices[|invoices| - 1];
      RevenueIn(window, k, invoices[..|invoices| - 1], credits)
        + (if inv.status == FinancialStatus.Paid && InBucket(window, k, inv.date) then NetRevenue(inv, credits) else 0.0)
  }

  /** Amount that the paid expenses among `expenses` add to bucket `k`. */
  function OpExpensesIn(window: seq<string>, k: nat, expenses: seq<Expense>): real
    decreases |expenses|
  {
    if expenses == [] then 0.0
    else
      var e := expenses[|expenses| - 1];
      OpExpensesIn(window, k, expenses[..|expenses| - 1])
        + (if e.status == ExpenseStatus.Paid && InBucket(window, k, e.date) then e.amount else 0.0)
  }

  /** Amount that the paid payables among `payables` add to bucket `k`. */
  function PayablesIn(window: seq<string>, k: nat, payables: seq<PayableInvoice>): real
    decreases |payables|
  {
    if payables == [] then 0.0
    else
      var p := payables[|payables| - 1];
      PayablesIn(window, k, payables[..|payables| - 1])
        + (if p.status == PayableStatus.Paid && InBucket(window, k, p.date) then p.amount else 0.0)
  }

  /** A fresh bucket: every figure and every change field zero. */
  function EmptyBucket(month: string): MonthlyMetrics {
    MonthlyMetrics(month, 0.0, 0.0, 0.0, 0.0, Some(0.0), Some(0.0), Some(0.0), Some(0.0))
  }

  /** Bucket `k` after the three accumulation loops over the given records. */
  function Accumulated(window: seq<string>, k: nat, invoices: seq<Invoice>, expenses: seq<Expense>,
                       payables: seq<PayableInvoice>, credits: map<string, real>): MonthlyMetrics
    requires k < |window|
  {
    EmptyBucket(window[k]).(
      revenue := RevenueIn(window, k, invoices, credits),
      expenses := OpExpensesIn(window, k, expenses) + PayablesIn(window, k, payables))
  }

  // ---------------------------------------------------------------------
  // Derived figures
  // ---------------------------------------------------------------------

  /** `prev > 0 ? ((cur - prev) / prev) * 100 : 0`: the change of revenue
      or expenses in percent of a positive previous value. */
  function GrowthPercent(prev: real, cur: real): real {
    if prev > 0.0 then (cur - prev) / prev * 100.0 else 0.0
  }

  /** The final pass on one bucket: profit, margin and, when there is a
      previous (already finished) bucket, the four changes against it. */
  function Finish(m: MonthlyMetrics, prev: Option<MonthlyMetrics>): MonthlyMetrics {
    var netProfit := m.revenue - m.expenses;
    var margin := Percent(netProfit, m.revenue);
    match prev
    case None => m.(netProfit := netProfit, profitMargin := margin)
    case Some(p) =>
      m.(netProfit := netProfit, profitMargin := margin,
         revenueChange := Some(GrowthPercent(p.revenue, m.revenue)),
         expensesChange := Some(GrowthPercent(p.expenses, m.expenses)),
         profitChange := Some(ChangePercent(p.netProfit, netProfit)),
         marginChange := Some(margin - p.profitMargin))
  }

  /** The four change fields of `b` compare it with its predecessor `p`:
      revenue and expense growth in percent of a positive previous value
      (else zero), profit change in percent of the previous profit's
      magnitude (else zero; negative exactly when profit fell), and the plain
      difference of margins. */
  predicate ChangesAgainst(b: MonthlyMetrics, p: MonthlyMetrics) {
    && b.revenueChange.Some? && b.expensesChange.Some? && b.profitChange.Some? && b.marginChange.Some?
    && IsPercentOf(b.revenueChange.value, b.revenue - p.revenue, p.revenue)
    && IsPercentOf(b.expensesChange.value, b.expenses - p.expenses, p.expenses)
    && IsPercentOf(b.profitChange.value, b.netProfit - p.netProfit, Abs(p.netProfit))
    && (p.netProfit != 0.0 ==> (b.profitChange.value < 0.0 <==> b.netProfit < p.netProfit))
    && b.marginChange.value == b.profitMargin - p.profitMargin
  }

  /** The final pass keeps the month and totals of a bucket, sets its
      profit to revenue minus expenses and its margin to that profit in
      percent of revenue. */
  lemma FinishedFigures(m: MonthlyMetrics, prev: Option<MonthlyMetrics>, f: MonthlyMetrics)
    requires f == Finish(m, prev)
    ensures f.month == m.month && f.revenue == m.revenue && f.expenses == m.expenses
    ensures f.netProfit == m.revenue - m.expenses
    ensures IsPercentOf(f.profitMargin, f.netProfit, f.revenue)
  {
    PercentMeaning(f.netProfit, f.revenue, f.profitMargin);
  }

  /** Finishing against a predecessor `p` fills the four changes as
      `ChangesAgainst` describes. */
  lemma FinishedChanges(m: MonthlyMetrics, p: MonthlyMetrics, f: MonthlyMetrics)
    requires f == Finish(m, Some(p))
    ensures ChangesAgainst(f, p)
  {
    PercentMeaning(f.revenue - p.revenue, p.revenue, f.revenueChange.value);
    PercentMeaning(f.expenses - p.expenses, p.expenses, f.expensesChange.value);
    ChangePercentMeaning(p.netProfit, f.netProfit, f.profitChange.value);
  }

  /** Bucket `k` of the finished series. */
  function BucketOf(window: seq<string>, k: nat, invoices: seq<Invoice>, expenses: seq<Expense>,
                    payables: seq<PayableInvoice>, credits: map<string, real>): MonthlyMetrics
    requires k < |window|
    decreases k
  {
    Finish(Accumulated(window, k, invoices, expenses, payables, credits),
           if k == 0 then None else Some(BucketOf(window, k - 1, invoices, expenses, payables, credits)))
  }

  /** `calculateMonthlyMetrics` as a function of its inputs and the window. */
  function MonthlyMetricsOf(window: seq<string>, invoices: seq<Invoice>, expenses: seq<Expense>,
                            payables: seq<PayableInvoice>, notes: seq<CreditNote>): (r: seq<MonthlyMetrics>)
    ensures |r| == |window|
    // one bucket per window month, in window order
    ensures forall k :: 0 <= k < |r| ==> r[k].month == window[k]
  {
    var credits := CreditMap(notes);
    seq(|window|, k requires 0 <= k < |window| => BucketOf(window, k, invoices, expenses, payables, credits))
  }

  // ---------------------------------------------------------------------
  // The imperative aggregation
  // ---------------------------------------------------------------------

  /** The loops of `calculateMonthlyMetrics`: allocate the buckets, fill the
      credit dictionary, add paid invoices, expenses and payables into their
      buckets in place, then derive profit, margin and changes in a final
      pass in which each bucket reads its already finished predecessor. */
  method CalculateMonthlyMetrics(window: seq<string>, invoices: seq<Invoice>, expenses: seq<Expense>,
                                 payables: seq<PayableInvoice>, notes: seq<CreditNote>)
    returns (r: seq<MonthlyMetrics>)
    ensures r == MonthlyMetricsOf(window, invoices, expenses, payables, notes)
  {
    var n := |window|;
    var months := new MonthlyMetrics[n];
    for i := 0 to n
      invariant forall k :: 0 <= k < i ==> months[k] == EmptyBucket(window[k])
    {
      months[i] := EmptyBucket(window[i]);
    }
    var credits := BuildCreditMap(notes);
    AddPaidInvoices(months, window, invoices, credits);
    AddPaidExpenses(months, window, invoices, expenses, credits);
    AddPaidPayables(months, window, invoices, expenses, payables, credits);
    FinishBuckets(months, window, invoices, expenses, payables, credits);
    r := months[..];
  }

  /** `invoices.forEach`: each paid invoice adds its net revenue to the
      bucket of its month, if that month is in the window. */
  method AddPaidInvoices(months: array<MonthlyMetrics>, window: seq<string>, invoices: seq<Invoice>,
                         credits: map<string, real>)
    requires months.Length == |window|
    requires forall k :: 0 <= k < months.Length ==> months[k] == EmptyBucket(window[k])
    modifies months
    ensures forall k :: 0 <= k < months.Length ==> months[k] == Accumulated(window, k, invoices, [], [], credits)
  {
    for i := 0 to |invoices|
      invariant forall k :: 0 <= k < months.Length ==> months[k] == Accumulated(window, k, invoices[..i], [], [], credits)
    {
      var inv := invoices[i];
      if inv.status == FinancialStatus.Paid {
        var found := FindMonth(window, MonthKey(inv.date));
        if found.Some? {
          var k := found.value;
          months[k] := months[k].(revenue := months[k].revenue + NetRevenue(inv, credits));
        }
      }
      assert invoices[..i + 1][..i] == invoices[..i];
    }
    assert invoices[..|invoices|] == invoices;
  }

  /** `expenses.forEach`: each paid expense adds its amount to the bucket of
      its month. */
  method AddPaidExpenses(months: array<MonthlyMetrics>, window: seq<string>, invoices: seq<Invoice>,
                         expenses: seq<Expense>, credits: map<string, real>)
    requires months.Length == |window|
    requires forall k :: 0 <= k < months.Length ==> months[k] == Accumulated(window, k, invoices, [], [], credits)
    modifies months
    ensures forall k :: 0 <= k < months.Length ==> months[k] == Accumulated(window, k, invoices, expenses, [], credits)
  {
    for i := 0 to |expenses|
      invariant forall k :: 0 <= k < months.Length ==> months[k] == Accumulated(window, k, invoices, expenses[..i], [], credits)
    {
      var e := expenses[i];
      if e.status == ExpenseStatus.Paid {
        var found := FindMonth(window, MonthKey(e.date));
        if found.Some? {
          var k := found.value;
          months[k] := months[k].(expenses := months[k].expenses + e.amount);
        }
      }
      assert expenses[..i + 1][..i] == expenses[..i];
    }
    assert expenses[..|expenses|] == expenses;
  }

  /** `payableInvoices.forEach`: each paid payable adds its amount to the
      same `expenses` figure of the bucket of its month. */
  method AddPaidPayables(months: array<MonthlyMetrics>, window: seq<string>, invoices: seq<Invoice>,
                         expenses: seq<Expense>, payables: seq<PayableInvoice>, credits: map<string, real>)
    requires months.Length == |window|
    requires forall k :: 0 <= k < months.Length ==> months[k] == Accumulated(window, k, invoices, expenses, [], credits)
    modifies months
    ensures forall k :: 0 <= k < months.Length ==> months[k] == Accumulated(window, k, invoices, expenses, payables, credits)
  {
    for i := 0 to |payables|
      invariant forall k :: 0 <= k < months.Length ==> months[k] == Accumulated(window, k, invoices, expenses, payables[..i], credits)
    {
      var p := payables[i];
      if p.status == PayableStatus.Paid {
        var found := FindMonth(window, MonthKey(p.date));
        if found.Some? {
          var k := found.value;
          months[k] := months[k].(expenses := months[k].expenses + p.amount);
        }
      }
      assert payables[..i + 1][..i] == payables[..i];
    }
    assert payables[..|payables|] == payables;
  }

  /** Bucket `j` of `s` is its totals finished against bucket `j - 1` of `s`. */
  predicate FinishedAt(window: seq<string>, s: seq<MonthlyMetrics>, j: nat, invoices: seq<Invoice>,
                       expenses: seq<Expense>, payables: seq<PayableInvoice>, credits: map<string, real>)
    requires j < |s| == |window|
  {
    s[j] == Finish(Accumulated(window, j, invoices, expenses, payables, credits), if j == 0 then None else Some(s[j - 1]))
  }

  /** A series in which every bucket is finished against the one before it
      is the specified series. */
  lemma {:induction false} RecurrenceGivesBuckets(window: seq<string>, s: seq<MonthlyMetrics>, k: nat,
      invoices: seq<Invoice>, expenses: seq<Expense>, payables: seq<PayableInvoice>, credits: map<string, real>)
    requires |s| == |window| && k < |s|
    requires forall j :: 0 <= j < |s| ==> FinishedAt(window, s, j, invoices, expenses, payables, credits)
    ensures s[k] == BucketOf(window, k, invoices, expenses, payables, credits)
    decreases k
  {
    assert FinishedAt(window, s, k, invoices, expenses, payables, credits);
    if k > 0 {
      RecurrenceGivesBuckets(window, s, k - 1, invoices, expenses, payables, credits);
    }
  }

  /** `months.forEach((m, index) => ...)`: derive each bucket's figures, in
      order, from its totals and its finished predecessor. */
  method FinishBuckets(months: array<MonthlyMetrics>, window: seq<string>, invoices: seq<Invoice>,
                       expenses: seq<Expense>, payables: seq<PayableInvoice>, credits: map<string, real>)
    requires months.Length == |window|
    requires forall k :: 0 <= k < months.Length ==> months[k] == Accumulated(window, k, invoices, expenses, payables, credits)
    modifies months
    ensures forall k :: 0 <= k < months.Length ==> months[k] == BucketOf(window, k, invoices, expenses, payables, credits)
  {
    for index := 0 to months.Length
      invariant forall k :: 0 <= k < index ==> FinishedAt(window, months[..], k, invoices, expenses, payables, credits)
      invariant forall k :: index <= k < months.Length ==> months[k] == Accumulated(window, k, invoices, expenses, payables, credits)
    {
      ghost var before := months[..];
      var prev := if index > 0 then Some(months[index - 1]) else None;
      months[index] := Finish(months[index], prev);
      assert months[..] == before[index := months[index]];
      forall k | 0 <= k <= index ensures FinishedAt(window, months[..], k, invoices, expenses, payables, credits) {
        if k < index {
          assert FinishedAt(window, before, k, invoices, expenses, payables, credits);
        }
      }
    }
    forall k | 0 <= k < months.Length ensures months[k] == BucketOf(window, k, invoices, expenses, payables, credits) {
      RecurrenceGivesBuckets(window, months[..], k, invoices, expenses, payables, credits);
    }
  }

  // ---------------------------------------------------------------------
  // Properties of the aggregation
  // ---------------------------------------------------------------------

  /** Bucket revenue is never negative, whatever the credits: each paid
      invoice adds a clamped, non-negative amount. */
  lemma {:induction false} RevenueInNonNegative(window: seq<string>, k: nat, invoices: seq<Invoice>, credits: map<string, real>)
    ensures RevenueIn(window, k, invoices, credits) >= 0.0
    decreases |invoices|
  {
    if invoices != [] {
      RevenueInNonNegative(window, k, invoices[..|invoices| - 1], credits);
    }
  }

  lemma BucketRevenueNonNegative(window: seq<string>, invoices: seq<Invoice>, expenses: seq<Expense>,
                                 payables: seq<PayableInvoice>, notes: seq<CreditNote>, k: nat)
    requires k < |window|
    ensures MonthlyMetricsOf(window, invoices, expenses, payables, notes)[k].revenue >= 0.0
  {
    RevenueInNonNegative(window, k, invoices, CreditMap(notes));
  }

  /** Two record sets whose raw bucket totals agree give the same series. */
  lemma {:induction false} BucketsAgree(window: seq<string>, k: nat,
      invs1: seq<Invoice>, exps1: seq<Expense>, pays1: seq<PayableInvoice>, c1: map<string, real>,
      invs2: seq<Invoice>, exps2: seq<Expense>, pays2: seq<PayableInvoice>, c2: map<string, real>)
    requires k < |window|
    requires forall j :: 0 <= j <= k ==> Accumulated(window, j, invs1, exps1, pays1, c1) == Accumulated(window, j, invs2, exps2, pays2, c2)
    ensures BucketOf(window, k, invs1, exps1, pays1, c1) == BucketOf(window, k, invs2, exps2, pays2, c2)
    decreases k
  {
    if k > 0 {
      BucketsAgree(window, k - 1, invs1, exps1, pays1, c1, invs2, exps2, pays2, c2);
    }
  }

  /** A paid invoice adds its net revenue to the bucket of its month and to
      no other bucket; an unpaid invoice, or one whose month is outside the
      window, adds nothing anywhere. */
  lemma AppendInvoice(window: seq<string>, k: nat, invoices: seq<Invoice>, inv: Invoice, credits: map<string, real>)
    ensures RevenueIn(window, k, invoices + [inv], credits) ==
      RevenueIn(window, k, invoices, credits)
        + (if inv.status == FinancialStatus.Paid && k < |window| && window[k] == MonthKey(inv.date)
              && (forall j :: 0 <= j < k ==> window[j] != MonthKey(inv.date))
           then NetRevenue(inv, credits) else 0.0)
  {
    assert (invoices + [inv])[..|invoices|] == invoices;
  }

  /** A paid expense adds its amount to the bucket of its month and to no
      other bucket; an unpaid expense, or one whose month is outside the
      window, adds nothing anywhere. */
  lemma AppendExpense(window: seq<string>, k: nat, expenses: seq<Expense>, e: Expense)
    ensures OpExpensesIn(window, k, expenses + [e]) ==
      OpExpensesIn(window, k, expenses)
        + (if e.status == ExpenseStatus.Paid && k < |window| && window[k] == MonthKey(e.date)
              && (forall j :: 0 <= j < k ==> window[j] != MonthKey(e.date))
           then e.amount else 0.0)
  {
    assert (expenses + [e])[..|expenses|] == expenses;
  }

  /** A paid payable adds its amount to the bucket of its month and to no
      other bucket; an unpaid payable, or one whose month is outside the
      window, adds nothing anywhere. */
  lemma AppendPayable(window: seq<string>, k: nat, payables: seq<PayableInvoice>, p: PayableInvoice)
    ensures PayablesIn(window, k, payables + [p]) ==
      PayablesIn(window, k, payables)
        + (if p.status == PayableStatus.Paid && k < |window| && window[k] == MonthKey(p.date)
              && (forall j :: 0 <= j < k ==> window[j] != MonthKey(p.date))
           then p.amount else 0.0)
  {
    assert (payables + [p])[..|payables|] == payables;
  }

  /** A paid expense and a paid payable both add to the single `expenses`
      figure of their month's bucket. */
  lemma AppendExpenseAndPayable(window: seq<string>, k: nat, expenses: seq<Expense>, e: Expense,
                                payables: seq<PayableInvoice>, p: PayableInvoice)
    requires k < |window| && MonthKey(e.date) == window[k] && MonthKey(p.date) == window[k]
    requires forall j :: 0 <= j < k ==> window[j] != window[k]
    requires e.status == ExpenseStatus.Paid && p.status == PayableStatus.Paid
    ensures OpExpensesIn(window, k, expenses + [e]) + PayablesIn(window, k, payables + [p]) ==
      OpExpensesIn(window, k, expenses) + PayablesIn(window, k, payables) + e.amount + p.amount
  {
    assert (expenses + [e])[..|expenses|] == expenses;
    assert (payables + [p])[..|payables|] == payables;
    assert FindMonth(window, window[k]) == Some(k);
  }

  /** An invoice whose month is outside the window, or which is not paid,
      leaves the whole series unchanged. */
  lemma IgnoredInvoiceChangesNothing(window: seq<string>, invoices: seq<Invoice>, expenses: seq<Expense>,
                                     payables: seq<PayableInvoice>, notes: seq<CreditNote>, inv: Invoice)
    requires inv.status != FinancialStatus.Paid || MonthKey(inv.date) !in window
    ensures MonthlyMetricsOf(window, invoices + [inv], expenses, payables, notes)
         == MonthlyMetricsOf(window, invoices, expenses, payables, notes)
  {
    var credits := CreditMap(notes);
    var a := MonthlyMetricsOf(window, invoices + [inv], expenses, payables, notes);
    var b := MonthlyMetricsOf(window, invoices, expenses, payables, notes);
    forall k | 0 <= k < |window| ensures a[k] == b[k] {
      forall j | 0 <= j <= k
        ensures Accumulated(window, j, invoices + [inv], expenses, payables, credits)
             == Accumulated(window, j, invoices, expenses, payables, credits)
      {
        AppendInvoice(window, j, invoices, inv, credits);
      }
      BucketsAgree(window, k, invoices + [inv], expenses, payables, credits, invoices, expenses, payables, credits);
    }
  }

  /** An expense whose month is outside the window, or which is not paid,
      leaves the whole series unchanged. */
  lemma IgnoredExpenseChangesNothing(window: seq<string>, invoices: seq<Invoice>, expenses: seq<Expense>,
                                     payables: seq<PayableInvoice>, notes: seq<CreditNote>, e: Expense)
    requires e.status != ExpenseStatus.Paid || MonthKey(e.date) !in window
    ensures MonthlyMetricsOf(window, invoices, expenses + [e], payables, notes)
         == MonthlyMetricsOf(window, invoices, expenses, payables, notes)
  {
    var credits := CreditMap(notes);
    var a := MonthlyMetricsOf(window, invoices, expenses + [e], payables, notes);
    var b := MonthlyMetricsOf(window, invoices, expenses, payables, notes);
    forall k | 0 <= k < |window| ensures a[k] == b[k] {
      forall j | 0 <= j <= k
        ensures Accumulated(window, j, invoices, expenses + [e], payables, credits)
             == Accumulated(window, j, invoices, expenses, payables, credits)
      {
        AppendExpense(window, j, expenses, e);
      }
      BucketsAgree(window, k, invoices, expenses + [e], payables, credits, invoices, expenses, payables, credits);
    }
  }

  /** A payable whose month is outside the window, or which is not paid,
      leaves the whole series unchanged. */
  lemma IgnoredPayableChangesNothing(window: seq<string>, invoices: seq<Invoice>, expenses: seq<Expense>,
                                     payables: seq<PayableInvoice>, notes: seq<CreditNote>, p: PayableInvoice)
    requires p.status != PayableStatus.Paid || MonthKey(p.date) !in window
    ensures MonthlyMetricsOf(window, invoices, expenses, payables + [p], notes)
         == MonthlyMetricsOf(window, invoices, expenses, payables, notes)
  {
    var credits := CreditMap(notes);
    var a := MonthlyMetricsOf(window, invoices, expenses, payables + [p], notes);
    var b := MonthlyMetricsOf(window, invoices, expenses, payables, notes);
    forall k | 0 <= k < |window| ensures a[k] == b[k] {
      forall j | 0 <= j <= k
        ensures Accumulated(window, j, invoices, expenses, payables + [p], credits)
             == Accumulated(window, j, invoices, expenses, payables, credits)
      {
        AppendPayable(window, j, payables, p);
      }
      BucketsAgree(window, k, invoices, expenses, payables + [p], credits, invoices, expenses, payables, credits);
    }
  }

  /** The default window yields six buckets with six distinct months, the
      last one being the current month. */
  lemma SixMonthSeries(year: nat, month: nat, invoices: seq<Invoice>, expenses: seq<Expense>,
                       payables: seq<PayableInvoice>, notes: seq<CreditNote>)
    requires 100 <= year && month < 12
    ensures var r := MonthlyMetricsOf(LastSixMonths(year, month), invoices, expenses, payables, notes);
      |r| == 6 && r[5].month == KeyOf(year, month)
      && forall i, j :: 0 <= i < j < 6 ==> r[i].month != r[j].month
  {
    LastSixMonthsDistinct(year, month);
  }

  /** Every bucket holds the paid net revenue and the paid expenses plus paid
      payables of its month, its profit is their difference, and its margin
      is that profit in percent of revenue (zero without revenue). */
  lemma BucketFigures(window: seq<string>, invoices: seq<Invoice>, expenses: seq<Expense>,
                      payables: seq<PayableInvoice>, notes: seq<CreditNote>, k: nat)
    requires k < |window|
    ensures var b := MonthlyMetricsOf(window, invoices, expenses, payables, notes)[k];
      && b.revenue == RevenueIn(window, k, invoices, CreditMap(notes))
      && b.expenses == OpExpensesIn(window, k, expenses) + PayablesIn(window, k, payables)
      && b.netProfit == b.revenue - b.expenses
      && IsPercentOf(b.profitMargin, b.netProfit, b.revenue)
  {
    var credits := CreditMap(notes);
    var acc := Accumulated(window, k, invoices, expenses, payables, credits);
    var prev := if k == 0 then None else Some(BucketOf(window, k - 1, invoices, expenses, payables, credits));
    FinishedFigures(acc, prev, MonthlyMetricsOf(window, invoices, expenses, payables, notes)[k]);
  }

  /** The oldest bucket has no predecessor, so its four change fields keep
      the zero they were created with. */
  lemma FirstBucketChanges(window: seq<string>, invoices: seq<Invoice>, expenses: seq<Expense>,
                           payables: seq<PayableInvoice>, notes: seq<CreditNote>)
    requires |window| > 0
    ensures var b := MonthlyMetricsOf(window, invoices, expenses, payables, notes)[0];
      b.revenueChange == Some(0.0) && b.expensesChange == Some(0.0)
      && b.profitChange == Some(0.0) && b.marginChange == Some(0.0)
  {
  }

  /** Every later bucket compares itself with the finished bucket before it:
      revenue and expense growth relative to a positive previous value (else
      zero), profit change relative to the previous profit's magnitude (else
      zero), and the plain difference of margins. */
  lemma LaterBucketChanges(window: seq<string>, invoices: seq<Invoice>, expenses: seq<Expense>,
                           payables: seq<PayableInvoice>, notes: seq<CreditNote>, k: nat)
    requires 0 < k < |window|
    ensures var r := MonthlyMetricsOf(window, invoices, expenses, payables, notes);
      ChangesAgainst(r[k], r[k - 1])
  {
    var credits := CreditMap(notes);
    var r := MonthlyMetricsOf(window, invoices, expenses, payables, notes);
    FinishedChanges(Accumulated(window, k, invoices, expenses, payables, credits), r[k - 1], r[k]);
  }

  /** A one-month window with a paid 5000 invoice, a pending 2000 invoice and a
      paid 1000 expense: revenue 5000, expenses 1000, profit 4000, margin 80. */
  lemma PaidOnlyExample()
    ensures var inv1 := Invoice("i1", "Acme", "p1", "Site", 5000.0, "2024-05-02", FinancialStatus.Paid);
      var inv2 := Invoice("i2", "Acme", "p1", "Site", 2000.0, "2024-05-09", FinancialStatus.Pending);
      var e := Expense("e1", "Labour", "p1", 1000.0, "2024-05-20", ExpenseType.Variable, ExpenseStatus.Paid);
      var b := MonthlyMetricsOf(["2024-05"], [inv1, inv2], [e], [], [])[0];
      b.revenue == 5000.0 && b.expenses == 1000.0 && b.netProfit == 4000.0 && b.profitMargin == 80.0
  {
    var inv1 := Invoice("i1", "Acme", "p1", "Site", 5000.0, "2024-05-02", FinancialStatus.Paid);
    var inv2 := Invoice("i2", "Acme", "p1", "Site", 2000.0, "2024-05-09", FinancialStatus.Pending);
    var e := Expense("e1", "Labour", "p1", 1000.0, "2024-05-20", ExpenseType.Variable, ExpenseStatus.Paid);
    var w := ["2024-05"];
    assert MonthKey(inv1.date) == "2024-05";
    assert MonthKey(e.date) == "2024-05";
    assert FindMonth(w, "2024-05") == Some(0);
    assert [inv1, inv2][..1] == [inv1];
    assert [inv1][..0] == [];
    assert [e][..0] == [];
    assert RevenueIn(w, 0, [inv1], map[]) == 5000.0;
    assert RevenueIn(w, 0, [inv1, inv2], map[]) == 5000.0;
    assert OpExpensesIn(w, 0, [e]) == 1000.0;
    BucketFigures(w, [inv1, inv2], [e], [], [], 0);
  }
}
