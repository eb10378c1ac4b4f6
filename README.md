# Financial engine of a project-accounting app, in Dafny

This project models the calculation core of a small project-accounting web
application. The application records invoices, expenses, payable invoices
(bills owed to vendors) and credit notes per project. From these records it
derives the following:

- **Monthly aggregation** (`MonthlyAggregation`, `Credits`). A six-month
  series of cash-basis buckets. A bucket holds paid revenue net of applied
  credit notes and paid expenses plus paid payables, with derived profit,
  margin and month-over-month changes.
- **Project rollup** (`ProjectRollup`). One project's figures: expected and
  paid revenue after credits, operating expenses, payables split into paid
  and outstanding, cash and accrual profit, budget variance, and a monthly
  breakdown.
- **Local analytics** (`HealthAnalytics`). A 0–100 health score with a
  rating and three factors, early warnings, and a month-pair insight
  timeline.
- **Project-detail insights** (`ProjectInsights`) and the **what-if
  simulator** (`Scenario`).
- **Revenue breakdown table** (`RevenueBreakdown`). Rows with applied
  credit and net revenue, a status filter and search, a sort, column
  totals, and grouping with per-group sums and shares.
- **Entry forms.**
  - `TransactionForm`: the transaction dialog's default status, submit
    checks, payloads and handler choice.
  - `ProjectForm`: the project dialog's field rules and its cost-category
    list.
- **Gamification layer** (`Gamification`). Currency symbols, points, the
  one-time badge unlock, and the categorisation counter.

Shared pieces:

- `Ledger` holds the record types, with closed status sets as datatypes.
- `Text` holds the JavaScript string operations the components use.
- `Sorting` holds an in-place comparator sort on arrays.

Money is `real`. A date is its ISO `YYYY-MM-DD` string. An optional field is
an `Option`, and a JavaScript `x || 0` reads an absent value as zero. The
"current month" is not read from a clock: the month window is a parameter,
and `LastSixMonths` models how the code spells its keys.

The code creates every bucket of the monthly series with its four change
fields at 0. The derivation pass updates them only for the later buckets,
so the oldest bucket keeps its zeros; the dashboard labels that bucket
"First month - no comparison" (components/MetricCard.tsx:73).
`FirstBucketChanges` states this.

Each imperative routine is a `method` proved against a specification.
Most are proved equal to a specification function: the aggregation loops,
the credit dictionary, the submit handler, the warning and insight
builders, and the categorise handler. The two sorts, of the rows and of
the groups, are proved sorted and a permutation of their input. Form
validation is proved to record an error exactly for the violated rules.
The properties the source promises are proved as lemmas about these
specifications.

## Model

| member | source | states |
|---|---|---|
| Ledger.OrZero | services/geminiService.ts:36 | An absent optional number reads as 0; a present one as itself. |
| Ledger.PercentMeaning | utils/financialCalculations.ts:76 | `whole > 0 ? part/whole*100 : 0` is `part` in percent of a positive `whole` (pct·whole = part·100), 0 otherwise; same sign as `part`; within [0,100] when 0 ≤ part ≤ whole. |
| Ledger.ChangePercentMeaning | utils/financialCalculations.ts:83 | The profit change is the difference in percent of the previous value's magnitude (0 when it is 0), positive exactly when profit rose and negative exactly when it fell. |
| Ledger.MonthKey | utils/financialCalculations.ts:40 | `substring(0, 7)` is a prefix of the date of length min(7, length). |
| Credits.CreditMapIsAppliedSum | utils/financialCalculations.ts:30-35 | The credit dictionary holds, for every invoice, exactly the sum of the applied credit notes naming it; other notes are ignored. |
| Credits.CreditMapKeys | utils/financialCalculations.ts:31-34 | An invoice id is a key of the dictionary iff some applied note with a non-empty invoice id names it. |
| Credits.AppliedCreditNonNegative | utils/financialCalculations.ts:30-35 | With non-negative note amounts no invoice is credited a negative sum. |
| Credits.BuildCreditMap | utils/financialCalculations.ts:30-35 | The loop builds the dictionary of the reference fold, and every lookup (missing key as 0) equals the applied credit total. |
| Credits.NetRevenue | utils/financialCalculations.ts:43-44 | An invoice's revenue after credits is never negative, is either 0 or amount − credit, at least amount − credit, and at most the amount when both are non-negative. |
| MonthlyAggregation.Pad2 | utils/financialCalculations.ts:15 | `padStart(2, '0')` of a number below 100 has two characters. |
| MonthlyAggregation.LastSixMonths | utils/financialCalculations.ts:13-15 | The window has six keys, the last being the current month. |
| MonthlyAggregation.Pad2Injective | utils/financialCalculations.ts:15 | Different month numbers get different two-digit spellings. |
| MonthlyAggregation.KeyOfEndsWithMonth | utils/financialCalculations.ts:15 | A key ends with the padded month number. |
| MonthlyAggregation.KeysOfDifferentMonths | utils/financialCalculations.ts:15 | Keys of different calendar months differ. |
| MonthlyAggregation.LastSixMonthsDistinct | utils/financialCalculations.ts:13-27 | The six window keys are pairwise distinct (a year boundary inside the window included). |
| MonthlyAggregation.FindMonth | utils/financialCalculations.ts:41 | `months.find` returns the first bucket with that key, and none exactly when the key is not in the window. |
| MonthlyAggregation.FinishedFigures | utils/financialCalculations.ts:74-76 | A finished bucket keeps month, revenue and expenses, has profit = revenue − expenses and margin = profit in percent of revenue (0 without revenue). |
| MonthlyAggregation.FinishedChanges | utils/financialCalculations.ts:79-85 | Against its predecessor a bucket's revenue and expense changes are growth over a positive previous value (else 0), profit change is relative to the previous profit's magnitude, margin change the plain difference. |
| MonthlyAggregation.MonthlyMetricsOf | utils/financialCalculations.ts:3-89 | One bucket per window key, in window order. |
| MonthlyAggregation.CalculateMonthlyMetrics | utils/financialCalculations.ts:3-89 | The imperative aggregator (buckets, credit dictionary, three accumulation loops, derivation loop) returns exactly the reference series. |
| MonthlyAggregation.AddPaidInvoices | utils/financialCalculations.ts:38-47 | After the invoice loop every bucket holds the net revenue of the paid invoices of its month. |
| MonthlyAggregation.AddPaidExpenses | utils/financialCalculations.ts:49-57 | After the expense loop every bucket also holds its month's paid expenses. |
| MonthlyAggregation.AddPaidPayables | utils/financialCalculations.ts:61-69 | After the payable loop every bucket also holds its month's paid payables in the same `expenses` figure. |
| MonthlyAggregation.FinishBuckets | utils/financialCalculations.ts:74-86 | The in-place derivation pass, reading the already finished predecessor, yields the reference buckets. |
| MonthlyAggregation.RevenueInNonNegative | utils/financialCalculations.ts:44 | A bucket's revenue is a sum of clamped amounts, never negative. |
| MonthlyAggregation.BucketRevenueNonNegative | utils/financialCalculations.ts:37-47 | Bucket revenue is never negative, even when credits exceed an invoice. |
| MonthlyAggregation.AppendInvoice | utils/financialCalculations.ts:38-47 | A paid invoice adds its net revenue to the first bucket of its month and to no other; an unpaid or out-of-window invoice adds nothing. |
| MonthlyAggregation.AppendExpenseAndPayable | utils/financialCalculations.ts:49-69 | A paid expense and a paid payable both add to the single `expenses` figure of their month. |
| MonthlyAggregation.IgnoredInvoiceChangesNothing | utils/financialCalculations.ts:38-47 | An unpaid invoice, or one whose month is outside the window, leaves the whole series unchanged. |
| MonthlyAggregation.AppendExpense | utils/financialCalculations.ts:49-57 | A paid expense adds its amount to the expense-side sum of the first bucket of its month and to no other; an unpaid or out-of-window expense adds nothing. |
| MonthlyAggregation.AppendPayable | utils/financialCalculations.ts:61-69 | A paid payable adds its amount to the payable-side sum of the first bucket of its month (both sums make up the bucket's expenses) and to no other; an unpaid or out-of-window payable adds nothing. |
| MonthlyAggregation.IgnoredExpenseChangesNothing | utils/financialCalculations.ts:49-57 | An unpaid expense, or one whose month is outside the window, leaves the whole series unchanged. |
| MonthlyAggregation.IgnoredPayableChangesNothing | utils/financialCalculations.ts:61-69 | An unpaid payable, or one whose month is outside the window, leaves the whole series unchanged. |
| MonthlyAggregation.SixMonthSeries | utils/financialCalculations.ts:9-27 | The default window gives six buckets with distinct months, oldest first, ending with the current month. |
| MonthlyAggregation.BucketFigures | utils/financialCalculations.ts:37-76 | Every bucket holds paid net revenue and paid expenses plus paid payables of its month, profit is their difference and margin is profit in percent of revenue (0 without revenue). |
| MonthlyAggregation.FirstBucketChanges | utils/financialCalculations.ts:16-26 | The oldest bucket keeps all four change fields at 0. |
| MonthlyAggregation.LaterBucketChanges | utils/financialCalculations.ts:79-85 | Every later bucket's changes are computed against the finished bucket before it. |
| MonthlyAggregation.PaidOnlyExample | server_legacy/verify_logic.js:72-97 | A paid 5000 invoice, a pending 2000 invoice and a paid 1000 expense give revenue 5000, expenses 1000, profit 4000, margin 80. |
| ProjectRollup.InvoicesOf | utils/financialCalculations.ts:99 | The project filter keeps only records of the project, drawn from the input. |
| ProjectRollup.ExpensesOf | utils/financialCalculations.ts:100 | The project filter keeps only expenses of the project. |
| ProjectRollup.PayablesOf | utils/financialCalculations.ts:101 | The project filter keeps only payables tagged with the project; an untagged payable never matches. |
| ProjectRollup.CreditsOf | utils/financialCalculations.ts:102 | Only applied credit notes of the project are kept. |
| ProjectRollup.InvoicesOfComplete | utils/financialCalculations.ts:99 | An invoice is kept iff it is listed and belongs to the project. |
| ProjectRollup.ExpensesOfComplete | utils/financialCalculations.ts:100 | An expense is kept iff it is listed and belongs to the project. |
| ProjectRollup.PayablesOfComplete | utils/financialCalculations.ts:101 | A payable is kept iff it is listed and tagged with the project. |
| ProjectRollup.CreditsOfComplete | utils/financialCalculations.ts:102 | A credit note is kept iff it is listed, tagged with the project and applied. |
| ProjectRollup.InvoicesOfAppend | utils/financialCalculations.ts:99 | Filtering a concatenation is concatenating the filtered parts: order and multiplicity are kept. |
| ProjectRollup.ExpensesOfAppend | utils/financialCalculations.ts:100 | The expense filter distributes over concatenation, keeping order and multiplicity. |
| ProjectRollup.PayablesOfAppend | utils/financialCalculations.ts:101 | The payable filter distributes over concatenation, keeping order and multiplicity. |
| ProjectRollup.CreditsOfAppend | utils/financialCalculations.ts:102 | The credit-note filter distributes over concatenation, keeping order and multiplicity. |
| ProjectRollup.CalculateProjectFinancials | utils/financialCalculations.ts:91-222 | The rollup with its loop-built credit dictionary and monthly aggregation equals the reference rollup. |
| ProjectRollup.InvoiceTotalMonotone | utils/financialCalculations.ts:115-128 | Widening the status filter never lowers a revenue total (net revenues are clamped at 0). |
| ProjectRollup.ExpenseTotalMonotone | utils/financialCalculations.ts:133-140 | With non-negative amounts, widening the status filter never lowers an expense total. |
| ProjectRollup.PayableTotalSplit | utils/financialCalculations.ts:145-157 | Payable totals over disjoint status sets add up to the total over their union. |
| ProjectRollup.RollupBounds | utils/financialCalculations.ts:115-157 | 0 ≤ paid revenue ≤ expected revenue, and paid plus outstanding payables make up total payables. |
| ProjectRollup.EmptyInvoiceTotal | utils/financialCalculations.ts:115-128 | A total over no status is 0. |
| ProjectRollup.PaidExpensesBounded | utils/financialCalculations.ts:133-140 | With non-negative amounts, paid operating expenses never exceed total operating expenses. |
| ProjectRollup.RollupIdentities | utils/financialCalculations.ts:159-183 | Cash profit = paid revenue − (paid opex + paid payables); that outflow is the budget's actual; variance = budget − actual; margin and variance percent are percentages with a zero fallback; projected and accrual figures use everything not cancelled. |
| ProjectRollup.BreakdownIsScopedAggregation | utils/financialCalculations.ts:186 | The breakdown is the monthly aggregation of the project's own records and applied credits, and of the whole ledger when everything belongs to the project. |
| ProjectRollup.InvoicesOfSkips | utils/financialCalculations.ts:99 | An invoice of another project, at any position, leaves the filtered list unchanged. |
| ProjectRollup.ExpensesOfSkips | utils/financialCalculations.ts:100 | An expense of another project, at any position, leaves the filtered list unchanged. |
| ProjectRollup.PayablesOfSkips | utils/financialCalculations.ts:101 | A payable not tagged with the project, at any position, leaves the filtered list unchanged. |
| ProjectRollup.CreditsOfSkips | utils/financialCalculations.ts:102 | A note that is not an applied credit of the project, at any position, leaves the filtered list unchanged. |
| ProjectRollup.InvoicesAround | utils/financialCalculations.ts:99 | An invoice of the project listed between `a` and `b` is kept, in place, between their kept invoices. |
| ProjectRollup.ForeignInvoiceChangesNothing | utils/financialCalculations.ts:99 | An invoice of another project, at any position of the list, changes no figure of the rollup. |
| ProjectRollup.ForeignExpenseChangesNothing | utils/financialCalculations.ts:100 | An expense of another project, at any position, changes no figure of the rollup. |
| ProjectRollup.ForeignPayableChangesNothing | utils/financialCalculations.ts:101 | A payable of another project or of none, at any position, changes no figure of the rollup. |
| ProjectRollup.ForeignCreditChangesNothing | utils/financialCalculations.ts:102 | A credit note that is not an applied credit of the project, at any position, changes no figure of the rollup. |
| ProjectRollup.InvoiceTotalAround | utils/financialCalculations.ts:115-128 | A revenue total over `a + [inv] + b` is the totals of `a` and `b` plus that invoice's net revenue when its status is counted. |
| ProjectRollup.MarkInvoicePaid | utils/financialCalculations.ts:115-128 | Marking a sent invoice of the project paid, wherever it is listed, adds its net revenue to paid revenue and cash profit and leaves expected revenue unchanged. |
| ProjectRollup.RollupExample | server_legacy/verify_logic.js:72-97 | The worked example: paid revenue 5000, expected 7000, profit 4000, margin 80, variance 9000 (90 percent). |
| HealthAnalytics.Round | services/geminiService.ts:42 | `Math.round` is the integer within half of its argument. |
| HealthAnalytics.Clamp100 | services/geminiService.ts:24 | The clamp lies in [0,100] and leaves values already in range alone. |
| HealthAnalytics.MarginScore | services/geminiService.ts:24 | The margin factor is in [0,40], full from a 30 percent margin up and 0 at a margin ≤ 0. |
| HealthAnalytics.CostScore | services/geminiService.ts:27-30 | The cost factor is in [0,30]. |
| HealthAnalytics.LastThree | services/geminiService.ts:35 | `slice(-3)` is the suffix of min(3, n) months. |
| HealthAnalytics.TrendScore | services/geminiService.ts:33-40 | The trend factor is in [0,30], and a neutral 15 with fewer than two months. |
| HealthAnalytics.CalculateHealthScore | services/geminiService.ts:20-60 | The score is an integer in [0,100] for every input, the rating is the band of the score, and each reported factor is in [0,100]. |
| HealthAnalytics.RatingMonotone | services/geminiService.ts:44-49 | A higher score never gets a worse rating. |
| HealthAnalytics.CostScoreShape | services/geminiService.ts:27-30 | Within budget the cost factor is the full 30; over budget it is 30 + 0.3·variancePercent, and 0 from 100 percent over on. |
| HealthAnalytics.CostScoreMonotone | services/geminiService.ts:27-30 | Spending less never lowers the cost factor. |
| HealthAnalytics.TrendScoreUsesRecentMean | services/geminiService.ts:34-37 | With two months or more the trend factor is the clamped 50 + 2·mean of the last up-to-three profit changes (missing as 0), times 0.3. |
| HealthAnalytics.FallingMonths | services/geminiService.ts:106 | The count of falling months is at most the number of months. |
| HealthAnalytics.GenerateEarlyWarnings | services/geminiService.ts:63-119 | The four checks push exactly the warnings of the reference list. |
| HealthAnalytics.WarningsIffConditions | services/geminiService.ts:67-116 | Each warning kind appears iff its condition holds: margin drop below −5 over the last two months, negative variance, negative profit, ≥2 falling months among the last three. |
| HealthAnalytics.WarningSeverities | services/geminiService.ts:73-111 | Erosion and loss are high, falling trend medium, overrun high above 20, medium above 10, else low; an erosion warning shows the size of the last margin change, an overrun warning the size of the variance percentage, the other two no figure. |
| HealthAnalytics.WarningsOrdered | services/geminiService.ts:63-119 | Warnings come in check order, each kind at most once, at most four. |
| HealthAnalytics.Classify | services/geminiService.ts:140-154 | Each of the five templates is chosen iff its condition: stable under 5 percent either way; growth revenue-driven iff revenue outgrew expenses; decline cost-driven iff expenses outgrew revenue. |
| HealthAnalytics.GenerateAutoInsights | services/geminiService.ts:127-169 | n−1 insights (none for n ≤ 1); insight i pairs month i+1 with month i, copies its change fields (missing as 0) and is classified from them. |
| Scenario.CalculateScenario | components/ScenarioSimulator.tsx:23-37 | The current profit and margin pass through and the change is projected minus current profit. |
| Scenario.ScenarioFigures | components/ScenarioSimulator.tsx:24-33 | Projected profit = revenue·(1+pricing/100) − expenses·(1+cost/100); new margin is that in percent of adjusted revenue (0 when not positive); change percent is relative to the current profit's magnitude. |
| Scenario.NoAdjustmentNoChange | components/ScenarioSimulator.tsx:20-37 | With both sliders at 0 and profit = revenue − expenses, the scenario reproduces the profit with no change. |
| Scenario.PricingMonotone | components/ScenarioSimulator.tsx:24-26 | With non-negative revenue a higher price adjustment never lowers projected profit. |
| Scenario.CostMonotone | components/ScenarioSimulator.tsx:25-26 | With non-negative expenses a higher cost adjustment never raises projected profit. |
| Scenario.AdjustedMonotone | components/ScenarioSimulator.tsx:24-25 | Scaling a non-negative amount by a larger percentage never gives less. |
| Scenario.SimulatorOnRollup | components/Projects.tsx:562-568 | Fed from the rollup with sliders at 0, the simulator projects exactly the cash profit and margin. |
| ProjectInsights.GenerateInsights | components/ProjectDetailModal.tsx:43-71 | The chain of conditionals pushes exactly the reference insight list. |
| ProjectInsights.ProfitabilityRule | components/ProjectDetailModal.tsx:47-51 | High-profitability iff margin > 30, low margin iff margin < 10, none iff 10 ≤ margin ≤ 30. |
| ProjectInsights.BudgetRule | components/ProjectDetailModal.tsx:54-58 | Over budget iff variance < 0; under budget iff variance ≥ 0 and variancePercent > 20. |
| ProjectInsights.TrendRule | components/ProjectDetailModal.tsx:61-68 | No trend insight under two months; decline iff the last change < −10, growth iff > 15. |
| ProjectInsights.InsightsShape | components/ProjectDetailModal.tsx:43-70 | At most three insights in the order profitability, budget, trend, each topic present iff its rule fires. |
| RevenueBreakdown.Rows | components/RevenueBreakdownModal.tsx:49-62 | One row per invoice, in invoice order. |
| RevenueBreakdown.RowFigures | components/RevenueBreakdownModal.tsx:36-62 | A row's applied credit is the applied-notes total for its invoice; net is max(amount − credit, 0) when paid and 0 otherwise, never negative, at most the amount; the client column is never empty and shows the client name when there is one. |
| RevenueBreakdown.VisibleRows | components/RevenueBreakdownModal.tsx:64-75 | A row is kept iff it passes the status filter and, for a non-blank query, the lower-cased query occurs in its lower-cased id, project or client. |
| RevenueBreakdown.FilterExact | components/RevenueBreakdownModal.tsx:64-75 | A status filter keeps only that status; a blank query leaves the status filter alone in charge; 'all' with a blank query keeps every row in order. |
| RevenueBreakdown.InOrderTotal | components/RevenueBreakdownModal.tsx:77-86 | The comparator places any two rows one way or the other. |
| RevenueBreakdown.InOrderTransitive | components/RevenueBreakdownModal.tsx:77-86 | The comparator's order is transitive for every key and direction. |
| RevenueBreakdown.OrderedMeaning | components/RevenueBreakdownModal.tsx:77-86 | In sorted rows every earlier row precedes every later one by amount, date or status name, ascending or descending. |
| RevenueBreakdown.BaseRows | components/RevenueBreakdownModal.tsx:36-87 | The table holds exactly the visible rows, each as often as it occurs, sorted by the chosen key and direction. |
| RevenueBreakdown.SumOfAppend | components/RevenueBreakdownModal.tsx:91-94 | A column sum over concatenated rows is the sum of the parts. |
| RevenueBreakdown.SumOfPermutation | components/RevenueBreakdownModal.tsx:91-94 | A column sum does not depend on row order. |
| RevenueBreakdown.TotalsIgnoreOrder | components/RevenueBreakdownModal.tsx:89-96 | The three totals are the same for any order of the same rows. |
| RevenueBreakdown.NetTotalAgainstNetRevenue | components/RevenueBreakdownModal.tsx:93-94 | The "net" total equals the sum of net revenues when every row is paid, and is at least that sum when unpaid amounts are non-negative (unpaid rows count at full amount). |
| RevenueBreakdown.RowsWithKey | components/RevenueBreakdownModal.tsx:104-114 | The rows of a group are exactly the rows with that key. |
| RevenueBreakdown.PushShape | components/RevenueBreakdownModal.tsx:112-113 | A push extends an existing key's list or appends a new key with a one-row list. |
| RevenueBreakdown.BucketedKeys | components/RevenueBreakdownModal.tsx:102-114 | The dictionary has one entry per distinct key among the rows, each listed once in order of first appearance. |
| RevenueBreakdown.BucketedItems | components/RevenueBreakdownModal.tsx:102-114 | Each entry lists exactly the rows with its key, in row order. |
| RevenueBreakdown.BucketedCoversRows | components/RevenueBreakdownModal.tsx:102-114 | The entries laid end to end are a permutation of the rows. |
| RevenueBreakdown.Entries | components/RevenueBreakdownModal.tsx:117-132 | One group per key in insertion order, built from that key's rows. |
| RevenueBreakdown.EntriesSum | components/RevenueBreakdownModal.tsx:118-120 | Summing a measure over groups equals summing it over all their rows. |
| RevenueBreakdown.GroupsPartitionRows | components/RevenueBreakdownModal.tsx:99-132 | Group keys are distinct, every row's key has a group, and each group holds exactly its key's rows and is non-empty. |
| RevenueBreakdown.GroupSumsAddUp | components/RevenueBreakdownModal.tsx:117-132 | Each group's percent is its net in percent of the net total (0 when that total is not positive); group nets, amounts and credits add up to the row sums. |
| RevenueBreakdown.GroupRows | components/RevenueBreakdownModal.tsx:99-137 | No grouping gives null; otherwise a permutation of the group list sorted by net revenue, largest first. |
| RevenueBreakdown.BreakdownTable | components/RevenueBreakdownModal.tsx:77-137 | The table's rows are the visible rows sorted, its totals are the visible rows' totals, and every group's percent is its net in percent of that same net total (0 when it is not positive). |
| RevenueBreakdown.Toggle | components/RevenueBreakdownModal.tsx:24-32 | Toggling flips membership of that key only. |
| RevenueBreakdown.ToggleTwice | components/RevenueBreakdownModal.tsx:24-32 | Toggling a key twice restores the expanded set. |
| Sorting.SortedAllPairs | components/RevenueBreakdownModal.tsx:77-86 | Neighbour-wise sorted under a transitive order means every earlier element precedes every later one. |
| Sorting.InsertionSort | components/RevenueBreakdownModal.tsx:77-86 | The in-place sort leaves the array sorted under the comparator and a permutation of its contents. |
| Sorting.Insert | components/RevenueBreakdownModal.tsx:135 | One insertion pass extends the sorted prefix by one element, keeping the contents. |
| Sorting.Swap | components/RevenueBreakdownModal.tsx:135 | A swap exchanges two neighbours and keeps the contents. |
| Text.TrimStart | components/RevenueBreakdownModal.tsx:68 | The result is a suffix of the input, starting with no whitespace, after only whitespace. |
| Text.TrimEnd | components/RevenueBreakdownModal.tsx:68 | The result is a prefix of the input, ending with no whitespace, before only whitespace. |
| Text.TrimIsCore | components/AddProjectModal.tsx:123 | `trim` returns the slice between leading and trailing whitespace, neither starting nor ending with whitespace. |
| Text.TrimEmptyIffBlank | components/RevenueBreakdownModal.tsx:68 | A string trims to nothing iff it is all whitespace. |
| Text.Lower | components/RevenueBreakdownModal.tsx:69-73 | `toLowerCase` maps each character, keeping the length. |
| Text.Upper | components/RevenueBreakdownModal.tsx:110 | `toUpperCase` maps each character, keeping the length. |
| Text.LowerIdempotent | components/RevenueBreakdownModal.tsx:69-73 | Lower-casing twice is lower-casing once, and no capital remains. |
| Text.Contains | components/RevenueBreakdownModal.tsx:71-73 | `includes` holds iff the substring occurs at some position. |
| Text.Compare | components/AddProjectModal.tsx:71 | String comparison gives −1, 0 or 1. |
| Text.CompareAntisymmetric | components/RevenueBreakdownModal.tsx:85 | Swapping the arguments flips the sign, and only equal strings compare as 0. |
| Text.CompareTransitive | components/RevenueBreakdownModal.tsx:85 | The string order is transitive. |
| TransactionForm.DefaultStatusesAreRecordStatuses | components/CreateTransactionModal.tsx:69-77 | The invoice, expense and payable defaults are statuses of those records; the credit-note default "draft" is no credit-note status at all. |
| TransactionForm.FindInvoice | components/CreateTransactionModal.tsx:136 | `find` returns an invoice with the id from the list, and none only when no invoice has it. |
| TransactionForm.HandleSubmit | components/CreateTransactionModal.tsx:81-164 | The handler with its early returns gives exactly the reference outcome. |
| TransactionForm.AmountCheckedFirst | components/CreateTransactionModal.tsx:85-88 | The amount error arises iff the amount is not positive, whatever the type. |
| TransactionForm.CreditNoteChecksInOrder | components/CreateTransactionModal.tsx:122-141 | A credit note reports a missing project first, then a missing invoice, then an amount above the selected invoice's total; it is accepted iff none applies; other types skip these checks. |
| TransactionForm.AcceptedCreditNoteFitsInvoice | components/CreateTransactionModal.tsx:135-141 | An accepted credit note is positive, names a project and an invoice, and does not exceed the first invoice with that id. |
| TransactionForm.FindFirst | components/CreateTransactionModal.tsx:136 | `find` returns the first invoice with the id. |
| TransactionForm.PayloadContents | components/CreateTransactionModal.tsx:93-150 | Every payload carries amount, date and status; an invoice a non-empty client id, the form's own when it has one; an expense its type; a payable its due date; a credit note exactly its six fields with an empty status becoming "applied". |
| TransactionForm.HandlerChoice | components/CreateTransactionModal.tsx:153-157 | The update handler gets the edited id iff editing with an update handler; otherwise the submit handler is called. |
| TransactionForm.FreshCreditNoteIsDraft | components/CreateTransactionModal.tsx:61-74 | A fresh credit-note form is submitted as "draft", never "applied": the fallback at line 146 does not fire for it. |
| TransactionForm.OverCreditingPassesTheForm | components/CreateTransactionModal.tsx:135-141 | Two 60 notes against a paid 100 invoice both pass the per-note check; together they credit 120 and the engine clamps the net revenue at 0. |
| ProjectForm.ValidateForm | components/AddProjectModal.tsx:53-80 | An error is recorded for a field iff its rule is violated, with that rule's message; the form is valid iff no error was recorded iff no rule is violated. |
| ProjectForm.Check | components/AddProjectModal.tsx:56-76 | One rule records its message exactly when violated, keeping the errors of the rules checked before. |
| ProjectForm.EndDateRule | components/AddProjectModal.tsx:71-73 | An end date error needs both dates present; an end on or after the start passes. |
| ProjectForm.AddCategory | components/AddProjectModal.tsx:122-131 | The trimmed entry is appended iff it is non-blank and not yet listed, else the list is unchanged; the list stays duplicate-free. |
| ProjectForm.RemoveCategory | components/AddProjectModal.tsx:133-138 | The result holds exactly the other categories and is no longer than the input. |
| ProjectForm.RemoveCategoryAppend | components/AddProjectModal.tsx:136 | Removal distributes over concatenation, so the kept values stay in order and keep their multiplicity, duplicates included. |
| ProjectForm.RemoveCutsOut | components/AddProjectModal.tsx:133-138 | In a duplicate-free list, removing a listed category cuts out exactly its position. |
| ProjectForm.RemoveAbsent | components/AddProjectModal.tsx:136 | Removing an unlisted category changes nothing. |
| ProjectForm.AddThenRemove | components/AddProjectModal.tsx:122-138 | Removing a category just added restores the list. |
| Gamification.CurrencySymbol | App.tsx:245-252 | The symbol is one of €, £, QR, $, and $ exactly for codes other than EUR, GBP and QAR. |
| Gamification.CurrencySymbolDistinguishes | App.tsx:245-252 | The recognised currencies get pairwise different symbols, and none of them gets $. |
| Gamification.AddPoints | App.tsx:254-258 | Points rise by exactly the amount; level, badges, next-level points and streaks are unchanged. |
| Gamification.AddPointsAccumulates | App.tsx:254-258 | Two awards equal one award of their sum, and an award is undone by its negation. |
| Gamification.FindBadge | App.tsx:287 | `find` returns a listed badge with the id, and none only when no badge has it. |
| Gamification.UnlockAll | App.tsx:290 | Every badge with the id is unlocked and every other badge is kept. |
| Gamification.UnlockNoOp | App.tsx:287-288 | An unknown or already unlocked badge leaves the progress unchanged. |
| Gamification.FirstUnlock | App.tsx:290-303 | A first unlock sets only the `unlocked` flag of the badges with that id, adds exactly 500 points, and keeps the other fields. |
| Gamification.UnlockIdempotent | App.tsx:285-309 | Unlocking twice is unlocking once: the bonus is paid once. |
| Gamification.CategorizerFromStart | App.tsx:24-33 | From the initial progress, unlocking b2 pays 500 and unlocks b2 but not b1. |
| Gamification.Tracker.CategorizeExpense | App.tsx:268-276 | Categorising adds 75 points, increments the counter, and schedules the unlock exactly when the counter becomes 50. |
| Gamification.Tracker.Unlock | App.tsx:285-309 | The scheduled unlock applies the badge updater to the progress and leaves the counter alone. |

## Left out

- Persistence, authentication and the network: loading and saving records, the AI clients and their async wrappers, and tenant lookups. Submit handlers are modelled up to the payload they pass on; their promises, loading flags, error catch path and closing of the dialog are left out.
- React plumbing: `useState`/`useMemo`/`useEffect` and `setTimeout`. This includes the effect that expands every group when the grouping changes (components/RevenueBreakdownModal.tsx:140-144), the 100 ms delay before the scheduled unlock, the points pop-up and the badge banner timers.
- The clock: "today" and the current date that default form dates come from are parameters. `LastSixMonths` takes the year and month.
- Floating-point arithmetic: money and percentages are exact reals, so rounding error and infinities are not modelled. Points are integers.
- TransactionForm.HandleSubmit: the amount is the number the amount text parses to. Non-numeric text parses to NaN in JavaScript, and `NaN <= 0` is false, so the source would submit a NaN amount (components/CreateTransactionModal.tsx:85). The model has no NaN and does not capture this. Empty text parses to 0, which the amount check rejects like any other amount that is not positive.
- Message wording: the text of warnings and insights is left out, and so is the number formatting (`toFixed`). A warning carries its kind, its severity and the percentage its message shows (0 for the two kinds whose message shows none); an insight carries its template and the three changes. `TransactionForm` submit errors are datatype variants; `ProjectForm` error messages are kept as strings.
- Text: case mapping covers ASCII letters only. `localeCompare` on status names and `<` on strings are modelled as comparison code point by code point. JavaScript compares UTF-16 code units, so the two orders differ only between a character outside the Basic Multilingual Plane and one from U+E000 to U+FFFF (U+1F600 sorts before U+FF01 in JavaScript and after it in the model); names mixing such characters can sort differently from the source, ISO dates never do. Date strings are compared as ISO strings instead of parsed with `Date`; for well-formed `YYYY-MM-DD` dates both orders agree.
- `Object.entries` lists integer-like keys first in JavaScript. The model keeps plain insertion order.
- Plain-object dictionaries: in JavaScript a key such as `constructor` or `toString` finds an inherited member of the object. A group key of that name makes `groups[key].push` throw (components/RevenueBreakdownModal.tsx:112-113), and a credit-note invoice id of that name corrupts the credit sum (components/RevenueBreakdownModal.tsx:42, utils/financialCalculations.ts:30-35). The model's maps hold only the keys put into them, so these keys behave like any other.
- ProjectForm.ValidateForm: `name.length` counts UTF-16 code units, while the model counts characters. A name of two characters outside the Basic Multilingual Plane, such as two emoji, passes the length rule in the source (components/AddProjectModal.tsx:56) but fails it in the model.
- Sorting: the row and group sorts are proved sorted and a permutation of their input. Stability is not proved, so ties may be ordered differently than by the browser's sort.
- TransactionForm.HandleSubmit: the random `c-NNN` client id a fresh form starts with is an input field, because it comes from `Math.random`.
- ProjectForm.AddCategory: clearing the input box and the category error after an add are UI state and are left out.
- ProjectForm.ValidateForm: the `!formData.budget` / `!formData.expectedRevenue` tests are subsumed by `<= 0`, because a missing or NaN number is not modelled.
- Gamification: opening the edit dialog for the categorised expense (App.tsx:278-282) is UI navigation and is left out. `level` and `nextLevelPoints` are never changed by the modelled updaters.
- Presentation components (dashboard, workspace, widgets) and their display-only fallbacks are not part of this model.
