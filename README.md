# Personal finance tracker: client-side bookkeeping

This project models the logic of a personal-finance web application that
runs between the backend fetches and the screen:

- the transactions hook (`useTransactions`): the local transaction list,
  updated on add and delete, and three values derived from it for a
  reference date `now`:
  - the month summary with its four trends against the previous month;
  - the per-category breakdown of one month's income or expenses;
  - the six-month income/expense series;
- the goals hook (`useGoals`): the goal list and the per-goal contribution
  lists, updated by add, progress, delete and refresh;
- the goal card: the capped percentage, the completion test and the
  contribute handler;
- the goals page and the dashboard: totals, the overall percentage, the
  completion rate, the completed/in-progress split and the truncated lists;
- the transactions page and the dashboard page: the newest-first copy of
  the list and the case-insensitive search;
- the shared helpers: the category label table, the `formatNumber` suffix
  choice and the list of selectable categories;
- the transaction list: row limiting, row texts, and the deleting-id state;
- the header: the avatar initials from the full name or the e-mail.

Amounts are integer cents. `Math.round(a / b * 100)` is modelled exactly as
`Arith.Round(100 * a, b)`: the nearest integer, with halves rounded up.
Dates are (year, month 0..11, day). Their order is the calendar order at day
resolution (`Calendar.Ordinal`). The clock is a `now` parameter. Every
backend call is an input: the mutation's success, the id of the inserted
record, or the rows a query returned.

Modules follow the program:

- `TransactionsHook`: `src/hooks/useTransactions.tsx`;
- `GoalsHook`: `src/hooks/useGoals.tsx`;
- `GoalCard`: `src/components/GoalCard.tsx`;
- `GoalsPage`: `src/pages/Goals.tsx`;
- `Dashboard`: `src/components/Dashboard.tsx`;
- `TransactionsPage`: `src/pages/Transactions.tsx`;
- `DashboardPage`: `src/pages/Dashboard.tsx`;
- `Utils`: `src/lib/utils.tsx`;
- `TransactionList`: `src/components/TransactionList.tsx`;
- `Header`: `src/components/Header.tsx`.

The supporting modules are:

- `Types`: the records of `src/types/index.ts`;
- `Calendar`: the parts of JavaScript's `Date` that are used;
- `Arith`: `Math.round`, `Math.min` and `Math.abs`;
- `Seqs`: `filter`, summing `reduce` and `slice`;
- `Sorting`: the stable descending sort;
- `Text`: `toLowerCase`, `toUpperCase`, `includes`, `split`, `replace` and `substring`;
- `Wrappers`: `Option`.

The stateful parts are classes whose methods change their fields in place:

- `TransactionsHook.TransactionStore`
- `GoalsHook.GoalStore`
- `GoalCard.GoalCardState`
- `TransactionList.TransactionListState`
- `Header.HeaderState`

The category loop, the bucket creation, the `forEach` fill and the final
listing of `getMonthlyData` are methods with loops. Each is proved equal to a
specification function, and the properties are proved about that function.

## Model

| member | source | states |
|---|---|---|
| `TransactionsHook.NewTransaction` | src/hooks/useTransactions.tsx:109-116 | The appended record has the inserted id and the submitted amount, type, category and date. A missing description becomes "". |
| `TransactionsHook.TransactionStore.constructor` | src/hooks/useTransactions.tsx:25 | The local list starts empty. |
| `TransactionsHook.TransactionStore.AddTransaction` | src/hooks/useTransactions.tsx:70-137 | A record is returned and appended at the end exactly when the user is signed in and the insert succeeds. Otherwise the list is unchanged. |
| `TransactionsHook.TransactionStore.DeleteTransaction` | src/hooks/useTransactions.tsx:139-173 | It returns the mutation's outcome. On success the list becomes the records with another id. On failure it is unchanged. |
| `TransactionsHook.DeleteRemovesExactly` | src/hooks/useTransactions.tsx:152-154 | After a delete, a record is in the list iff it was there and has another id. The survivors keep their order, and exactly the records with that id are gone. |
| `TransactionsHook.SavingsRate` | src/hooks/useTransactions.tsx:207-209 | The rate is 0 without positive income. Otherwise it is within half a point of 100 * balance / income. |
| `TransactionsHook.GrowthTrend` | src/hooks/useTransactions.tsx:228-242 | With last month at 0 the trend is 100 if the current total is positive, else 0. Otherwise it is the percentage change relative to last month's total, rounded to the nearest integer, for either sign of that total. |
| `TransactionsHook.BalanceTrend` | src/hooks/useTransactions.tsx:244-253 | With a last balance of 0 the trend is 100, -100 or 0 by the sign of the current balance. Otherwise it is the rounded change relative to the absolute last balance. |
| `TransactionsHook.SavingsRateTrend` | src/hooks/useTransactions.tsx:255-260 | With a last rate of 0 the trend is 100 or 0. Otherwise it is the plain point difference, cur - prev. |
| `TransactionsHook.GetFinancialSummary` | src/hooks/useTransactions.tsx:175-274 | The totals are the current month's income and expenses, and the balance is their difference. The savings rate is 0 without positive income, and otherwise within half a point of 100 * balance / income. The four trends compare income, expenses, balance and savings rate with the same figures for the month before `now`'s. |
| `TransactionsHook.ComparisonMonth` | src/hooks/useTransactions.tsx:180-196 | The comparison month of January is December of the previous year; otherwise it is the previous month of the same year. No transaction falls in both months. |
| `TransactionsHook.SummaryCountsCurrentMonth` | src/hooks/useTransactions.tsx:184-205 | One more transaction adds its amount to the income (or expense) total exactly when it is of the current month and of that type. |
| `TransactionsHook.SavingsRateAtMostHundred` | src/hooks/useTransactions.tsx:203-209 | With no negative amounts the savings rate is at most 100. |
| `TransactionsHook.SavingsRateBound` | src/hooks/useTransactions.tsx:207-209 | A balance no larger than the income gives a rate of at most 100. |
| `TransactionsHook.GrowthTrendDirection` | src/hooks/useTransactions.tsx:228-242 | The income and expense trends have the sign of the change and are 0 for no change. From a non-negative total they never fall below -100. |
| `TransactionsHook.BalanceTrendDirection` | src/hooks/useTransactions.tsx:244-253 | The balance trend has the sign of the change in balance and is 0 for no change. |
| `TransactionsHook.MarchExample` | src/hooks/useTransactions.tsx:199-209 | 1000.00 of income and 300.00 of expenses give a balance of 700.00 and a savings rate of 70. |
| `TransactionsHook.IncomeTrendExample` | src/hooks/useTransactions.tsx:212-233 | 500.00 of income last month and 750.00 this month give an income trend of 50. |
| `TransactionsHook.CategoriesOf` | src/hooks/useTransactions.tsx:296-301 | The Map's keys, in insertion order, hold no category twice. |
| `TransactionsHook.CategoriesOfMembers` | src/hooks/useTransactions.tsx:296-301 | A category is a key iff some transaction has it. |
| `TransactionsHook.Share` | src/hooks/useTransactions.tsx:309 | An entry's percentage is 0 unless the total is positive. Otherwise it is within half a point of 100 * amount / total. |
| `TransactionsHook.Entries` | src/hooks/useTransactions.tsx:303-311 | One entry per key, in key order, each carrying its category total and share. |
| `TransactionsHook.CategoryTotalSnoc` | src/hooks/useTransactions.tsx:298-301 | One more transaction adds its amount to its own category's total only. |
| `TransactionsHook.RunningTotalsSnoc` | src/hooks/useTransactions.tsx:298-301 | One loop step sets the transaction's category to its old amount, or 0, plus the transaction's amount. |
| `TransactionsHook.RunningTotalsKeys` | src/hooks/useTransactions.tsx:296-301 | The Map's keys are exactly the categories met so far. |
| `TransactionsHook.RunningTotalsValues` | src/hooks/useTransactions.tsx:296-301 | Every Map value is the sum of its category's amounts. |
| `TransactionsHook.RunningTotalsValue` | src/hooks/useTransactions.tsx:296-301 | The same fact for one category, proved by induction over the loop. |
| `TransactionsHook.CategoriesOfSnoc` | src/hooks/useTransactions.tsx:298-301 | A category not yet met is appended to the key order, and a known one leaves it unchanged. |
| `TransactionsHook.CategoryTotalAbsent` | src/hooks/useTransactions.tsx:299 | A category that no transaction has totals 0, the `|| 0` default. |
| `TransactionsHook.TotalsByCategory` | src/hooks/useTransactions.tsx:296-301 | The loop builds the key order and the Map of running totals. |
| `TransactionsHook.PushEntries` | src/hooks/useTransactions.tsx:303-311 | The push loop produces one entry per key, in key order, with its total and share. |
| `TransactionsHook.GetCategoryData` | src/hooks/useTransactions.tsx:276-314 | The method returns the sorted entries of the specification `CategoryBreakdown`. |
| `TransactionsHook.BreakdownEntries` | src/hooks/useTransactions.tsx:282-313 | The breakdown is sorted by non-increasing amount. It has one entry per category of the current month's transactions of the requested type, each with that category's total and its share of the overall total. |
| `TransactionsHook.CategorySet` | src/hooks/useTransactions.tsx:296-301 | The set of keys is the set of categories of the transactions. |
| `TransactionsHook.EntriesFacts` | src/hooks/useTransactions.tsx:303-311 | Entries of distinct keys are distinct, and an entry is present iff its category is a key and it carries that key's values. |
| `TransactionsHook.PermutedEntries` | src/hooks/useTransactions.tsx:313 | After the sort, every entry is still determined by its category, with one entry per key. |
| `TransactionsHook.EntriesSum` | src/hooks/useTransactions.tsx:303-311 | The entry amounts add up to the sum of the per-key totals. |
| `TransactionsHook.GroupSumSnoc` | src/hooks/useTransactions.tsx:298-301 | One more transaction adds its amount to the per-key sum exactly when its category is a key. |
| `TransactionsHook.CategoryTotalsSum` | src/hooks/useTransactions.tsx:291-301 | The per-category totals add up to the plain total. |
| `TransactionsHook.BreakdownTotals` | src/hooks/useTransactions.tsx:282-305 | The entry amounts add up to the filtered total. The breakdown is empty iff no transaction of the type falls in the current month. |
| `TransactionsHook.ShareSum` | src/hooks/useTransactions.tsx:309 | The rounding bounds of the individual shares add up. |
| `TransactionsHook.PercentSumBounds` | src/hooks/useTransactions.tsx:309 | Summed bounds over n entries pin twice the percentage sum to 200 +- n. |
| `TransactionsHook.SharesOfWhole` | src/hooks/useTransactions.tsx:309 | Shares of a total that the amounts add up to sum to 100, within half a point per entry. |
| `TransactionsHook.PositiveTotalPercentages` | src/hooks/useTransactions.tsx:291-313 | With a positive total, the percentages of the breakdown sum to 100, within half a point per entry. |
| `TransactionsHook.BreakdownPercentages` | src/hooks/useTransactions.tsx:309-313 | The same bound for a positive total; with a total of 0 or less, every percentage is 0. |
| `TransactionsHook.BreakdownExample` | src/hooks/useTransactions.tsx:276-314 | Food 60.00 and housing 40.00 give [food 60.00 at 60%, housing 40.00 at 40%]. |
| `TransactionsHook.ExampleAllCurrent` | src/hooks/useTransactions.tsx:282-289 | Both example transactions pass the month-and-type filter. |
| `TransactionsHook.ExampleSorted` | src/hooks/useTransactions.tsx:313 | The sort puts the larger amount first. |
| `TransactionsHook.BreakdownExampleEntries` | src/hooks/useTransactions.tsx:296-311 | Before the sort the entries are housing then food, in Map order. |
| `TransactionsHook.ExampleCategoriesAndTotal` | src/hooks/useTransactions.tsx:291-301 | The example's keys are [housing, food] and its total is 100.00. |
| `TransactionsHook.ExampleEntry` | src/hooks/useTransactions.tsx:306-310 | Each example entry has its amount and rounded percentage. |
| `TransactionsHook.BucketLabels` | src/hooks/useTransactions.tsx:323-327 | The record gets six keys. |
| `TransactionsHook.Point` | src/hooks/useTransactions.tsx:351-355 | A point keeps its name, and its totals are the bucket's cents rounded to whole units. |
| `TransactionsHook.MonthlySeries` | src/hooks/useTransactions.tsx:316-356 | The series always has six points. |
| `TransactionsHook.FillRule` | src/hooks/useTransactions.tsx:330-348 | One more transaction changes a bucket only when it is on or after the cutoff and has that bucket's label. Income goes to `income` and any other type to `expenses`. |
| `TransactionsHook.BucketMonth` | src/hooks/useTransactions.tsx:323-324 | Bucket k stands for the month 5 - k months before `now`'s month, wrapping across years. The last bucket is `now`'s month. |
| `TransactionsHook.BucketLabelsDistinct` | src/hooks/useTransactions.tsx:323-327 | The six labels are pairwise different. |
| `TransactionsHook.BucketLabelMonths` | src/hooks/useTransactions.tsx:323-327 | Label k is the name of month (now.month + k + 7) mod 12, and the last label is `now`'s month. |
| `TransactionsHook.MonthlySeriesShape` | src/hooks/useTransactions.tsx:323-355 | The series has six points, oldest first, ending with `now`'s month, and no name appears twice. |
| `TransactionsHook.InitBuckets` | src/hooks/useTransactions.tsx:323-327 | The creation loop makes the six labels the keys, in order, with every bucket at zero. |
| `TransactionsHook.FilledSnoc` | src/hooks/useTransactions.tsx:330-348 | The fill over a list and one more transaction is one more fill step. |
| `TransactionsHook.FilledTotals` | src/hooks/useTransactions.tsx:330-348 | From zeroed buckets, the fill keeps the keys and leaves each bucket with its label's totals. |
| `TransactionsHook.FillOneTotals` | src/hooks/useTransactions.tsx:331-347 | One fill step keeps the keys and moves every bucket from the totals of the shorter list to those of the longer one. |
| `TransactionsHook.FillBuckets` | src/hooks/useTransactions.tsx:330-348 | The `forEach` loop computes the specification fill. |
| `TransactionsHook.FillTransaction` | src/hooks/useTransactions.tsx:331-347 | The callback adds a transaction on or after the cutoff to the bucket of its label, if that label is a key. |
| `TransactionsHook.ListBuckets` | src/hooks/useTransactions.tsx:351-355 | The final map lists the buckets in key order with rounded totals. |
| `TransactionsHook.GetMonthlyData` | src/hooks/useTransactions.tsx:316-356 | The method returns the specification series. |
| `TransactionsHook.MonthlySeriesByPeriod` | src/hooks/useTransactions.tsx:323-355 | The corrected series, keyed by calendar month, has six points. |
| `TransactionsHook.ByPeriodFillRule` | src/hooks/useTransactions.tsx:337-346 | Keyed by calendar month, a transaction changes exactly the bucket of its own month and at most one bucket. |
| `TransactionsHook.CountedIffInBucket` | src/hooks/useTransactions.tsx:334-340 | For a transaction not after `now`, and when `now`'s day exists six months earlier, the label test with the cutoff holds iff the transaction is of bucket k's month. |
| `TransactionsHook.BucketAgrees` | src/hooks/useTransactions.tsx:330-348 | Under the same conditions, bucket k holds exactly its calendar month's totals. |
| `TransactionsHook.SeriesAgreeOnPastWindow` | src/hooks/useTransactions.tsx:316-356 | With no future-dated transaction and no month-end overflow, the label-keyed series equals the month-keyed one. |
| `TransactionsHook.FutureDatedAliases` | src/hooks/useTransactions.tsx:337-346 | A transaction dated seven months ahead lands in the bucket of the same-named month a year earlier. |
| `TransactionsHook.MonthEndCutoff` | src/hooks/useTransactions.tsx:334-335 | On 31 August 2025 the cutoff is 3 March 2025, and the oldest bucket is March 2025. |
| `TransactionsHook.MonthEndLabelBucket` | src/hooks/useTransactions.tsx:337-346 | An expense of 1 March 2025 is not counted in "Mar" on 31 August 2025. |
| `TransactionsHook.MonthEndMonthBucket` | src/hooks/useTransactions.tsx:323-355 | The same expense is counted in March by the month-keyed series. |
| `TransactionsHook.MonthEndCutoffDropsDays` | src/hooks/useTransactions.tsx:334-346 | All of these at once: the overflowed cutoff drops early-March days from the oldest bucket. |
| `Calendar.PreviousPeriod` | src/hooks/useTransactions.tsx:180-181 | The month before is one month-index earlier: December of the previous year for January. |
| `Calendar.MonthsBefore` | src/hooks/useTransactions.tsx:324 | `new Date(y, m - k, 1)` is the month k month-indices earlier. |
| `Calendar.MonthsBeforeDistinct` | src/hooks/useTransactions.tsx:323-324 | Different offsets under 12 give different months. |
| `Calendar.OrdinalIsCalendarOrder` | src/hooks/useTransactions.tsx:337 | The date comparison orders by year, then month, then day, and equal positions are equal dates. |
| `Calendar.DaysInMonth` | src/hooks/useTransactions.tsx:334-335 | A month has 28 to 31 days, with leap-year Februaries. |
| `Calendar.SetMonthBack` | src/hooks/useTransactions.tsx:334-335 | `setMonth(getMonth() - k)` keeps the day when it exists k months back. Otherwise it overflows into the following month by the excess days. |
| `Calendar.MonthOfLabel` | src/hooks/useTransactions.tsx:325 | Reading a label back gives a month or -1. |
| `Calendar.MonthLabelRoundTrip` | src/hooks/useTransactions.tsx:325 | Reading back a month's short name gives the month. |
| `Calendar.MonthLabelInjective` | src/hooks/useTransactions.tsx:338-340 | Two months share a label iff they are the same month. |
| `Arith.Round` | src/hooks/useTransactions.tsx:209 | `Math.round(n / d)` is the integer within half a unit of n / d, with halves going up, for either sign of d. |
| `Arith.RoundUnique` | src/hooks/useTransactions.tsx:209 | That characterisation determines the result. |
| `Arith.RoundAtMost` | src/components/Dashboard.tsx:51 | A quotient of at most k rounds to at most k. |
| `Arith.RoundAtLeast` | src/components/Dashboard.tsx:51 | A quotient of at least k rounds to at least k. |
| `Arith.RoundSign` | src/hooks/useTransactions.tsx:233 | A rounded quotient has the sign of its numerator, or is 0 for a zero numerator. |
| `Arith.Min` | src/hooks/useGoals.tsx:195 | `Math.min` is one of its arguments and at most both. |
| `Arith.Abs` | src/hooks/useTransactions.tsx:252 | `Math.abs` is x or -x and is never negative. |
| `Seqs.Filter` | src/hooks/useTransactions.tsx:184-196 | `filter` keeps an element iff it is in the input and passes. It never lengthens the list. |
| `Seqs.SliceTo` | src/components/Dashboard.tsx:55-60 | `slice(0, end)` is a prefix of length min(end, n), or n + end for a negative end. |
| `Seqs.FilterPartition` | src/pages/Goals.tsx:44-45 | A filter and its complement together hold each element as often as the input, and their lengths add up. |
| `Seqs.FilterCount` | src/pages/Goals.tsx:44-45 | A filter keeps every occurrence of a passing element and none of a failing one. |
| `Seqs.FilterIsSubsequence` | src/pages/Transactions.tsx:46 | A filter keeps the input order. |
| `Seqs.SumFilterSnoc` | src/hooks/useTransactions.tsx:199-205 | Summing a filter over one more element adds it only if it passes. |
| `Seqs.SumByPermutation` | src/hooks/useTransactions.tsx:313 | Reordering does not change a sum. |
| `Sorting.Insert` | src/pages/Transactions.tsx:41-43 | Inserting adds exactly that element. |
| `Sorting.InsertSorted` | src/pages/Transactions.tsx:41-43 | Inserting into a sorted list keeps it sorted. |
| `Sorting.SortDesc` | src/pages/Transactions.tsx:41-43 | The sort with comparator key(b) - key(a) is a permutation in non-increasing key order. |
| `Sorting.FilterKeepsSorted` | src/pages/Transactions.tsx:46-49 | Filtering a sorted list leaves it sorted. |
| `Text.Lower` | src/pages/Transactions.tsx:47-48 | `toLowerCase` maps each character and keeps the length. |
| `Text.Upper` | src/components/Header.tsx:44 | `toUpperCase` maps each character and keeps the length. |
| `Text.LowerOfUpper` | src/pages/Transactions.tsx:47-48 | Lower-casing forgets a prior upper-casing. |
| `Text.LowerIdempotent` | src/pages/Transactions.tsx:47-48 | Lower-casing twice is lower-casing once. |
| `Text.Contains` | src/pages/Transactions.tsx:47-48 | `includes` holds iff the needle occurs at some position. |
| `Text.Split` | src/components/Header.tsx:41 | `split` always yields at least one piece. |
| `Text.JoinSplit` | src/components/Header.tsx:41-43 | Joining the pieces of a split with the separator gives back the text. |
| `Text.SplitPiecesFree` | src/components/Header.tsx:41 | No piece contains the separator. |
| `Text.ReplaceFirst` | src/components/TransactionList.tsx:72 | `replace` with one-character strings keeps the length. |
| `Text.ReplaceFirstAt` | src/components/TransactionList.tsx:72 | A position changes iff it holds the first occurrence of the searched character. |
| `Text.Prefix` | src/components/Header.tsx:45 | `substring(0, n)` is the prefix of length min(n, length). |
| `GoalsHook.NewGoal` | src/hooks/useGoals.tsx:122-154 | The new goal starts at 0 with an empty description and the form's title and target. It gets an end date iff the form asks for a deadline and supplies one. |
| `GoalsHook.FirstWithIdShift` | src/hooks/useGoals.tsx:181 | Past a first goal with another id, the first match moves by one position. |
| `GoalsHook.FindGoal` | src/hooks/useGoals.tsx:181-185 | `find` gives nothing iff no goal has the id. Otherwise it gives the first goal with that id. |
| `GoalsHook.NewCurrent` | src/hooks/useGoals.tsx:195 | The new progress is never above the target. It is the sum when that fits and the target otherwise. |
| `GoalsHook.WithCurrent` | src/hooks/useGoals.tsx:228-235 | Only `current` of the goals with that id changes. Every other field, and every other goal, stays. |
| `GoalsHook.ProgressKeepsWithinTarget` | src/hooks/useGoals.tsx:195-235 | With unique ids, a contribution keeps every goal at or below its target. |
| `GoalsHook.DeleteGoalRemovesExactly` | src/hooks/useGoals.tsx:270 | A goal survives iff it has another id. The survivors keep their order, and exactly the goals with that id are gone. |
| `GoalsHook.GoalStore.constructor` | src/hooks/useGoals.tsx:23-26 | Both the goal list and the contribution map start empty. |
| `GoalsHook.GoalStore.FetchGoalContributions` | src/hooks/useGoals.tsx:79-108 | On success it overwrites only that goal's entry and returns the rows. On failure it returns [] and changes nothing. |
| `GoalsHook.GoalStore.AddGoal` | src/hooks/useGoals.tsx:110-175 | A goal is returned and appended exactly when the user is signed in and the insert succeeds. The contribution map never changes. |
| `GoalsHook.GoalStore.UpdateGoalProgress` | src/hooks/useGoals.tsx:177-256 | It succeeds iff the goal exists, the user is signed in and both writes succeed. Success applies the capped progress to that goal and refreshes its contributions. Failure changes nothing. |
| `GoalsHook.GoalStore.DeleteGoal` | src/hooks/useGoals.tsx:258-295 | On success it removes the goals with that id and that id's contribution entry. On failure it changes nothing. |
| `GoalCard.Percentage` | src/components/GoalCard.tsx:48-51 | The percentage is never above 100. A zero target gives 100, NaN or -Infinity by the sign of `current`; any other target gives a number. |
| `GoalCard.PercentageOfPositiveTarget` | src/components/GoalCard.tsx:48-52 | With a positive target the percentage is 100 exactly when current / target reaches 0.995. Below that it is 100 * current / target rounded to the nearest integer. A completed goal shows 100, below 100 means not completed, and non-negative progress shows at least 0. |
| `GoalCard.PercentageOfNegativeTarget` | src/components/GoalCard.tsx:48-51 | With a negative target the percentage is 100 exactly when current / target reaches 0.995. Below that it is 100 * current / target rounded to the nearest integer. |
| `GoalCard.FullButNotCompleted` | src/components/GoalCard.tsx:48-52 | 99.95 of 100.00 shows 100 but is not completed. |
| `GoalCard.GoalContributions` | src/components/GoalCard.tsx:54 | A goal with no loaded contributions gets the empty list. |
| `GoalCard.GoalCardState.constructor` | src/components/GoalCard.tsx:42-45 | The amount starts empty, with no loading and the dialog closed. |
| `GoalCard.GoalCardState.SetDialogOpen` | src/components/GoalCard.tsx:57-62 | A change from closed to open refreshes that goal's contributions and nothing else. Closing, or re-opening an open dialog, fetches nothing. |
| `GoalCard.GoalCardState.HandleContribute` | src/components/GoalCard.tsx:64-76 | An empty, unparsable or non-positive amount changes nothing. Otherwise loading ends false. On success the amount is cleared, the dialog closed and the capped progress applied. On failure the amount, the dialog and the goals are kept. That goal's contributions are refreshed exactly when the update succeeds and the refetch returns rows; otherwise they stay. |
| `GoalsPage.TotalPercentage` | src/pages/Goals.tsx:39-41 | The overall percentage is 0 unless the targets sum to something positive. Otherwise it is within half a point of 100 * saved / targets. |
| `GoalsPage.TotalsSnoc` | src/pages/Goals.tsx:37-38 | One more goal adds its target and its saved amount to the totals. |
| `GoalsPage.TotalPercentageBounds` | src/pages/Goals.tsx:37-41 | With every goal within its target and non-negative, the overall percentage is in 0..100. |
| `GoalsPage.TotalPercentageNotCapped` | src/pages/Goals.tsx:39-41 | It is not capped: 150.00 of 100.00 shows 150. |
| `GoalsPage.GoalsPartition` | src/pages/Goals.tsx:44-45 | Completed goals have current >= target and incomplete goals current < target. Both keep the original order, each goal is in exactly one list, and the completed count is at most the goal count. |
| `Dashboard.GoalPercentage` | src/components/Dashboard.tsx:40-45 | The dashboard's goal percentage is the goals page's overall percentage. |
| `Dashboard.CompletionRate` | src/components/Dashboard.tsx:48-52 | It is 0 with no goals and always in 0..100. Otherwise it is within half a point of 100 * completed / goals. |
| `Dashboard.CompletionRateAllCompleted` | src/components/Dashboard.tsx:48-52 | All goals completed shows 100. |
| `Dashboard.CompletionRateNoneCompleted` | src/components/Dashboard.tsx:48-52 | No goal completed shows 0. |
| `Dashboard.CompletionRateExample` | src/components/Dashboard.tsx:48-52 | One completed goal of three shows 33. |
| `Dashboard.DisplayGoalsShape` | src/components/Dashboard.tsx:55-56 | It shows the first min(n, 2) goals, and "more" shows iff some goal is hidden. |
| `Dashboard.DisplayTransactionsShape` | src/components/Dashboard.tsx:59-60 | It shows the first min(n, 5) transactions, and "more" shows iff some transaction is hidden. |
| `TransactionsPage.SortedTransactions` | src/pages/Transactions.tsx:41-43 | The sorted copy is a permutation of the list with non-increasing dates. |
| `TransactionsPage.FilteredTransactionsSpec` | src/pages/Transactions.tsx:41-49 | A transaction is shown iff its lower-cased description or category contains the lower-cased term. The shown list is newest first and in the sorted list's order. |
| `TransactionsPage.EmptySearchShowsAll` | src/pages/Transactions.tsx:46-49 | An empty term shows the whole sorted list. |
| `TransactionsPage.SearchIgnoresCase` | src/pages/Transactions.tsx:46-49 | Upper- or lower-casing the term does not change the result. |
| `TransactionsPage.SearchByCategoryExample` | src/pages/Transactions.tsx:46-49 | "GRO" finds a transaction of category "groceries". |
| `DashboardPage.RecentTransactions` | src/pages/Dashboard.tsx:13-14 | The dashboard gets all transactions, as a permutation, newest first. |
| `DashboardPage.DashboardShowsNewest` | src/pages/Dashboard.tsx:13-29 | The dashboard shows min(n, 5) of them, no hidden one is newer than a shown one, and shown and hidden together are all of them. |
| `Utils.CategoryLabel` | src/lib/utils.tsx:83-102 | A known key gives its table label, and an unknown key is returned unchanged. |
| `Utils.FormatScale` | src/lib/utils.tsx:35-42 | "M" is chosen iff value >= 1,000,000 and "K" iff 1,000 <= value < 1,000,000. The plain number is shown iff value < 1,000, which includes every negative value. |
| `Utils.Divisor` | src/lib/utils.tsx:36-39 | Each branch divides by a positive unit. |
| `Utils.FormatScaleUnit` | src/lib/utils.tsx:35-42 | A suffixed value shows at least 1.0 of its unit, and under 1000 of it for "K". There is no suffix iff the value is under 1,000. |
| `Utils.CategoryValues` | src/lib/utils.tsx:104-192 | The option values, in table order. |
| `Utils.TransactionCategoriesShape` | src/lib/utils.tsx:104-192 | 14 options: 4 income then 10 expense, with no value twice. |
| `Utils.TransactionCategoriesLabels` | src/lib/utils.tsx:84-192 | Every option's label is what the label lookup gives for its value. |
| `TransactionList.LimitedTransactions` | src/components/TransactionList.tsx:30 | The shown rows are a prefix of the list. All rows show with no limit or 0, the first min(limit, n) with a positive limit, and all but the last -limit with a negative one. |
| `TransactionList.RowTitle` | src/components/TransactionList.tsx:64-65 | The title is the description, or "Income"/"Expense" by type when the description is empty. |
| `TransactionList.RowTitleNonEmpty` | src/components/TransactionList.tsx:64-65 | No row title is empty. |
| `TransactionList.AmountPrefix` | src/components/TransactionList.tsx:68 | The prefix is "+" iff the type is income, and "-" otherwise. |
| `TransactionList.CategoryText` | src/components/TransactionList.tsx:72 | The category text has the category's length. |
| `TransactionList.CategoryTextReplacesFirstOnly` | src/components/TransactionList.tsx:72 | The first '-' becomes a space. At most one character changes, a '-' into a space, and every later character stays. |
| `TransactionList.CategoryTextExample` | src/components/TransactionList.tsx:72 | "a-b-c" shows as "a b-c". |
| `TransactionList.TransactionListState.constructor` | src/components/TransactionList.tsx:28 | No delete is in flight at first. |
| `TransactionList.TransactionListState.HandleDelete` | src/components/TransactionList.tsx:32-36 | While the delete runs, the deleting id is that id, and the buttons are disabled iff the id is non-empty. Afterwards it is cleared, and the list has lost the records with that id iff the delete succeeded. |
| `Header.FirstLetters` | src/components/Header.tsx:42-43 | There is at most one letter per word. |
| `Header.FirstLettersOfWords` | src/components/Header.tsx:41-43 | The letters are exactly the first characters of the non-empty words, in order; empty words add nothing. |
| `Header.Initials` | src/components/Header.tsx:40-45 | The initials have at most 2 characters. |
| `Header.InitialsOfWords` | src/components/Header.tsx:40-45 | Initial i is the upper-cased first character of the i-th non-empty word, and there are min(words, 2) of them. |
| `Header.SplitLetter` | src/components/Header.tsx:41 | A word character extends the first piece of the split. |
| `Header.SplitSpace` | src/components/Header.tsx:41 | A space starts a new piece. |
| `Header.InitialsTwoWords` | src/components/Header.tsx:40-45 | "al b" gives "AB". |
| `Header.SplitSpacedName` | src/components/Header.tsx:41 | " a  b c" splits into ["", "a", "", "b", "c"]. |
| `Header.SpacedNameLetters` | src/components/Header.tsx:42-43 | Those pieces give the letters "abc". |
| `Header.InitialsSkipEmptyWords` | src/components/Header.tsx:40-45 | " a  b c" gives "AB": leading and repeated spaces add nothing, and only two initials are kept. |
| `Header.InitialsOfBlankName` | src/components/Header.tsx:40-45 | A name of only a space gives no initials. |
| `Header.EmailInitials` | src/components/Header.tsx:49-50 | The e-mail initials are "US" (from "User") with no or an empty address. Otherwise they are the address's first two characters, or its only one, upper-cased. |
| `Header.HeaderState.constructor` | src/components/Header.tsx:20-21 | The initials start as "U" with no user name. |
| `Header.HeaderState.FetchUserProfile` | src/components/Header.tsx:24-53 | With no user nothing changes. With a non-empty full name, that name and its initials are used. Otherwise the e-mail initials are used. |

## Left out

- Backend transport, authentication and the GraphQL/Supabase clients: each call is an input.
  - The inputs are the signed-in flag, each mutation's success, the inserted id, and the fetched rows.
  - Errors thrown by those calls are their failure outcome.
- Decoding backend records (`parseFloat`, `new Date(string)`): records arrive typed. NaN amounts, and NaN from an unparsable contribution amount, are not modelled. The contribute handler gets the parse result as `Option<int>`.
- Floating point: amounts are exact integer cents. Float sums and their rounding drift are not modelled.
- `TransactionsHook.NewTransaction` and `GoalsHook.NewGoal` build the appended record from the submitted form. The source reads it back from the insert's echo, which is assumed to match what was sent.
- `TransactionsHook.GetFinancialSummary`: the month filters compare year and month only. Time of day and the time zone of `new Date(...)` are not modelled, and neither is the sort key, which is day resolution instead of milliseconds.
- `TransactionsHook.Counted` and `TransactionsHook.FillTransaction` compare a transaction's day with the cutoff day. The source compares full timestamps, and the cutoff keeps `now`'s clock time. A transaction on the cutoff day itself is therefore counted here but usually not by the source.
- `Sorting.SortDesc`: stability (ties keep input order) holds by construction of the insertion sort but is not stated as a contract.
- `TransactionsHook.MonthlySeries`: the bucket names use a fixed English month-name table instead of locale formatting.
- `formatCurrency`, and the `toFixed(1)` digits and `toString()` of `formatNumber`: only the branch and its suffix are modelled (`Utils.FormatScale`).
- `Text.Lower` and `Text.Upper` map ASCII letters only. Other Unicode case mappings are not modelled.
- `Utils.CategoryLabel` models the table as a plain map. A JavaScript object also answers inherited keys such as "constructor", and that is not modelled.
- `Utils.TransactionCategoriesLabels` proves that every option's label is what the lookup gives. The converse, that the table's keys are exactly the option values, is not stated.
- The `type` field is two-valued (`Income | Expense`). The source's "any other type goes to expenses" branches are modelled as `t.kind != Income`, which is the same under that type.
- `Goal.color` and the icons are left out: rendering only.
- `isLoading`, `isInitialized`, toasts and console output are left out, as are the order of awaits and the effects that load data on mount.
- `TransactionList.TransactionListState.HandleDelete` and `GoalCard.GoalCardState.HandleContribute` act on one shared store. In the source, each component calls its own `useTransactions()` or `useGoals()`, and so holds its own copy of the state. That separation is not modelled. As a consequence, the model does not show that a delete from the list only changes the list component's own copy, so the page's list keeps the deleted row until it is fetched again.
- `Header.HeaderState.FetchUserProfile` stores the profile's full name as the user name instead of the whole profile record.
- The page handlers that add a transaction or goal and close the dialog are not part of this model. They only forward to the hook.
- Sorting on a copy leaves the hook's list untouched. Here that holds by construction, since sequences are values.
- The dashboard comment speaks of three goals, but the code shows two. The model follows the code (`Dashboard.GoalLimit`).

## Findings

| source | as written | input that shows it | evidently intended | confidence | as-written member | corrected member |
|---|---|---|---|---|---|---|
| src/hooks/useTransactions.tsx:337-346 | The six buckets are keyed by the short month name only, and the fill tests only `date >= sixMonthsAgo`. A future-dated transaction whose month name matches a bucket is added to that older month. | `now` = 15 January 2025 and an expense of 50.00 dated 10 August 2025. The "Aug" bucket, which stands for August 2024, shows 50. | Each bucket holds the transactions of its own calendar month. | not executed | `TransactionsHook.FutureDatedAliases` | `TransactionsHook.MonthlySeriesByPeriod` |
| src/hooks/useTransactions.tsx:334-337 | `setMonth(getMonth() - 6)` on a 31st overflows when the month six back is shorter. The cutoff then falls inside the oldest bucket's month, and its first days are dropped. | `now` = 31 August 2025 gives a cutoff of 3 March 2025. An expense of 50.00 dated 1 March 2025 is missing from the "Mar" bucket. | The oldest bucket counts its whole month. | not executed | `TransactionsHook.MonthEndCutoffDropsDays` | `TransactionsHook.MonthlySeriesByPeriod` |

`TransactionsHook.ByPeriodFillRule` proves the fill rule of the month-keyed
series: a transaction changes exactly the bucket of its own month, and at
most one bucket. `TransactionsHook.SeriesAgreeOnPastWindow` proves that the
two series agree whenever neither defect can occur.
