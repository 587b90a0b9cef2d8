/** The client-side bookkeeping of the transactions hook: the local list
    kept in step with the backend (append on add, filter on delete) and the
    three derivations computed from it for a reference date `now`: the month
    summary with trends, the category breakdown and the six-month series. */
module TransactionsHook {
  import opened Wrappers
  import opened Calendar
  import opened Arith
  import opened Seqs
  import opened Sorting
  import opened Types

  // ---------------------------------------------------------------------
  // The local transaction list
  // ---------------------------------------------------------------------

  /** What the form submits; the amount is already decoded to cents. */
  datatype TransactionForm = TransactionForm(
    amount: int,
    category: string,
    date: Date,
    description: Option<string>,
    kind: TxType)

  /** The record the hook appends: the backend's id with the submitted
      fields, a missing description becoming "". */
  function NewTransaction(id: string, form: TransactionForm): (t: Transaction)
    ensures t.id == id && t.amount == form.amount && t.kind == form.kind
    ensures t.category == form.category && t.date == form.date
    ensures t.description == if form.description.Some? then form.description.value else ""
  {
    var description := match form.description
      case Some(d) => d
      case None => "";
    Transaction(id, form.amount, form.kind, form.category, description, form.date)
  }

  function HasOtherId(id: string): Transaction -> bool
  {
    (t: Transaction) => t.id != id
  }

  function HasId(id: string): Transaction -> bool
  {
    (t: Transaction) => t.id == id
  }

  /** prev.filter(t => t.id !== id). */
  function WithoutId(ts: seq<Transaction>, id: string): seq<Transaction>
  {
    Filter(ts, HasOtherId(id))
  }

  /** Deleting removes exactly the records carrying the id, keeps every
      other record, and keeps the survivors in their original order. */
  lemma DeleteRemovesExactly(ts: seq<Transaction>, id: string)
    ensures forall t :: t in WithoutId(ts, id) <==> t in ts && t.id != id
    ensures IsSubsequence(WithoutId(ts, id), ts)
    ensures |WithoutId(ts, id)| == |ts| - |Filter(ts, HasId(id))|
  {
    FilterIsSubsequence(ts, HasOtherId(id));
    FilterPartition(ts, HasOtherId(id), HasId(id));
  }

  class TransactionStore {
    var transactions: seq<Transaction>

    constructor ()
      ensures transactions == []
    {
      transactions := [];
    }

    /** addTransaction: the user lookup and the insert are backend calls,
        given here as their outcomes (`insertedId` is the id of the inserted
        record, None when the insert failed). */
    method AddTransaction(form: TransactionForm, authenticated: bool, insertedId: Option<string>)
      returns (r: Option<Transaction>)
      modifies this
      ensures r.Some? <==> authenticated && insertedId.Some?
      ensures r.Some? ==> r.value == NewTransaction(insertedId.value, form)
      ensures r.Some? ==> transactions == old(transactions) + [r.value]
      ensures r.None? ==> transactions == old(transactions)
    {
      if !authenticated || insertedId.None? {
        return None;
      }
      var t := NewTransaction(insertedId.value, form);
      transactions := transactions + [t];
      r := Some(t);
    }

    /** deleteTransaction: `ok` is the outcome of the delete mutation. */
    method DeleteTransaction(id: string, ok: bool) returns (r: bool)
      modifies this
      ensures r == ok
      ensures ok ==> transactions == WithoutId(old(transactions), id)
      ensures !ok ==> transactions == old(transactions)
    {
      if ok {
        transactions := WithoutId(transactions, id);
      }
      r := ok;
    }
  }

  // ---------------------------------------------------------------------
  // Month summary (getFinancialSummary)
  // ---------------------------------------------------------------------

  /** Transactions of calendar month p and of type ty (getMonth and
      getFullYear both match). */
  function OfPeriodAndType(p: Period, ty: TxType): Transaction -> bool
  {
    (t: Transaction) => PeriodOf(t.date) == p && t.kind == ty
  }

  function PeriodTotal(ts: seq<Transaction>, p: Period, ty: TxType): int
  {
    SumBy(Filter(ts, OfPeriodAndType(p, ty)), Amount)
  }

  /** savingsRate: 0 without positive income, else the balance as a
      rounded percentage of income. */
  function SavingsRate(income: int, balance: int): (r: int)
    ensures income <= 0 ==> r == 0
    ensures income > 0 ==> income * (2 * r - 1) <= 200 * balance < income * (2 * r + 1)
  {
    if income > 0 then Round(100 * balance, income) else 0
  }

  /** The income and expense trends: percentage change from last month,
      100 (or 0) when last month's total is 0. A negative last total (only
      possible with negative amounts) divides by that negative total, as
      the source's expression does. */
  function GrowthTrend(cur: int, prev: int): (r: int)
    ensures prev == 0 ==> r == if cur > 0 then 100 else 0
    ensures prev > 0 ==> prev * (2 * r - 1) <= 200 * (cur - prev) < prev * (2 * r + 1)
    ensures prev < 0 ==> -prev * (2 * r - 1) <= -200 * (cur - prev) < -prev * (2 * r + 1)
  {
    if prev == 0 then (if cur > 0 then 100 else 0)
    else Round(100 * (cur - prev), prev)
  }

  /** The balance trend: change relative to |last balance|; with a last
      balance of 0 it is 100, -100 or 0 by the sign of the current one. */
  function BalanceTrend(cur: int, prev: int): (r: int)
    ensures prev == 0 ==> r == if cur > 0 then 100 else if cur < 0 then -100 else 0
    ensures prev != 0 ==>
      Abs(prev) * (2 * r - 1) <= 200 * (cur - prev) < Abs(prev) * (2 * r + 1)
  {
    if prev == 0 then (if cur > 0 then 100 else if cur < 0 then -100 else 0)
    else Round(100 * (cur - prev), Abs(prev))
  }

  /** The savings-rate trend: a plain difference of percentage points,
      except that a last rate of 0 gives 100 or 0. */
  function SavingsRateTrend(cur: int, prev: int): (r: int)
    ensures prev != 0 ==> r + prev == cur
    ensures prev == 0 ==> r == if cur > 0 then 100 else 0
  {
    if prev == 0 then (if cur > 0 then 100 else 0) else cur - prev
  }

  datatype Trends = Trends(income: int, expenses: int, balance: int, savingsRate: int)

  datatype FinancialSummary = FinancialSummary(
    totalIncome: int,
    totalExpenses: int,
    balance: int,
    savingsRate: int,
    trends: Trends)

  /** getFinancialSummary, with the clock reading given as `now`. */
  function GetFinancialSummary(ts: seq<Transaction>, now: Date): (r: FinancialSummary)
    ensures r.totalIncome == PeriodTotal(ts, PeriodOf(now), Income)
    ensures r.totalExpenses == PeriodTotal(ts, PeriodOf(now), Expense)
    ensures r.balance == r.totalIncome - r.totalExpenses
    ensures r.totalIncome <= 0 ==> r.savingsRate == 0
    ensures r.totalIncome > 0 ==>
      r.totalIncome * (2 * r.savingsRate - 1) <= 200 * r.balance < r.totalIncome * (2 * r.savingsRate + 1)
    ensures var lastIncome := PeriodTotal(ts, PreviousPeriod(PeriodOf(now)), Income);
      var lastExpenses := PeriodTotal(ts, PreviousPeriod(PeriodOf(now)), Expense);
      && r.trends.income == GrowthTrend(r.totalIncome, lastIncome)
      && r.trends.expenses == GrowthTrend(r.totalExpenses, lastExpenses)
      && r.trends.balance == BalanceTrend(r.balance, lastIncome - lastExpenses)
      && r.trends.savingsRate ==
           SavingsRateTrend(r.savingsRate, SavingsRate(lastIncome, lastIncome - lastExpenses))
  {
    var cur := PeriodOf(now);
    var last := PreviousPeriod(cur);
    var income := PeriodTotal(ts, cur, Income);
    var expenses := PeriodTotal(ts, cur, Expense);
    var balance := income - expenses;
    var rate := SavingsRate(income, balance);
    var lastIncome := PeriodTotal(ts, last, Income);
    var lastExpenses := PeriodTotal(ts, last, Expense);
    var lastBalance := lastIncome - lastExpenses;
    var lastRate := SavingsRate(lastIncome, lastBalance);
    FinancialSummary(income, expenses, balance, rate,
      Trends(GrowthTrend(income, lastIncome),
             GrowthTrend(expenses, lastExpenses),
             BalanceTrend(balance, lastBalance),
             SavingsRateTrend(rate, lastRate)))
  }

  /** The comparison month is the calendar month just before `now`'s
      (December of the previous year for January), so no transaction is
      counted in both months. */
  lemma ComparisonMonth(now: Date)
    ensures now.month == 0 ==> PreviousPeriod(PeriodOf(now)) == Period(now.year - 1, 11)
    ensures now.month != 0 ==> PreviousPeriod(PeriodOf(now)) == Period(now.year, now.month - 1)
    ensures forall t: Transaction ::
      !(PeriodOf(t.date) == PeriodOf(now) && PeriodOf(t.date) == PreviousPeriod(PeriodOf(now)))
  {
  }

  /** The current-month totals count a transaction exactly when it is of
      the current month and of the matching type. */
  lemma SummaryCountsCurrentMonth(ts: seq<Transaction>, t: Transaction, now: Date)
    ensures GetFinancialSummary(ts + [t], now).totalIncome ==
      GetFinancialSummary(ts, now).totalIncome
        + (if PeriodOf(t.date) == PeriodOf(now) && t.kind == Income then t.amount else 0)
    ensures GetFinancialSummary(ts + [t], now).totalExpenses ==
      GetFinancialSummary(ts, now).totalExpenses
        + (if PeriodOf(t.date) == PeriodOf(now) && t.kind == Expense then t.amount else 0)
  {
    SumFilterSnoc(ts, t, OfPeriodAndType(PeriodOf(now), Income), Amount);
    SumFilterSnoc(ts, t, OfPeriodAndType(PeriodOf(now), Expense), Amount);
  }

  /** With no negative amounts, the savings rate never exceeds 100. */
  lemma SavingsRateAtMostHundred(ts: seq<Transaction>, now: Date)
    requires forall t :: t in ts ==> t.amount >= 0
    ensures GetFinancialSummary(ts, now).savingsRate <= 100
  {
    var income := PeriodTotal(ts, PeriodOf(now), Income);
    var expenses := PeriodTotal(ts, PeriodOf(now), Expense);
    assert expenses >= 0 by {
      SumByNonNegative(Filter(ts, OfPeriodAndType(PeriodOf(now), Expense)), Amount);
    }
    SavingsRateBound(income, income - expenses);
  }

  /** A balance no larger than the income gives a savings rate of at most 100. */
  lemma SavingsRateBound(income: int, balance: int)
    requires balance <= income
    ensures SavingsRate(income, balance) <= 100
  {
    if income > 0 {
      RoundAtMost(100 * balance, income, 100);
    }
  }

  /** The income and expense trends point the same way as the change, and
      a non-negative total cannot fall by more than 100 percent. */
  lemma GrowthTrendDirection(cur: int, prev: int)
    requires prev >= 0
    ensures GrowthTrend(cur, prev) > 0 ==> cur > prev
    ensures GrowthTrend(cur, prev) < 0 ==> cur < prev
    ensures cur == prev ==> GrowthTrend(cur, prev) == 0
    ensures cur >= 0 ==> GrowthTrend(cur, prev) >= -100
  {
    if prev > 0 {
      RoundSign(100 * (cur - prev), prev);
      if cur >= 0 {
        RoundAtLeast(100 * (cur - prev), prev, -100);
      }
    }
  }

  /** The balance trend never points against the change in balance. */
  lemma BalanceTrendDirection(cur: int, prev: int)
    ensures BalanceTrend(cur, prev) > 0 ==> cur > prev
    ensures BalanceTrend(cur, prev) < 0 ==> cur < prev
    ensures cur == prev ==> BalanceTrend(cur, prev) == 0
  {
    if prev != 0 {
      RoundSign(100 * (cur - prev), Abs(prev));
    }
  }

  /** Worked example: 1000.00 of salary and 300.00 of food in March 2024,
      summarised on 15 March 2024. */
  lemma MarchExample()
    ensures var ts := [
        Transaction("a", 100000, Income, "salary", "", Date(2024, 2, 5)),
        Transaction("b", 30000, Expense, "food", "", Date(2024, 2, 10))];
      var r := GetFinancialSummary(ts, Date(2024, 2, 15));
      r.totalIncome == 100000 && r.totalExpenses == 30000
      && r.balance == 70000 && r.savingsRate == 70
  {
    var a := Transaction("a", 100000, Income, "salary", "", Date(2024, 2, 5));
    var b := Transaction("b", 30000, Expense, "food", "", Date(2024, 2, 10));
    var now := Date(2024, 2, 15);
    assert Filter([a, b], OfPeriodAndType(PeriodOf(now), Income)) == [a] by {
      assert Filter([b], OfPeriodAndType(PeriodOf(now), Income)) == [];
    }
    assert Filter([a, b], OfPeriodAndType(PeriodOf(now), Expense)) == [b] by {
      assert Filter([b], OfPeriodAndType(PeriodOf(now), Expense)) == [b];
    }
    RoundUnique(7000000, 100000, 70);
  }

  /** Worked example: income of 500.00 in February and 750.00 in March
      gives an income trend of 50. */
  lemma IncomeTrendExample()
    ensures var ts := [
        Transaction("a", 50000, Income, "salary", "", Date(2024, 1, 10)),
        Transaction("b", 75000, Income, "salary", "", Date(2024, 2, 10))];
      GetFinancialSummary(ts, Date(2024, 2, 15)).trends.income == 50
  {
    var a := Transaction("a", 50000, Income, "salary", "", Date(2024, 1, 10));
    var b := Transaction("b", 75000, Income, "salary", "", Date(2024, 2, 10));
    var cur := PeriodOf(Date(2024, 2, 15));
    var last := PreviousPeriod(cur);
    assert last == Period(2024, 1);
    assert Filter([a, b], OfPeriodAndType(cur, Income)) == [b] by {
      assert Filter([b], OfPeriodAndType(cur, Income)) == [b];
    }
    assert Filter([a, b], OfPeriodAndType(last, Income)) == [a] by {
      assert Filter([b], OfPeriodAndType(last, Income)) == [];
    }
    assert SumBy([b], Amount) == 75000 by { assert [b][1..] == []; }
    assert SumBy([a], Amount) == 50000 by { assert [a][1..] == []; }
    RoundUnique(2500000, 50000, 50);
  }

  // ---------------------------------------------------------------------
  // Category breakdown (getCategoryData)
  // ---------------------------------------------------------------------

  datatype CategorySummary = CategorySummary(category: string, amount: int, percentage: int)

  function EntryAmount(e: CategorySummary): int { e.amount }

  function EntryPercentage(e: CategorySummary): int { e.percentage }

  function HasCategory(c: string): Transaction -> bool
  {
    (t: Transaction) => t.category == c
  }

  /** The keys of the category Map in insertion order: each category once,
      in the order of its first transaction. */
  function CategoriesOf(ts: seq<Transaction>): (r: seq<string>)
    ensures Distinct(r)
  {
    if ts == [] then []
    else
      var r0 := CategoriesOf(ts[..|ts| - 1]);
      var c := ts[|ts| - 1].category;
      if c in r0 then r0 else r0 + [c]
  }

  /** The keys are exactly the categories that occur. */
  lemma {:induction false} CategoriesOfMembers(ts: seq<Transaction>)
    ensures forall c :: c in CategoriesOf(ts) <==> exists t :: t in ts && t.category == c
  {
    if ts != [] {
      var init := ts[..|ts| - 1];
      assert ts == init + [ts[|ts| - 1]];
      CategoriesOfMembers(init);
    }
  }

  /** The Map value of category c: the sum of its amounts. */
  function CategoryTotal(ts: seq<Transaction>, c: string): int
  {
    SumBy(Filter(ts, HasCategory(c)), Amount)
  }

  function CategoryTotalIn(ts: seq<Transaction>): string -> int
  {
    c => CategoryTotal(ts, c)
  }

  /** An entry's percentage: its rounded share of the total, 0 unless the
      total is positive. */
  function Share(amount: int, total: int): (r: int)
    ensures total <= 0 ==> r == 0
    ensures total > 0 ==> total * (2 * r - 1) <= 200 * amount < total * (2 * r + 1)
  {
    if total > 0 then Round(100 * amount, total) else 0
  }

  function Entry(ts: seq<Transaction>, total: int, c: string): CategorySummary
  {
    CategorySummary(c, CategoryTotal(ts, c), Share(CategoryTotal(ts, c), total))
  }

  /** The pushed entries, one per Map key, in key order. */
  function Entries(cs: seq<string>, ts: seq<Transaction>, total: int): (r: seq<CategorySummary>)
    ensures |r| == |cs|
    ensures forall i :: 0 <= i < |cs| ==> r[i] == Entry(ts, total, cs[i])
  {
    seq(|cs|, i requires 0 <= i < |cs| => Entry(ts, total, cs[i]))
  }

  lemma EntriesSnoc(cs: seq<string>, c: string, ts: seq<Transaction>, total: int)
    ensures Entries(cs + [c], ts, total) == Entries(cs, ts, total) + [Entry(ts, total, c)]
  {
  }

  /** The transactions getCategoryData works on. */
  function CurrentOfType(ts: seq<Transaction>, ty: TxType, now: Date): seq<Transaction>
  {
    Filter(ts, OfPeriodAndType(PeriodOf(now), ty))
  }

  /** getCategoryData as a value: the entries sorted by amount, largest
      first, ties in Map order (the sort is stable). */
  function CategoryBreakdown(ts: seq<Transaction>, ty: TxType, now: Date): seq<CategorySummary>
  {
    var cur := CurrentOfType(ts, ty, now);
    SortDesc(Entries(CategoriesOf(cur), cur, SumBy(cur, Amount)), EntryAmount)
  }

  lemma CategoryTotalSnoc(ts: seq<Transaction>, t: Transaction, c: string)
    ensures CategoryTotal(ts + [t], c) == CategoryTotal(ts, c) + (if t.category == c then t.amount else 0)
  {
    SumFilterSnoc(ts, t, HasCategory(c), Amount);
  }

  /** The category Map after the `for` loop has run over ts: each
      transaction adds its amount to its category's entry, a missing entry
      counting as 0. */
  function RunningTotals(ts: seq<Transaction>): map<string, int>
  {
    if ts == [] then map[]
    else
      var m := RunningTotals(ts[..|ts| - 1]);
      var t := ts[|ts| - 1];
      m[t.category := (if t.category in m then m[t.category] else 0) + t.amount]
  }

  lemma RunningTotalsSnoc(ts: seq<Transaction>, t: Transaction)
    ensures RunningTotals(ts + [t]) == RunningTotals(ts)[t.category :=
      (if t.category in RunningTotals(ts) then RunningTotals(ts)[t.category] else 0) + t.amount]
  {
    assert (ts + [t])[..|ts|] == ts;
  }

  lemma {:induction false} RunningTotalsKeys(ts: seq<Transaction>)
    ensures forall c :: c in RunningTotals(ts) <==> c in CategoriesOf(ts)
  {
    if ts != [] {
      RunningTotalsKeys(ts[..|ts| - 1]);
    }
  }

  /** The Map holds each category's total. */
  lemma RunningTotalsValues(ts: seq<Transaction>)
    ensures forall c :: c in RunningTotals(ts) ==> RunningTotals(ts)[c] == CategoryTotal(ts, c)
  {
    forall c | c in RunningTotals(ts)
      ensures RunningTotals(ts)[c] == CategoryTotal(ts, c)
    {
      RunningTotalsValue(ts, c);
    }
  }

  lemma {:induction false} RunningTotalsValue(ts: seq<Transaction>, c: string)
    requires c in RunningTotals(ts)
    ensures RunningTotals(ts)[c] == CategoryTotal(ts, c)
  {
    var init := ts[..|ts| - 1];
    var t := ts[|ts| - 1];
    assert ts == init + [t];
    RunningTotalsSnoc(init, t);
    CategoryTotalSnoc(init, t, c);
    if c in RunningTotals(init) {
      RunningTotalsValue(init, c);
    } else {
      RunningTotalsKeys(init);
      CategoriesOfMembers(init);
      CategoryTotalAbsent(init, c);
    }
  }

  lemma CategoriesOfSnoc(ts: seq<Transaction>, t: Transaction)
    ensures CategoriesOf(ts + [t]) ==
      if t.category in CategoriesOf(ts) then CategoriesOf(ts) else CategoriesOf(ts) + [t.category]
  {
    assert (ts + [t])[..|ts|] == ts;
  }

  lemma CategoryTotalAbsent(ts: seq<Transaction>, c: string)
    requires forall t :: t in ts ==> t.category != c
    ensures CategoryTotal(ts, c) == 0
  {
    FilterNone(ts, HasCategory(c));
  }

  /** The `for` loop of getCategoryData: the category Map (its key order
      kept in `keys`) built one transaction at a time. */
  method TotalsByCategory(cur: seq<Transaction>) returns (keys: seq<string>, amounts: map<string, int>)
    ensures keys == CategoriesOf(cur) && amounts == RunningTotals(cur)
  {
    keys := [];
    amounts := map[];
    var i := 0;
    while i < |cur|
      invariant 0 <= i <= |cur|
      invariant keys == CategoriesOf(cur[..i])
      invariant amounts == RunningTotals(cur[..i])
    {
      var t := cur[i];
      ghost var done := cur[..i];
      assert cur[..i + 1] == done + [t];
      CategoriesOfSnoc(done, t);
      RunningTotalsSnoc(done, t);
      assert t.category in amounts <==> t.category in keys by {
        RunningTotalsKeys(done);
      }
      var current := if t.category in amounts then amounts[t.category] else 0;
      if t.category !in amounts {
        keys := keys + [t.category];
      }
      amounts := amounts[t.category := current + t.amount];
      i := i + 1;
    }
    assert cur[..i] == cur;
  }

  /** getCategoryData: the category Map, then one pushed entry per key,
      then the sort. */
  method GetCategoryData(ts: seq<Transaction>, ty: TxType, now: Date)
    returns (result: seq<CategorySummary>)
    ensures result == CategoryBreakdown(ts, ty, now)
  {
    var cur := CurrentOfType(ts, ty, now);
    var total := SumBy(cur, Amount);
    var keys, amounts := TotalsByCategory(cur);
    RunningTotalsKeys(cur);
    RunningTotalsValues(cur);
    var pushed := PushEntries(keys, amounts, cur, total);
    result := SortDesc(pushed, EntryAmount);
  }

  /** The second loop of getCategoryData: one entry per Map key, in key
      order, with the key's amount and its share of the total. */
  method PushEntries(keys: seq<string>, amounts: map<string, int>, cur: seq<Transaction>, total: int)
    returns (pushed: seq<CategorySummary>)
    requires forall c :: c in keys ==> c in amounts && amounts[c] == CategoryTotal(cur, c)
    ensures pushed == Entries(keys, cur, total)
  {
    pushed := [];
    var k := 0;
    while k < |keys|
      invariant 0 <= k <= |keys|
      invariant pushed == Entries(keys[..k], cur, total)
    {
      var c := keys[k];
      var amount := amounts[c];
      pushed := pushed + [CategorySummary(c, amount, if total > 0 then Round(100 * amount, total) else 0)];
      assert keys[..k + 1] == keys[..k] + [c];
      EntriesSnoc(keys[..k], c, cur, total);
      k := k + 1;
    }
    assert keys[..k] == keys;
  }

  /** The breakdown is sorted by amount, has exactly one entry for every
      category occurring among the current month's transactions of the
      requested type, and each entry carries that category's total and
      its share of the overall total. */
  lemma BreakdownEntries(ts: seq<Transaction>, ty: TxType, now: Date)
    ensures var cur := CurrentOfType(ts, ty, now);
      var r := CategoryBreakdown(ts, ty, now);
      && SortedDesc(r, EntryAmount)
      && (set e | e in r :: e.category) == (set t | t in cur :: t.category)
      && (forall i, j :: 0 <= i < j < |r| ==> r[i].category != r[j].category)
      && (forall e :: e in r ==>
            e.amount == CategoryTotal(cur, e.category)
            && e.percentage == Share(e.amount, SumBy(cur, Amount)))
  {
    var cur := CurrentOfType(ts, ty, now);
    var cs := CategoriesOf(cur);
    var total := SumBy(cur, Amount);
    CategorySet(cur);
    PermutedEntries(CategoryBreakdown(ts, ty, now), cs, cur, total);
  }

  lemma CategorySet(ts: seq<Transaction>)
    ensures (set c | c in CategoriesOf(ts)) == (set t | t in ts :: t.category)
  {
    CategoriesOfMembers(ts);
  }

  lemma EntriesFacts(cs: seq<string>, ts: seq<Transaction>, total: int)
    requires Distinct(cs)
    ensures Distinct(Entries(cs, ts, total))
    ensures forall e :: e in Entries(cs, ts, total) <==> e.category in cs && e == Entry(ts, total, e.category)
  {
    var es := Entries(cs, ts, total);
    forall i, j | 0 <= i < j < |es| ensures es[i] != es[j] {
      assert es[i].category == cs[i];
    }
    forall e: CategorySummary | e.category in cs && e == Entry(ts, total, e.category) ensures e in es {
      var i :| 0 <= i < |cs| && cs[i] == e.category;
      assert es[i] == e;
    }
  }

  /** Any reordering of the entries (the sorted breakdown in particular)
      holds one entry per key, each determined by its category. */
  lemma PermutedEntries(r: seq<CategorySummary>, cs: seq<string>, ts: seq<Transaction>, total: int)
    requires Distinct(cs)
    requires multiset(r) == multiset(Entries(cs, ts, total))
    ensures forall e :: e in r ==> e == Entry(ts, total, e.category)
    ensures (set e | e in r :: e.category) == (set c | c in cs)
    ensures forall i, j :: 0 <= i < j < |r| ==> r[i].category != r[j].category
  {
    var es := Entries(cs, ts, total);
    EntriesFacts(cs, ts, total);
    PermutationMembers(r, es);
    DistinctPermutation(es, r);
    forall c | c in cs ensures c in (set e | e in r :: e.category) {
      assert Entry(ts, total, c) in r;
    }
    forall i, j | 0 <= i < j < |r| ensures r[i].category != r[j].category {
      assert r[i] in r && r[j] in r;
    }
  }

  lemma {:induction false} EntriesSum(cs: seq<string>, ts: seq<Transaction>, total: int)
    ensures SumBy(Entries(cs, ts, total), EntryAmount) == SumBy(cs, CategoryTotalIn(ts))
  {
    if cs != [] {
      assert Entries(cs, ts, total)[1..] == Entries(cs[1..], ts, total);
      EntriesSum(cs[1..], ts, total);
    }
  }

  /** Adding one transaction to the history adds its amount to the group
      total of its own category, when that category is one of cs. */
  lemma {:induction false} GroupSumSnoc(cs: seq<string>, ts: seq<Transaction>, t: Transaction)
    requires Distinct(cs)
    ensures SumBy(cs, CategoryTotalIn(ts + [t]))
      == SumBy(cs, CategoryTotalIn(ts)) + (if t.category in cs then t.amount else 0)
  {
    if cs != [] {
      SumFilterSnoc(ts, t, HasCategory(cs[0]), Amount);
      GroupSumSnoc(cs[1..], ts, t);
      assert cs == [cs[0]] + cs[1..];
    }
  }

  /** Summing the per-category totals gives back the plain total. */
  lemma {:induction false} CategoryTotalsSum(ts: seq<Transaction>)
    ensures SumBy(CategoriesOf(ts), CategoryTotalIn(ts)) == SumBy(ts, Amount)
  {
    if ts != [] {
      var init := ts[..|ts| - 1];
      var t := ts[|ts| - 1];
      assert ts == init + [t];
      var cs := CategoriesOf(init);
      CategoryTotalsSum(init);
      GroupSumSnoc(cs, init, t);
      SumByConcat(init, [t], Amount);
      if t.category !in cs {
        CategoriesOfMembers(init);
        CategoryTotalAbsent(init, t.category);
        SumFilterSnoc(init, t, HasCategory(t.category), Amount);
        SumByConcat(cs, [t.category], CategoryTotalIn(ts));
      }
    }
  }

  /** The entry amounts add up to the total of the filtered transactions,
      and the breakdown is empty exactly when no transaction of the
      requested type falls in the current month. */
  lemma BreakdownTotals(ts: seq<Transaction>, ty: TxType, now: Date)
    ensures var cur := CurrentOfType(ts, ty, now);
      SumBy(CategoryBreakdown(ts, ty, now), EntryAmount) == SumBy(cur, Amount)
    ensures CategoryBreakdown(ts, ty, now) == [] <==>
      forall t :: t in ts ==> !(PeriodOf(t.date) == PeriodOf(now) && t.kind == ty)
  {
    var cur := CurrentOfType(ts, ty, now);
    var total := SumBy(cur, Amount);
    var es := Entries(CategoriesOf(cur), cur, total);
    SumByPermutation(CategoryBreakdown(ts, ty, now), es, EntryAmount);
    EntriesSum(CategoriesOf(cur), cur, total);
    CategoryTotalsSum(cur);
    if cur != [] {
      CategoriesOfMembers(cur);
      assert cur[0].category in CategoriesOf(cur);
    }
  }

  lemma {:induction false} ShareSum(es: seq<CategorySummary>, total: int)
    requires total > 0
    requires forall e :: e in es ==> e.percentage == Share(e.amount, total)
    ensures total * (2 * SumBy(es, EntryPercentage) - |es|) <= 200 * SumBy(es, EntryAmount)
    ensures es != [] ==> 200 * SumBy(es, EntryAmount) < total * (2 * SumBy(es, EntryPercentage) + |es|)
  {
    if es != [] {
      ShareSum(es[1..], total);
      var p := es[0].percentage;
      var ps := SumBy(es[1..], EntryPercentage);
      var n := |es[1..]|;
      assert SumBy(es, EntryPercentage) == p + ps;
      assert SumBy(es, EntryAmount) == es[0].amount + SumBy(es[1..], EntryAmount);
      MulAdd(total, 2 * p - 1, 2 * ps - n);
      MulAdd(total, 2 * p + 1, 2 * ps + n);
    }
  }

  /** With a positive total, the rounded percentages add up to 100 up to
      half a point per entry; with a total of 0 or less they are all 0. */
  lemma BreakdownPercentages(ts: seq<Transaction>, ty: TxType, now: Date)
    ensures var total := SumBy(CurrentOfType(ts, ty, now), Amount);
      var r := CategoryBreakdown(ts, ty, now);
      && (total > 0 ==> 200 - |r| < 2 * SumBy(r, EntryPercentage) <= 200 + |r|)
      && (total <= 0 ==> forall e :: e in r ==> e.percentage == 0)
  {
    if SumBy(CurrentOfType(ts, ty, now), Amount) > 0 {
      PositiveTotalPercentages(ts, ty, now);
    } else {
      BreakdownEntries(ts, ty, now);
    }
  }

  lemma PositiveTotalPercentages(ts: seq<Transaction>, ty: TxType, now: Date)
    requires SumBy(CurrentOfType(ts, ty, now), Amount) > 0
    ensures var r := CategoryBreakdown(ts, ty, now);
      200 - |r| < 2 * SumBy(r, EntryPercentage) <= 200 + |r|
  {
    var total := SumBy(CurrentOfType(ts, ty, now), Amount);
    var r := CategoryBreakdown(ts, ty, now);
    assert forall e :: e in r ==> e.percentage == Share(e.amount, total) by {
      BreakdownEntries(ts, ty, now);
    }
    assert SumBy(r, EntryAmount) == total by {
      BreakdownTotals(ts, ty, now);
    }
    assert r != [];
    SharesOfWhole(r, total);
  }

  /** Entries carrying their rounded shares of a positive total that
      their amounts add up to: the percentages add up to 100 up to half a
      point per entry. */
  lemma SharesOfWhole(es: seq<CategorySummary>, total: int)
    requires total > 0 && es != []
    requires forall e :: e in es ==> e.percentage == Share(e.amount, total)
    requires SumBy(es, EntryAmount) == total
    ensures 200 - |es| < 2 * SumBy(es, EntryPercentage) <= 200 + |es|
  {
    ShareSum(es, total);
    PercentSumBounds(total, SumBy(es, EntryAmount), SumBy(es, EntryPercentage), |es|);
  }

  /** Rounded shares of a positive total summing to that total, p being
      their sum over n entries: the summed rounding bounds pin 2 * p to
      200 +- n. */
  lemma PercentSumBounds(total: int, a: int, p: int, n: int)
    requires total > 0 && a == total
    requires total * (2 * p - n) <= 200 * a
    requires 200 * a < total * (2 * p + n)
    ensures 200 - n < 2 * p <= 200 + n
  {
    if 2 * p - n > 200 {
      MulStrictMono(total, 200, 2 * p - n);
    }
    if 2 * p + n <= 200 {
      MulMono(total, 2 * p + n, 200);
    }
  }

  /** Worked example: food 60.00 and housing 40.00 of expenses this month. */
  lemma BreakdownExample()
    ensures var ts := [
        Transaction("a", 4000, Expense, "housing", "", Date(2024, 2, 3)),
        Transaction("b", 6000, Expense, "food", "", Date(2024, 2, 4))];
      CategoryBreakdown(ts, Expense, Date(2024, 2, 15)) ==
        [CategorySummary("food", 6000, 60), CategorySummary("housing", 4000, 40)]
  {
    var ts := ExampleExpenses();
    ExampleAllCurrent();
    BreakdownExampleEntries();
    ExampleSorted();
  }

  lemma ExampleAllCurrent()
    ensures CurrentOfType(ExampleExpenses(), Expense, Date(2024, 2, 15)) == ExampleExpenses()
  {
    FilterAll(ExampleExpenses(), OfPeriodAndType(PeriodOf(Date(2024, 2, 15)), Expense));
  }

  lemma ExampleSorted()
    ensures SortDesc([CategorySummary("housing", 4000, 40), CategorySummary("food", 6000, 60)], EntryAmount)
      == [CategorySummary("food", 6000, 60), CategorySummary("housing", 4000, 40)]
  {
    var eh := CategorySummary("housing", 4000, 40);
    var ef := CategorySummary("food", 6000, 60);
    assert [eh, ef][..1] == [eh];
    assert SortDesc([eh], EntryAmount) == [eh];
    assert Insert([eh], ef, EntryAmount) == [ef, eh];
  }

  /** The transactions of the worked example. */
  function ExampleExpenses(): seq<Transaction>
  {
    [Transaction("a", 4000, Expense, "housing", "", Date(2024, 2, 3)),
     Transaction("b", 6000, Expense, "food", "", Date(2024, 2, 4))]
  }

  /** The entries of the worked example, in Map order, before sorting. */
  lemma BreakdownExampleEntries()
    ensures var ts := ExampleExpenses();
      Entries(CategoriesOf(ts), ts, SumBy(ts, Amount)) ==
        [CategorySummary("housing", 4000, 40), CategorySummary("food", 6000, 60)]
  {
    var ts := ExampleExpenses();
    ExampleCategoriesAndTotal();
    ExampleEntry("housing", 4000, 40);
    ExampleEntry("food", 6000, 60);
    var es := Entries(["housing", "food"], ts, 10000);
    assert |es| == 2 && es[0] == Entry(ts, 10000, "housing") && es[1] == Entry(ts, 10000, "food");
  }

  lemma ExampleCategoriesAndTotal()
    ensures CategoriesOf(ExampleExpenses()) == ["housing", "food"]
    ensures SumBy(ExampleExpenses(), Amount) == 10000
  {
    var ts := ExampleExpenses();
    assert ts[..1] == [ts[0]] && [ts[0]][..0] == [];
    assert CategoriesOf([ts[0]]) == ["housing"];
    assert ts[1..] == [ts[1]];
    assert SumBy([ts[1]], Amount) == 6000;
  }

  lemma ExampleEntry(c: string, amount: int, pct: int)
    requires (c, amount, pct) == ("housing", 4000, 40) || (c, amount, pct) == ("food", 6000, 60)
    ensures Entry(ExampleExpenses(), 10000, c) == CategorySummary(c, amount, pct)
  {
    var ts := ExampleExpenses();
    var k := if c == "housing" then 0 else 1;
    assert Filter(ts, HasCategory(c)) == [ts[k]] by {
      assert ts[1..] == [ts[1]];
      assert Filter([ts[1]], HasCategory(c)) == if k == 1 then [ts[1]] else [];
    }
    assert SumBy([ts[k]], Amount) == amount;
    RoundUnique(100 * amount, 10000, pct);
  }

  // ---------------------------------------------------------------------
  // Six-month series (getMonthlyData)
  // ---------------------------------------------------------------------

  datatype MonthPoint = MonthPoint(name: string, income: int, expenses: int)

  /** A bucket of the record being filled. */
  datatype Totals = Totals(income: int, expenses: int)

  /** The month of bucket k: k = 0 is five months before `now`'s month,
      k = 5 is `now`'s month (`new Date(y, m - i, 1)` with i = 5 - k). */
  function BucketPeriod(now: Date, k: int): Period
  {
    MonthsBefore(PeriodOf(now), 5 - k)
  }

  /** The record's keys in insertion order. */
  function BucketLabels(now: Date): (r: seq<string>)
    ensures |r| == 6
  {
    seq(6, k requires 0 <= k < 6 => MonthLabel(BucketPeriod(now, k).month))
  }

  /** sixMonthsAgo: `now` with setMonth(getMonth() - 6). */
  function Cutoff(now: Date): Date
  {
    SetMonthBack(now, 6)
  }

  /** The fill rule's test: on or after the cutoff, with month label l. */
  predicate Counted(t: Transaction, now: Date, l: string)
  {
    Ordinal(t.date) >= Ordinal(Cutoff(now)) && MonthLabel(t.date.month) == l
  }

  function IncomeUnder(now: Date, l: string): Transaction -> bool
  {
    (t: Transaction) => Counted(t, now, l) && t.kind == Income
  }

  function ExpensesUnder(now: Date, l: string): Transaction -> bool
  {
    (t: Transaction) => Counted(t, now, l) && t.kind != Income
  }

  /** What the bucket labelled l holds once every transaction is processed. */
  function LabelTotals(ts: seq<Transaction>, now: Date, l: string): Totals
  {
    Totals(SumBy(Filter(ts, IncomeUnder(now, l)), Amount),
           SumBy(Filter(ts, ExpensesUnder(now, l)), Amount))
  }

  /** The `+=` of the fill loop: income to income, any other type to expenses. */
  function AddTo(b: Totals, t: Transaction): Totals
  {
    if t.kind == Income then b.(income := b.income + t.amount)
    else b.(expenses := b.expenses + t.amount)
  }

  /** Math.round on a total in cents gives whole currency units. */
  function Point(name: string, b: Totals): (p: MonthPoint)
    ensures p.name == name
    ensures 100 * (2 * p.income - 1) <= 2 * b.income < 100 * (2 * p.income + 1)
    ensures 100 * (2 * p.expenses - 1) <= 2 * b.expenses < 100 * (2 * p.expenses + 1)
  {
    MonthPoint(name, Round(b.income, 100), Round(b.expenses, 100))
  }

  /** getMonthlyData as a value. */
  function MonthlySeries(ts: seq<Transaction>, now: Date): (r: seq<MonthPoint>)
    ensures |r| == 6
  {
    seq(6, k requires 0 <= k < 6 =>
      Point(BucketLabels(now)[k], LabelTotals(ts, now, BucketLabels(now)[k])))
  }

  /** The fill rule: one more transaction changes only the bucket of its
      own month label, and only when it is dated on or after the cutoff;
      income goes to `income`, any other type to `expenses`. */
  lemma FillRule(ts: seq<Transaction>, t: Transaction, now: Date, l: string)
    ensures LabelTotals(ts + [t], now, l) ==
      if Counted(t, now, l) then AddTo(LabelTotals(ts, now, l), t) else LabelTotals(ts, now, l)
  {
    SumFilterSnoc(ts, t, IncomeUnder(now, l), Amount);
    SumFilterSnoc(ts, t, ExpensesUnder(now, l), Amount);
  }

  lemma BucketMonth(now: Date, k: int)
    requires 0 <= k < 6
    ensures BucketPeriod(now, k).month == (now.month + k + 7) % 12
    ensures k == 5 ==> BucketPeriod(now, k) == PeriodOf(now)
  {
    var p := BucketPeriod(now, k);
    var x := MonthIndex(PeriodOf(now)) - 5 + k;
    assert p.year * 12 + p.month == x;
    assert now.month + k + 7 == x - 12 * (now.year - 1);
    DivModUnique(x, p.year, p.month);
    DivModUnique(now.month + k + 7, p.year - now.year + 1, p.month);
  }

  /** The six labels are pairwise different, so the record has six keys. */
  lemma BucketLabelsDistinct(now: Date)
    ensures Distinct(BucketLabels(now))
  {
    var ls := BucketLabels(now);
    forall i, j | 0 <= i < j < 6 ensures ls[i] != ls[j] {
      MonthsBeforeDistinct(PeriodOf(now), 5 - i, 5 - j);
      MonthLabelInjective(BucketPeriod(now, i).month, BucketPeriod(now, j).month);
    }
  }

  /** The series has six points, oldest first: point k is named after the
      month k - 5 months from `now`'s month, the last after `now`'s own
      month, and no name twice. */
  lemma MonthlySeriesShape(ts: seq<Transaction>, now: Date)
    ensures var r := MonthlySeries(ts, now);
      && |r| == 6
      && (forall k :: 0 <= k < 6 ==> r[k].name == MonthLabel((now.month + k + 7) % 12))
      && r[5].name == MonthLabel(now.month)
      && (forall i, j :: 0 <= i < j < 6 ==> r[i].name != r[j].name)
  {
    var r := MonthlySeries(ts, now);
    var ls := BucketLabels(now);
    assert forall k :: 0 <= k < 6 ==> r[k].name == ls[k];
    BucketLabelMonths(now);
    BucketLabelsDistinct(now);
  }

  lemma BucketLabelMonths(now: Date)
    ensures forall k :: 0 <= k < 6 ==> BucketLabels(now)[k] == MonthLabel((now.month + k + 7) % 12)
    ensures BucketLabels(now)[5] == MonthLabel(now.month)
  {
    forall k | 0 <= k < 6 ensures BucketLabels(now)[k] == MonthLabel((now.month + k + 7) % 12) {
      BucketMonth(now, k);
    }
    BucketMonth(now, 5);
  }

  /** The record after its six keys are created, all buckets at zero. */
  method InitBuckets(now: Date) returns (names: seq<string>, data: map<string, Totals>)
    ensures names == BucketLabels(now)
    ensures forall l :: l in data <==> l in names
    ensures forall l :: l in data ==> data[l] == Totals(0, 0)
  {
    BucketLabelsDistinct(now);
    names := [];
    data := map[];
    var i := 5;
    while i >= 0
      invariant -1 <= i <= 5
      invariant names == BucketLabels(now)[..5 - i]
      invariant forall l :: l in data <==> l in names
      invariant forall l :: l in data ==> data[l] == Totals(0, 0)
    {
      var d := MonthsBefore(PeriodOf(now), i);
      var key := MonthLabel(d.month);
      assert key == BucketLabels(now)[5 - i];
      if key !in data {
        names := names + [key];
      } else {
        assert false;
      }
      data := data[key := Totals(0, 0)];
      i := i - 1;
    }
  }

  /** One step of the forEach: a transaction on or after the cutoff whose
      label is a key of the record is added to that bucket. */
  function FillOne(m: map<string, Totals>, t: Transaction, now: Date): map<string, Totals>
  {
    var key := MonthLabel(t.date.month);
    if Ordinal(t.date) >= Ordinal(Cutoff(now)) && key in m then m[key := AddTo(m[key], t)] else m
  }

  /** The record after the forEach has run over ts. */
  function Filled(ts: seq<Transaction>, now: Date, m: map<string, Totals>): map<string, Totals>
  {
    if ts == [] then m else FillOne(Filled(ts[..|ts| - 1], now, m), ts[|ts| - 1], now)
  }

  lemma FilledSnoc(ts: seq<Transaction>, t: Transaction, now: Date, m: map<string, Totals>)
    ensures Filled(ts + [t], now, m) == FillOne(Filled(ts, now, m), t, now)
  {
    assert (ts + [t])[..|ts|] == ts;
  }

  /** Starting from zeroed buckets, the forEach leaves the keys as they
      were and each bucket holding the totals of its label. */
  lemma {:induction false} FilledTotals(ts: seq<Transaction>, now: Date, m: map<string, Totals>)
    requires forall l :: l in m ==> m[l] == Totals(0, 0)
    ensures Filled(ts, now, m).Keys == m.Keys
    ensures forall l :: l in Filled(ts, now, m) ==> Filled(ts, now, m)[l] == LabelTotals(ts, now, l)
  {
    if ts != [] {
      var init := ts[..|ts| - 1];
      var t := ts[|ts| - 1];
      assert ts == init + [t];
      FilledTotals(init, now, m);
      var prev := Filled(init, now, m);
      assert Filled(ts, now, m) == FillOne(prev, t, now);
      FillOneTotals(init, t, now, prev);
    }
  }

  /** One forEach step keeps the keys and, bucket by bucket, moves from
      the totals of init to those of init + [t]. */
  lemma FillOneTotals(init: seq<Transaction>, t: Transaction, now: Date, prev: map<string, Totals>)
    requires forall l :: l in prev ==> prev[l] == LabelTotals(init, now, l)
    ensures FillOne(prev, t, now).Keys == prev.Keys
    ensures forall l :: l in prev ==> FillOne(prev, t, now)[l] == LabelTotals(init + [t], now, l)
  {
    forall l | l in prev
      ensures FillOne(prev, t, now)[l] == LabelTotals(init + [t], now, l)
    {
      FillRule(init, t, now, l);
      if Counted(t, now, l) {
        assert FillOne(prev, t, now) == prev[l := AddTo(prev[l], t)];
      } else {
        assert FillOne(prev, t, now)[l] == prev[l];
      }
    }
  }

  /** The forEach of getMonthlyData over the whole list. */
  method FillBuckets(ts: seq<Transaction>, now: Date, data0: map<string, Totals>)
    returns (data: map<string, Totals>)
    ensures data == Filled(ts, now, data0)
  {
    data := data0;
    var j := 0;
    while j < |ts|
      invariant 0 <= j <= |ts|
      invariant data == Filled(ts[..j], now, data0)
    {
      assert ts[..j + 1] == ts[..j] + [ts[j]];
      FilledSnoc(ts[..j], ts[j], now, data0);
      data := FillTransaction(data, ts[j], now);
      j := j + 1;
    }
    assert ts[..j] == ts;
  }

  /** The forEach callback: a transaction on or after the cutoff whose
      month label is a key adds its amount to that bucket, income to
      `income` and any other type to `expenses`. */
  method FillTransaction(data: map<string, Totals>, t: Transaction, now: Date)
    returns (next: map<string, Totals>)
    ensures next == FillOne(data, t, now)
  {
    next := data;
    var sixMonthsAgo := Cutoff(now);
    if Ordinal(t.date) >= Ordinal(sixMonthsAgo) {
      var key := MonthLabel(t.date.month);
      if key in next {
        if t.kind == Income {
          next := next[key := next[key].(income := next[key].income + t.amount)];
        } else {
          next := next[key := next[key].(expenses := next[key].expenses + t.amount)];
        }
      }
    }
  }

  /** getMonthlyData with the clock reading given as `now`: create the six
      buckets, fill them, then list them in key order with rounded totals. */
  method GetMonthlyData(ts: seq<Transaction>, now: Date) returns (series: seq<MonthPoint>)
    ensures series == MonthlySeries(ts, now)
  {
    var names, data0 := InitBuckets(now);
    var data := FillBuckets(ts, now, data0);
    FilledTotals(ts, now, data0);
    series := ListBuckets(ts, now, names, data);
  }

  /** Object.entries(...).map(...): the buckets in key order, totals
      rounded to whole units. */
  method ListBuckets(ts: seq<Transaction>, now: Date, names: seq<string>, data: map<string, Totals>)
    returns (series: seq<MonthPoint>)
    requires names == BucketLabels(now)
    requires forall l :: l in names ==> l in data && data[l] == LabelTotals(ts, now, l)
    ensures series == MonthlySeries(ts, now)
  {
    series := [];
    var k := 0;
    while k < |names|
      invariant 0 <= k <= |names|
      invariant series == MonthlySeries(ts, now)[..k]
    {
      var l := names[k];
      ghost var expected := MonthlySeries(ts, now);
      assert expected[k] == Point(l, data[l]);
      assert expected[..k + 1] == expected[..k] + [expected[k]];
      series := series + [MonthPoint(l, Round(data[l].income, 100), Round(data[l].expenses, 100))];
      k := k + 1;
    }
  }

  // ---------------------------------------------------------------------
  // The series keyed by calendar month
  // ---------------------------------------------------------------------

  /** What a bucket standing for calendar month p is meant to hold. */
  function PeriodTotals(ts: seq<Transaction>, p: Period): Totals
  {
    Totals(PeriodTotal(ts, p, Income), PeriodTotal(ts, p, Expense))
  }

  /** The six-month series with each bucket keyed by (year, month) and only
      its name taken from the label table. */
  function MonthlySeriesByPeriod(ts: seq<Transaction>, now: Date): (r: seq<MonthPoint>)
    ensures |r| == 6
  {
    seq(6, k requires 0 <= k < 6 =>
      Point(BucketLabels(now)[k], PeriodTotals(ts, BucketPeriod(now, k))))
  }

  /** Keyed by calendar month, a transaction changes exactly the bucket of
      its own month, whatever its date relative to `now`, and at most one
      bucket. */
  lemma ByPeriodFillRule(ts: seq<Transaction>, t: Transaction, p: Period, now: Date)
    ensures PeriodTotals(ts + [t], p) ==
      if PeriodOf(t.date) == p then AddTo(PeriodTotals(ts, p), t) else PeriodTotals(ts, p)
    ensures forall i, j :: 0 <= i < j < 6 ==>
      !(PeriodOf(t.date) == BucketPeriod(now, i) && PeriodOf(t.date) == BucketPeriod(now, j))
  {
    SumFilterSnoc(ts, t, OfPeriodAndType(p, Income), Amount);
    SumFilterSnoc(ts, t, OfPeriodAndType(p, Expense), Amount);
  }

  /** For a transaction not dated after `now`, and when `now`'s day exists
      six months earlier, the label test with the cutoff picks out exactly
      the transactions of bucket k's month. */
  lemma CountedIffInBucket(t: Transaction, now: Date, k: int)
    requires 0 <= k < 6
    requires Ordinal(t.date) <= Ordinal(now)
    requires var s := MonthsBefore(PeriodOf(now), 6); now.day <= DaysInMonth(s.year, s.month)
    ensures Counted(t, now, BucketLabels(now)[k]) <==> PeriodOf(t.date) == BucketPeriod(now, k)
  {
    var n := MonthIndex(PeriodOf(now));
    var b := BucketPeriod(now, k);
    var m := MonthIndex(PeriodOf(t.date));
    assert MonthIndex(PeriodOf(Cutoff(now))) == n - 6;
    assert m <= n;
    if Counted(t, now, BucketLabels(now)[k]) {
      assert m >= n - 6;
      MonthLabelInjective(t.date.month, b.month);
      assert m - MonthIndex(b) == 12 * (t.date.year - b.year);
    }
  }

  /** When no transaction is dated after `now` and `now`'s day exists six
      months earlier, the label-keyed series and the month-keyed one agree. */
  lemma SeriesAgreeOnPastWindow(ts: seq<Transaction>, now: Date)
    requires forall t :: t in ts ==> Ordinal(t.date) <= Ordinal(now)
    requires var s := MonthsBefore(PeriodOf(now), 6); now.day <= DaysInMonth(s.year, s.month)
    ensures MonthlySeries(ts, now) == MonthlySeriesByPeriod(ts, now)
  {
    forall k | 0 <= k < 6
      ensures MonthlySeries(ts, now)[k] == MonthlySeriesByPeriod(ts, now)[k]
    {
      BucketAgrees(ts, now, k);
    }
  }

  lemma BucketAgrees(ts: seq<Transaction>, now: Date, k: int)
    requires 0 <= k < 6
    requires forall t :: t in ts ==> Ordinal(t.date) <= Ordinal(now)
    requires var s := MonthsBefore(PeriodOf(now), 6); now.day <= DaysInMonth(s.year, s.month)
    ensures LabelTotals(ts, now, BucketLabels(now)[k]) == PeriodTotals(ts, BucketPeriod(now, k))
  {
    var l := BucketLabels(now)[k];
    var p := BucketPeriod(now, k);
    forall t | t in ts
      ensures IncomeUnder(now, l)(t) == OfPeriodAndType(p, Income)(t)
      ensures ExpensesUnder(now, l)(t) == OfPeriodAndType(p, Expense)(t)
    {
      CountedIffInBucket(t, now, k);
    }
    FilterExt(ts, IncomeUnder(now, l), OfPeriodAndType(p, Income));
    FilterExt(ts, ExpensesUnder(now, l), OfPeriodAndType(p, Expense));
  }

  /** As written, a transaction dated seven months after `now` lands in the
      bucket of the same-named month of the previous year: on 15 January
      2025, an expense of 50.00 dated 10 August 2025 shows up in the
      "Aug" bucket, which stands for August 2024. */
  lemma FutureDatedAliases()
    ensures var now := Date(2025, 0, 15);
      var ts := [Transaction("x", 5000, Expense, "food", "", Date(2025, 7, 10))];
      && BucketPeriod(now, 0) == Period(2024, 7)
      && MonthlySeries(ts, now)[0] == MonthPoint("Aug", 0, 50)
      && MonthlySeriesByPeriod(ts, now)[0] == MonthPoint("Aug", 0, 0)
  {
    var now := Date(2025, 0, 15);
    var t := Transaction("x", 5000, Expense, "food", "", Date(2025, 7, 10));
    DivModUnique(2024 * 12 + 7, 2024, 7);
    DivModUnique(2024 * 12 + 6, 2024, 6);
    assert Cutoff(now) == Date(2024, 6, 15);
    assert Counted(t, now, "Aug");
    assert Filter([t], ExpensesUnder(now, "Aug")) == [t];
    assert Filter([t], OfPeriodAndType(Period(2024, 7), Expense)) == [];
    RoundUnique(5000, 100, 50);
    RoundUnique(0, 100, 0);
  }

  /** As written, on the 31st of a month whose sixth predecessor is
      shorter, setMonth overflows and the cutoff falls inside the oldest
      bucket's month: on 31 August 2025 the cutoff is 3 March 2025, so an
      expense of 50.00 dated 1 March 2025 is missing from the "Mar" bucket. */
  lemma MonthEndCutoffDropsDays()
    ensures var now := Date(2025, 7, 31);
      var ts := [Transaction("x", 5000, Expense, "rent", "", Date(2025, 2, 1))];
      && Cutoff(now) == Date(2025, 2, 3)
      && BucketPeriod(now, 0) == Period(2025, 2)
      && MonthlySeries(ts, now)[0] == MonthPoint("Mar", 0, 0)
      && MonthlySeriesByPeriod(ts, now)[0] == MonthPoint("Mar", 0, 50)
  {
    MonthEndCutoff();
    MonthEndLabelBucket();
    MonthEndMonthBucket();
  }

  function MonthEndExpense(): Transaction
  {
    Transaction("x", 5000, Expense, "rent", "", Date(2025, 2, 1))
  }

  lemma MonthEndLabelBucket()
    ensures MonthlySeries([MonthEndExpense()], Date(2025, 7, 31))[0] == MonthPoint("Mar", 0, 0)
  {
    var now := Date(2025, 7, 31);
    var t := MonthEndExpense();
    MonthEndCutoff();
    assert BucketLabels(now)[0] == "Mar";
    assert LabelTotals([t], now, "Mar") == Totals(0, 0) by {
      assert !Counted(t, now, "Mar");
      assert Filter([t], ExpensesUnder(now, "Mar")) == [];
    }
    RoundUnique(0, 100, 0);
  }

  lemma MonthEndMonthBucket()
    ensures MonthlySeriesByPeriod([MonthEndExpense()], Date(2025, 7, 31))[0] == MonthPoint("Mar", 0, 50)
  {
    var now := Date(2025, 7, 31);
    var t := MonthEndExpense();
    MonthEndCutoff();
    assert BucketLabels(now)[0] == "Mar";
    assert PeriodTotals([t], Period(2025, 2)) == Totals(0, 5000) by {
      assert Filter([t], OfPeriodAndType(Period(2025, 2), Expense)) == [t];
    }
    RoundUnique(0, 100, 0);
    RoundUnique(5000, 100, 50);
  }

  lemma MonthEndCutoff()
    ensures Cutoff(Date(2025, 7, 31)) == Date(2025, 2, 3)
    ensures BucketPeriod(Date(2025, 7, 31), 0) == Period(2025, 2)
  {
    DivModUnique(2025 * 12 + 2, 2025, 2);
    DivModUnique(2025 * 12 + 1, 2025, 1);
  }
}
