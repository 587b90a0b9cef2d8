/** The shared helpers: the category label table and its lookup, the
    choice of suffix in the compact number format, and the list of
    selectable transaction categories. */
module Utils {
  import opened Seqs
  import opened Types

  /** The fixed label of each of the 14 known category keys. */
  const CategoryLabels: map<string, string> := map[
    "salary" := "Salary",
    "investment" := "Investment",
    "gift" := "Gift",
    "other-income" := "Other Income",
    "food" := "Food",
    "housing" := "Housing",
    "transportation" := "Transportation",
    "utilities" := "Utilities",
    "healthcare" := "Healthcare",
    "entertainment" := "Entertainment",
    "education" := "Education",
    "shopping" := "Shopping",
    "personal" := "Personal",
    "other-expense" := "Other Expense"
  ]

  /** getCategoryLabel: the table's label, falling back to the key itself
      when the table has no (non-empty) label for it. */
  function CategoryLabel(category: string): (r: string)
    ensures category in CategoryLabels ==> r == CategoryLabels[category]
    ensures category !in CategoryLabels ==> r == category
  {
    if category in CategoryLabels && CategoryLabels[category] != "" then CategoryLabels[category]
    else category
  }

  /** The branch formatNumber takes: millions, thousands or the number as
      it is (which covers every negative value). */
  datatype Scale = Millions | Thousands | Plain

  function FormatScale(value: real): (r: Scale)
    ensures r == Millions <==> value >= 1000000.0
    ensures r == Thousands <==> 1000.0 <= value < 1000000.0
    ensures r == Plain <==> value < 1000.0
  {
    if value >= 1000000.0 then Millions
    else if value >= 1000.0 then Thousands
    else Plain
  }

  function Suffix(s: Scale): string
  {
    match s
    case Millions => "M"
    case Thousands => "K"
    case Plain => ""
  }

  /** The divisor applied before the one-decimal rendering. */
  function Divisor(s: Scale): (r: real)
    ensures r > 0.0
  {
    match s
    case Millions => 1000000.0
    case Thousands => 1000.0
    case Plain => 1.0
  }

  /** A suffixed value shows at least 1.0 of its unit, and below 1000 of
      it for the "K" suffix, so every non-negative value gets exactly one
      reading. */
  lemma FormatScaleUnit(value: real)
    ensures FormatScale(value) != Plain ==> value / Divisor(FormatScale(value)) >= 1.0
    ensures FormatScale(value) == Thousands ==> value / Divisor(FormatScale(value)) < 1000.0
    ensures Suffix(FormatScale(value)) == "" <==> value < 1000.0
  {
  }

  datatype CategoryOption = CategoryOption(kind: TxType, value: string, name: string)

  function OptionValue(o: CategoryOption): string { o.value }

  /** TRANSACTION_CATEGORIES: the four income categories, then the ten
      expense categories. */
  const TransactionCategories: seq<CategoryOption> := [
    CategoryOption(Income, "salary", "Salary"),
    CategoryOption(Income, "investment", "Investment"),
    CategoryOption(Income, "gift", "Gift"),
    CategoryOption(Income, "other-income", "Other Income"),
    CategoryOption(Expense, "food", "Food"),
    CategoryOption(Expense, "housing", "Housing"),
    CategoryOption(Expense, "transportation", "Transportation"),
    CategoryOption(Expense, "utilities", "Utilities"),
    CategoryOption(Expense, "healthcare", "Healthcare"),
    CategoryOption(Expense, "entertainment", "Entertainment"),
    CategoryOption(Expense, "education", "Education"),
    CategoryOption(Expense, "shopping", "Shopping"),
    CategoryOption(Expense, "personal", "Personal"),
    CategoryOption(Expense, "other-expense", "Other Expense")
  ]

  function CategoryValues(os: seq<CategoryOption>): (r: seq<string>)
    ensures |r| == |os|
    ensures forall i :: 0 <= i < |os| ==> r[i] == os[i].value
  {
    seq(|os|, i requires 0 <= i < |os| => os[i].value)
  }

  /** Four income entries followed by ten expense entries, no value twice. */
  lemma TransactionCategoriesShape()
    ensures |TransactionCategories| == 14
    ensures forall i :: 0 <= i < 4 ==> TransactionCategories[i].kind == Income
    ensures forall i :: 4 <= i < 14 ==> TransactionCategories[i].kind == Expense
    ensures Distinct(CategoryValues(TransactionCategories))
  {
  }

  /** Each option's name is the label the lookup gives for its value. */
  lemma TransactionCategoriesLabels()
    ensures forall o :: o in TransactionCategories ==> CategoryLabel(o.value) == o.name
  {
    forall i | 0 <= i < |TransactionCategories|
      ensures CategoryLabel(TransactionCategories[i].value) == TransactionCategories[i].name
    {
      var o := TransactionCategories[i];
      assert o.value in CategoryLabels && CategoryLabels[o.value] == o.name;
    }
  }
}
