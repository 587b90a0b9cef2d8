/** The transactions page: the list sorted newest first and the
    case-insensitive search over description and category. */
module TransactionsPage {
  import opened Seqs
  import opened Sorting
  import opened Text
  import opened Types

  /** [...transactions].sort by date, most recent first: a sorted
      rearrangement of a copy, so the hook's list itself is untouched. */
  function SortedTransactions(ts: seq<Transaction>): (r: seq<Transaction>)
    ensures multiset(r) == multiset(ts)
    ensures SortedDesc(r, Time)
  {
    SortDesc(ts, Time)
  }

  /** The search test: the lower-cased term occurs in the lower-cased
      description or category. */
  predicate MatchesSearch(t: Transaction, term: string)
  {
    Contains(Lower(t.description), Lower(term)) || Contains(Lower(t.category), Lower(term))
  }

  function SearchFilter(term: string): Transaction -> bool
  {
    (t: Transaction) => MatchesSearch(t, term)
  }

  function FilteredTransactions(ts: seq<Transaction>, term: string): seq<Transaction>
  {
    Filter(SortedTransactions(ts), SearchFilter(term))
  }

  /** The shown list holds exactly the matching transactions, newest first,
      in the order of the sorted list. */
  lemma FilteredTransactionsSpec(ts: seq<Transaction>, term: string)
    ensures forall t :: t in FilteredTransactions(ts, term) <==> t in ts && MatchesSearch(t, term)
    ensures SortedDesc(FilteredTransactions(ts, term), Time)
    ensures IsSubsequence(FilteredTransactions(ts, term), SortedTransactions(ts))
  {
    PermutationMembers(SortedTransactions(ts), ts);
    FilterKeepsSorted(SortedTransactions(ts), SearchFilter(term), Time);
    FilterIsSubsequence(SortedTransactions(ts), SearchFilter(term));
  }

  /** An empty search shows every transaction. */
  lemma EmptySearchShowsAll(ts: seq<Transaction>)
    ensures FilteredTransactions(ts, "") == SortedTransactions(ts)
  {
    forall t ensures MatchesSearch(t, "") {
      assert OccursAt(Lower(t.description), "", 0);
    }
    FilterAll(SortedTransactions(ts), SearchFilter(""));
  }

  /** The search ignores the case of the term. */
  lemma SearchIgnoresCase(ts: seq<Transaction>, term: string)
    ensures FilteredTransactions(ts, Upper(term)) == FilteredTransactions(ts, term)
    ensures FilteredTransactions(ts, Lower(term)) == FilteredTransactions(ts, term)
  {
    LowerOfUpper(term);
    LowerIdempotent(term);
    FilterExt(SortedTransactions(ts), SearchFilter(Upper(term)), SearchFilter(term));
    FilterExt(SortedTransactions(ts), SearchFilter(Lower(term)), SearchFilter(term));
  }

  /** "GRO" finds a transaction in the groceries category. */
  lemma SearchByCategoryExample()
    ensures MatchesSearch(Transaction("t", 2500, Expense, "groceries", "", Calendar.Date(2025, 2, 3)), "GRO")
  {
    assert Lower("GRO") == "gro";
    assert OccursAt(Lower("groceries"), "gro", 0);
  }
}
