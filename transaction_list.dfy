/** The transaction list component: how many rows it shows, the text of
    each row, and the deleting-id state around a delete. */
module TransactionList {
  import opened Wrappers
  import opened Arith
  import opened Seqs
  import opened Text
  import opened Types
  import opened TransactionsHook

  /** `limit ? transactions.slice(0, limit) : transactions`: a missing or
      zero limit shows everything, a positive one the first `limit` rows,
      and a negative one (slice from the end) all but the last -limit. */
  function LimitedTransactions(ts: seq<Transaction>, limit: Option<int>): (r: seq<Transaction>)
    ensures |r| <= |ts| && r == ts[..|r|]
    ensures limit.None? || limit.value == 0 ==> r == ts
    ensures limit.Some? && limit.value > 0 ==> |r| == Min(limit.value, |ts|)
    ensures limit.Some? && limit.value < 0 ==> |r| == if |ts| + limit.value > 0 then |ts| + limit.value else 0
  {
    if limit.None? || limit.value == 0 then ts else SliceTo(ts, limit.value)
  }

  /** The row title: the description, or the type's name when the
      description is empty. */
  function RowTitle(t: Transaction): (r: string)
    ensures t.description != "" ==> r == t.description
    ensures t.description == "" ==> r == (if t.kind == Income then "Income" else "Expense")
  {
    if t.description != "" then t.description
    else if t.kind == Income then "Income" else "Expense"
  }

  /** Every row has a visible title. */
  lemma RowTitleNonEmpty(t: Transaction)
    ensures |RowTitle(t)| > 0
  {
  }

  /** The sign in front of the amount: "+" for income, "-" otherwise. */
  function AmountPrefix(kind: TxType): (r: string)
    ensures r == "+" <==> kind == Income
    ensures r == "-" <==> kind != Income
  {
    if kind == Income then "+" else "-"
  }

  /** The category text: the first '-' becomes a space. */
  function CategoryText(category: string): (r: string)
    ensures |r| == |category|
  {
    ReplaceFirst(category, '-', ' ')
  }

  /** The first '-' of the category becomes a space, no other character
      changes, and every later '-' stays. */
  lemma CategoryTextReplacesFirstOnly(category: string)
    ensures forall i, j :: 0 <= i < j < |category| && CategoryText(category)[i] != category[i] ==>
      CategoryText(category)[j] == category[j]
    ensures forall i :: 0 <= i < |category| && CategoryText(category)[i] != category[i] ==>
      category[i] == '-' && CategoryText(category)[i] == ' '
    ensures forall i :: 0 <= i < |category| && category[i] == '-' && '-' !in category[..i] ==>
      CategoryText(category)[i] == ' '
  {
    var r := CategoryText(category);
    forall i | 0 <= i < |category| && category[i] == '-' && '-' !in category[..i]
      ensures r[i] == ' '
    {
      ReplaceFirstAt(category, '-', ' ', i);
    }
    forall i | 0 <= i < |category| && r[i] != category[i]
      ensures category[i] == '-' && r[i] == ' '
    {
      ReplaceFirstAt(category, '-', ' ', i);
    }
    forall i, j | 0 <= i < j < |category| && r[i] != category[i] ensures r[j] == category[j] {
      ReplaceFirstAt(category, '-', ' ', i);
      ReplaceFirstAt(category, '-', ' ', j);
      assert category[..j][i] == '-';
    }
  }

  /** Of "a-b-c" only the first dash is replaced. */
  lemma CategoryTextExample()
    ensures CategoryText("a-b-c") == "a b-c"
  {
    assert "a-b-c"[1..] == "-b-c" && "-b-c"[1..] == "b-c";
    assert ReplaceFirst("-b-c", '-', ' ') == [' '] + "b-c";
    assert ReplaceFirst("a-b-c", '-', ' ') == ['a'] + ([' '] + "b-c");
  }

  /** The delete buttons are disabled while some delete is in flight:
      `!!deletingId` is false for null and for the empty id. */
  predicate ButtonsDisabled(deletingId: Option<string>)
  {
    deletingId.Some? && deletingId.value != ""
  }

  class TransactionListState {
    var deletingId: Option<string>

    constructor ()
      ensures deletingId == None
    {
      deletingId := None;
    }

    /** The spinner replaces the trash icon on the row being deleted. */
    predicate ShowsSpinner(t: Transaction)
      reads this
    {
      deletingId == Some(t.id)
    }

    /** handleDelete: the id is marked as deleting while the delete runs
        (`during` is the state the delete sees), then cleared whatever the
        outcome. */
    method HandleDelete(store: TransactionStore, id: string, ok: bool)
      returns (ghost during: Option<string>)
      modifies this, store
      ensures during == Some(id)
      ensures ButtonsDisabled(during) <==> id != ""
      ensures deletingId == None && !ButtonsDisabled(deletingId)
      ensures ok ==> store.transactions == WithoutId(old(store.transactions), id)
      ensures !ok ==> store.transactions == old(store.transactions)
    {
      deletingId := Some(id);
      during := deletingId;
      var _ := store.DeleteTransaction(id, ok);
      deletingId := None;
    }
  }
}
