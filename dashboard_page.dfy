/** The dashboard page: the transactions handed to the dashboard, newest
    first, and what the dashboard then shows of them. */
module DashboardPage {
  import opened Arith
  import opened Seqs
  import opened Sorting
  import opened Types
  import opened Dashboard

  /** [...transactions].sort by date, most recent first; nothing is cut. */
  function RecentTransactions(ts: seq<Transaction>): (r: seq<Transaction>)
    ensures |r| == |ts|
    ensures multiset(r) == multiset(ts)
    ensures SortedDesc(r, Time)
  {
    SortDesc(ts, Time)
  }

  /** The dashboard shows the newest transactions: the shown ones and the
      hidden ones together are all of them, and none of the hidden ones is
      more recent than a shown one. */
  lemma DashboardShowsNewest(ts: seq<Transaction>)
    ensures var shown := DisplayTransactions(RecentTransactions(ts));
      var hidden := RecentTransactions(ts)[|shown|..];
      && |shown| == Min(|ts|, 5)
      && multiset(shown) + multiset(hidden) == multiset(ts)
      && (forall i, j :: 0 <= i < |shown| && 0 <= j < |hidden| ==> Time(shown[i]) >= Time(hidden[j]))
  {
    var r := RecentTransactions(ts);
    var shown := DisplayTransactions(r);
    var hidden := r[|shown|..];
    assert r == shown + hidden;
    forall i, j | 0 <= i < |shown| && 0 <= j < |hidden| ensures Time(shown[i]) >= Time(hidden[j]) {
      assert shown[i] == r[i] && hidden[j] == r[|shown| + j];
    }
  }
}
