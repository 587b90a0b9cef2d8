/** The dashboard component: the goal overview (overall percentage and
    completion rate) and the truncated goal and transaction lists. */
module Dashboard {
  import opened Wrappers
  import opened Arith
  import opened Seqs
  import opened Types
  import opened GoalsPage

  /** The overall goal percentage shown on the dashboard is the one the
      goals page shows. */
  function GoalPercentage(gs: seq<Goal>): (r: int)
    ensures r == TotalPercentage(gs)
  {
    if TotalTarget(gs) > 0 then Round(100 * TotalCurrent(gs), TotalTarget(gs)) else 0
  }

  /** The share of goals that are completed, as a rounded percentage;
      0 when there are no goals. */
  function CompletionRate(gs: seq<Goal>): (r: int)
    ensures gs == [] ==> r == 0
    ensures 0 <= r <= 100
    ensures gs != [] ==> |gs| * (2 * r - 1) <= 200 * |CompletedGoals(gs)| < |gs| * (2 * r + 1)
  {
    if |gs| > 0 then
      var n := |CompletedGoals(gs)|;
      RoundAtMost(100 * n, |gs|, 100);
      RoundAtLeast(100 * n, |gs|, 0);
      Round(100 * n, |gs|)
    else 0
  }

  /** All goals completed shows 100. */
  lemma CompletionRateAllCompleted(gs: seq<Goal>)
    requires gs != [] && forall g :: g in gs ==> IsCompleted(g)
    ensures CompletionRate(gs) == 100
  {
    FilterAll(gs, IsCompleted);
    RoundUnique(100 * |gs|, |gs|, 100);
  }

  /** No goal completed shows 0. */
  lemma CompletionRateNoneCompleted(gs: seq<Goal>)
    requires forall g :: g in gs ==> !IsCompleted(g)
    ensures CompletionRate(gs) == 0
  {
    FilterNone(gs, IsCompleted);
    if gs != [] {
      RoundUnique(0, |gs|, 0);
    }
  }

  /** One completed goal of three shows 33. */
  lemma CompletionRateExample()
    ensures CompletionRate([Goal("a", "A", "", 100, 100, None),
                            Goal("b", "B", "", 100, 0, None),
                            Goal("c", "C", "", 100, 50, None)]) == 33
  {
    var gs := [Goal("a", "A", "", 100, 100, None),
               Goal("b", "B", "", 100, 0, None),
               Goal("c", "C", "", 100, 50, None)];
    assert gs[1..] == [gs[1], gs[2]];
    assert CompletedGoals(gs) == [gs[0]];
    RoundUnique(100, 3, 33);
  }

  const GoalLimit := 2
  const TransactionLimit := 5

  function DisplayGoals(gs: seq<Goal>): seq<Goal> { SliceTo(gs, GoalLimit) }

  predicate HasMoreGoals(gs: seq<Goal>) { |gs| > GoalLimit }

  function DisplayTransactions(ts: seq<Transaction>): seq<Transaction> { SliceTo(ts, TransactionLimit) }

  predicate HasMoreTransactions(ts: seq<Transaction>) { |ts| > TransactionLimit }

  /** The dashboard shows the first two goals, and the "view all" link
      appears exactly when some goal is not shown. */
  lemma DisplayGoalsShape(gs: seq<Goal>)
    ensures DisplayGoals(gs) == gs[..|DisplayGoals(gs)|]
    ensures |DisplayGoals(gs)| == Min(|gs|, 2)
    ensures HasMoreGoals(gs) <==> |DisplayGoals(gs)| < |gs|
  {
  }

  /** The dashboard shows the first five transactions, and the "view all"
      link appears exactly when some transaction is not shown. */
  lemma DisplayTransactionsShape(ts: seq<Transaction>)
    ensures DisplayTransactions(ts) == ts[..|DisplayTransactions(ts)|]
    ensures |DisplayTransactions(ts)| == Min(|ts|, 5)
    ensures HasMoreTransactions(ts) <==> |DisplayTransactions(ts)| < |ts|
  {
  }
}
