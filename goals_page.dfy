/** The savings-goals page: the overall totals and percentage, and the
    split into completed and in-progress goals. */
module GoalsPage {
  import opened Wrappers
  import opened Arith
  import opened Seqs
  import opened Types
  import opened GoalsHook

  function TotalTarget(gs: seq<Goal>): int { SumBy(gs, Target) }

  function TotalCurrent(gs: seq<Goal>): int { SumBy(gs, Current) }

  /** The overall progress: current over target as a rounded percentage,
      0 when the targets do not add up to something positive. */
  function TotalPercentage(gs: seq<Goal>): (r: int)
    ensures TotalTarget(gs) <= 0 ==> r == 0
    ensures TotalTarget(gs) > 0 ==>
      TotalTarget(gs) * (2 * r - 1) <= 200 * TotalCurrent(gs) < TotalTarget(gs) * (2 * r + 1)
  {
    if TotalTarget(gs) > 0 then Round(100 * TotalCurrent(gs), TotalTarget(gs)) else 0
  }

  /** Adding a goal adds its target and its saved amount to the totals. */
  lemma TotalsSnoc(gs: seq<Goal>, g: Goal)
    ensures TotalTarget(gs + [g]) == TotalTarget(gs) + g.target
    ensures TotalCurrent(gs + [g]) == TotalCurrent(gs) + g.current
  {
    SumByConcat(gs, [g], Target);
    SumByConcat(gs, [g], Current);
  }

  /** While every goal has a non-negative saved amount at most its target,
      the overall percentage stays within 0..100. */
  lemma TotalPercentageBounds(gs: seq<Goal>)
    requires WithinTarget(gs)
    requires forall g :: g in gs ==> g.current >= 0
    ensures 0 <= TotalPercentage(gs) <= 100
  {
    SumByMono(gs, Current, Target);
    SumByNonNegative(gs, Current);
    if TotalTarget(gs) > 0 {
      RoundAtMost(100 * TotalCurrent(gs), TotalTarget(gs), 100);
      RoundAtLeast(100 * TotalCurrent(gs), TotalTarget(gs), 0);
    }
  }

  /** The overall percentage is not capped: a goal saved past its target
      shows above 100. */
  lemma TotalPercentageNotCapped()
    ensures TotalPercentage([Goal("g", "Car", "", 10000, 15000, None)]) == 150
  {
    var gs := [Goal("g", "Car", "", 10000, 15000, None)];
    assert TotalTarget(gs) == 10000 && TotalCurrent(gs) == 15000;
    RoundUnique(1500000, 10000, 150);
  }

  function CompletedGoals(gs: seq<Goal>): seq<Goal> { Filter(gs, IsCompleted) }

  function IncompleteGoals(gs: seq<Goal>): seq<Goal> { Filter(gs, IsIncomplete) }

  /** Every goal is shown in exactly one of the two lists, in its original
      order, and the two lists together hold the goals exactly once. */
  lemma GoalsPartition(gs: seq<Goal>)
    ensures forall g :: g in CompletedGoals(gs) <==> g in gs && g.current >= g.target
    ensures forall g :: g in IncompleteGoals(gs) <==> g in gs && g.current < g.target
    ensures IsSubsequence(CompletedGoals(gs), gs) && IsSubsequence(IncompleteGoals(gs), gs)
    ensures multiset(CompletedGoals(gs)) + multiset(IncompleteGoals(gs)) == multiset(gs)
    ensures |CompletedGoals(gs)| + |IncompleteGoals(gs)| == |gs|
    ensures |CompletedGoals(gs)| <= |gs|
  {
    FilterPartition(gs, IsCompleted, IsIncomplete);
    FilterIsSubsequence(gs, IsCompleted);
    FilterIsSubsequence(gs, IsIncomplete);
  }
}
