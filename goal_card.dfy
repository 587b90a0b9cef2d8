/** The goal card: the capped progress percentage, the completion test,
    the contribution list shown for a goal, and the contribute handler's
    validation and state changes. */
module GoalCard {
  import opened Wrappers
  import opened Arith
  import opened Types
  import opened GoalsHook

  /** A JavaScript number as the percentage expression can produce it:
      dividing by a target of 0 yields Infinity (capped to 100 by the
      minimum), NaN for 0 / 0, or -Infinity. */
  datatype Percent = Finite(value: int) | NaN | MinusInfinity

  /** Math.min(Math.round(current / target * 100), 100). */
  function Percentage(g: Goal): (r: Percent)
    ensures r.Finite? ==> r.value <= 100
    ensures g.target == 0 ==> r == if g.current > 0 then Finite(100) else if g.current == 0 then NaN else MinusInfinity
    ensures g.target != 0 ==> r.Finite?
  {
    if g.target == 0 then
      (if g.current > 0 then Finite(100) else if g.current == 0 then NaN else MinusInfinity)
    else Finite(Min(Round(100 * g.current, g.target), 100))
  }

  /** For a positive target the percentage is 100 exactly when the share
      reaches 99.5, and below that it is the share rounded to the nearest
      integer; completion shows as 100. */
  lemma PercentageOfPositiveTarget(g: Goal)
    requires g.target > 0
    ensures var p := Percentage(g).value;
      && (p == 100 <==> 199 * g.target <= 200 * g.current)
      && (p < 100 ==> g.target * (2 * p - 1) <= 200 * g.current < g.target * (2 * p + 1))
      && (IsCompleted(g) ==> p == 100)
      && (p < 100 ==> !IsCompleted(g))
      && (g.current >= 0 ==> p >= 0)
  {
    var q := Round(100 * g.current, g.target);
    if q >= 100 {
      MulMono(g.target, 199, 2 * q - 1);
    } else {
      MulMono(g.target, 2 * q + 1, 199);
    }
    if IsCompleted(g) {
      RoundAtLeast(100 * g.current, g.target, 100);
    }
    if g.current >= 0 {
      RoundAtLeast(100 * g.current, g.target, 0);
    }
  }

  /** For a negative target the quotient's signs flip: the percentage is
      100 exactly when current / target reaches 0.995, and below that it is
      current / target * 100 rounded to the nearest integer. */
  lemma PercentageOfNegativeTarget(g: Goal)
    requires g.target < 0
    ensures var p := Percentage(g).value;
      && (p == 100 <==> -199 * g.target <= -200 * g.current)
      && (p < 100 ==> -g.target * (2 * p - 1) <= -200 * g.current < -g.target * (2 * p + 1))
  {
    var q := Round(100 * g.current, g.target);
    if q >= 100 {
      MulMono(-g.target, 199, 2 * q - 1);
    } else {
      MulMono(-g.target, 2 * q + 1, 199);
    }
  }

  /** 100 percent does not mean completed: 99.95 of 100.00 rounds to 100. */
  lemma FullButNotCompleted()
    ensures var g := Goal("g", "Trip", "", 10000, 9995, None);
      Percentage(g) == Finite(100) && !IsCompleted(g)
  {
    RoundUnique(999500, 10000, 100);
  }

  /** contributions[goal.id] || []. */
  function GoalContributions(m: map<string, seq<Contribution>>, id: string): (r: seq<Contribution>)
    ensures id in m ==> r == m[id]
    ensures id !in m ==> r == []
  {
    if id in m then m[id] else []
  }

  /** The guard of handleContribute: the text is non-empty and parses
      (`parsed`, None for NaN) to a positive amount. */
  predicate ValidAmount(text: string, parsed: Option<int>)
  {
    text != "" && parsed.Some? && parsed.value > 0
  }

  /** Whether updateGoalProgress reports success: the goal is in the list,
      the user is signed in, and both backend writes succeed. */
  predicate Succeeds(gs: seq<Goal>, id: string, authenticated: bool, contributionOk: bool, updateOk: bool)
  {
    FindGoal(gs, id).Some? && authenticated && contributionOk && updateOk
  }

  class GoalCardState {
    var amount: string
    var loading: bool
    var isDialogOpen: bool

    constructor ()
      ensures amount == "" && !loading && !isDialogOpen
    {
      amount := "";
      loading := false;
      isDialogOpen := false;
    }

    /** The dialog-open effect: it runs when `isDialogOpen` changes, and
        a change to open refreshes the goal's contributions (`fetched` is
        the query's rows, None on failure). Re-opening an open dialog
        changes no dependency, so nothing is fetched. */
    method SetDialogOpen(open: bool, store: GoalStore, goal: Goal, fetched: Option<seq<Contribution>>)
      modifies this, store
      ensures isDialogOpen == open && amount == old(amount) && loading == old(loading)
      ensures store.goals == old(store.goals)
      ensures open && !old(isDialogOpen) && fetched.Some? ==>
        store.contributions == old(store.contributions)[goal.id := fetched.value]
      ensures !open || old(isDialogOpen) || fetched.None? ==> store.contributions == old(store.contributions)
    {
      var opening := open && !isDialogOpen;
      isDialogOpen := open;
      if opening {
        var _ := store.FetchGoalContributions(goal.id, fetched);
      }
    }

    /** handleContribute: nothing happens unless the amount is valid;
        otherwise the progress update runs, and on success the amount is
        cleared and the dialog closed; loading ends false either way. */
    method HandleContribute(store: GoalStore, goal: Goal, parsed: Option<int>,
                            authenticated: bool, contributionOk: bool, updateOk: bool,
                            fetched: Option<seq<Contribution>>)
      modifies this, store
      ensures !ValidAmount(old(amount), parsed) ==>
        amount == old(amount) && loading == old(loading) && isDialogOpen == old(isDialogOpen)
        && store.goals == old(store.goals) && store.contributions == old(store.contributions)
      ensures ValidAmount(old(amount), parsed) ==> !loading
      ensures ValidAmount(old(amount), parsed) && Succeeds(old(store.goals), goal.id, authenticated, contributionOk, updateOk) ==>
        && amount == "" && !isDialogOpen
        && store.goals == WithCurrent(old(store.goals), goal.id,
             NewCurrent(FindGoal(old(store.goals), goal.id).value, parsed.value))
      ensures ValidAmount(old(amount), parsed) && !Succeeds(old(store.goals), goal.id, authenticated, contributionOk, updateOk) ==>
        && amount == old(amount) && isDialogOpen == old(isDialogOpen)
        && store.goals == old(store.goals)
      ensures (ValidAmount(old(amount), parsed) && fetched.Some?
               && Succeeds(old(store.goals), goal.id, authenticated, contributionOk, updateOk)) ==>
        store.contributions == old(store.contributions)[goal.id := fetched.value]
      ensures (ValidAmount(old(amount), parsed)
               && (fetched.None? || !Succeeds(old(store.goals), goal.id, authenticated, contributionOk, updateOk))) ==>
        store.contributions == old(store.contributions)
    {
      if amount == "" || parsed.None? || parsed.value <= 0 {
        return;
      }
      loading := true;
      var success := store.UpdateGoalProgress(goal.id, parsed.value, authenticated,
                                              contributionOk, updateOk, fetched);
      if success {
        amount := "";
        isDialogOpen := false;
      }
      loading := false;
    }
  }
}
