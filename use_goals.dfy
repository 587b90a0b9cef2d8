/** The goals hook's local state: the goal list and the per-goal
    contribution lists, and how addGoal, updateGoalProgress, deleteGoal and
    fetchGoalContributions change them once the backend has answered. Each
    backend call is an input: its outcome, or the record it returned. */
module GoalsHook {
  import opened Wrappers
  import opened Calendar
  import opened Arith
  import opened Seqs
  import opened Types

  /** The submitted goal form, the target already decoded to cents. */
  datatype GoalForm = GoalForm(
    title: string,
    description: Option<string>,
    target: int,
    hasDeadline: bool,
    deadline: Option<Date>)

  /** The goal appended by addGoal: it starts at 0 with an empty
      description, and has an end date only when the form asks for a
      deadline and supplies one. */
  function NewGoal(id: string, form: GoalForm): (g: Goal)
    ensures g.id == id && g.title == form.title && g.target == form.target
    ensures g.current == 0 && g.description == ""
    ensures g.deadline.Some? <==> form.hasDeadline && form.deadline.Some?
    ensures g.deadline.Some? ==> g.deadline == form.deadline
  {
    var deadline := if form.hasDeadline && form.deadline.Some? then form.deadline else None;
    Goal(id, form.title, "", form.target, 0, deadline)
  }

  /** gs[i] is the first goal with that id. */
  predicate FirstWithId(gs: seq<Goal>, id: string, i: int)
  {
    0 <= i < |gs| && gs[i].id == id && forall j :: 0 <= j < i ==> gs[j].id != id
  }

  /** Past a first goal with another id, positions shift by one. */
  lemma FirstWithIdShift(gs: seq<Goal>, id: string, i: int)
    requires gs != [] && gs[0].id != id && FirstWithId(gs[1..], id, i)
    ensures FirstWithId(gs, id, i + 1) && gs[i + 1] == gs[1..][i]
  {
    forall j | 0 < j < i + 1 ensures gs[j].id != id {
      assert gs[j] == gs[1..][j - 1];
    }
  }

  /** goals.find(g => g.id === id): the first goal with that id. */
  function FindGoal(gs: seq<Goal>, id: string): (r: Option<Goal>)
    ensures r.None? <==> forall g :: g in gs ==> g.id != id
    ensures r.Some? ==> exists i :: FirstWithId(gs, id, i) && gs[i] == r.value
  {
    if gs == [] then None
    else if gs[0].id == id then
      assert FirstWithId(gs, id, 0);
      Some(gs[0])
    else
      var r := FindGoal(gs[1..], id);
      if r.Some? then
        var i :| FirstWithId(gs[1..], id, i) && gs[1..][i] == r.value;
        FirstWithIdShift(gs, id, i);
        r
      else r
  }

  /** newCurrent = Math.min(goal.current + amount, goal.target): the
      progress after a contribution is capped at the target. It is the sum
      when that fits and the target otherwise, so a goal already above its
      target is brought down to it by any non-negative contribution. */
  function NewCurrent(g: Goal, amount: int): (r: int)
    ensures r <= g.target
    ensures g.current + amount <= g.target ==> r == g.current + amount
    ensures g.current + amount >= g.target ==> r == g.target
  {
    Min(g.current + amount, g.target)
  }

  /** prev.map(g => g.id === id ? { ...g, current } : g): only the current
      amount of the goals with that id changes; every other field of every
      goal, and every goal with another id, stays as it was. */
  function WithCurrent(gs: seq<Goal>, id: string, current: int): (r: seq<Goal>)
    ensures |r| == |gs|
    ensures forall i :: 0 <= i < |gs| ==>
      && r[i].id == gs[i].id && r[i].title == gs[i].title
      && r[i].description == gs[i].description && r[i].target == gs[i].target
      && r[i].deadline == gs[i].deadline
      && r[i].current == (if gs[i].id == id then current else gs[i].current)
  {
    seq(|gs|, i requires 0 <= i < |gs| => if gs[i].id == id then gs[i].(current := current) else gs[i])
  }

  predicate UniqueIds(gs: seq<Goal>)
  {
    forall i, j :: 0 <= i < j < |gs| ==> gs[i].id != gs[j].id
  }

  predicate WithinTarget(gs: seq<Goal>)
  {
    forall g :: g in gs ==> g.current <= g.target
  }

  /** With unique ids, a successful contribution leaves the goal at or
      below its target, so "no goal above its target" is kept. */
  lemma ProgressKeepsWithinTarget(gs: seq<Goal>, id: string, amount: int)
    requires UniqueIds(gs) && WithinTarget(gs)
    requires FindGoal(gs, id).Some?
    ensures WithinTarget(WithCurrent(gs, id, NewCurrent(FindGoal(gs, id).value, amount)))
  {
    var g := FindGoal(gs, id).value;
    var r := WithCurrent(gs, id, NewCurrent(g, amount));
    forall x | x in r ensures x.current <= x.target {
      var i :| 0 <= i < |r| && r[i] == x;
      if gs[i].id == id {
        var k :| 0 <= k < |gs| && gs[k] == g;
        assert k == i;
      }
    }
  }

  function HasOtherGoalId(id: string): Goal -> bool
  {
    (g: Goal) => g.id != id
  }

  function HasGoalId(id: string): Goal -> bool
  {
    (g: Goal) => g.id == id
  }

  /** prev.filter(goal => goal.id !== id). */
  function WithoutGoal(gs: seq<Goal>, id: string): seq<Goal>
  {
    Filter(gs, HasOtherGoalId(id))
  }

  /** Deleting removes exactly the goals with that id and keeps the rest
      in order. */
  lemma DeleteGoalRemovesExactly(gs: seq<Goal>, id: string)
    ensures forall g :: g in WithoutGoal(gs, id) <==> g in gs && g.id != id
    ensures IsSubsequence(WithoutGoal(gs, id), gs)
    ensures |WithoutGoal(gs, id)| == |gs| - |Filter(gs, HasGoalId(id))|
  {
    FilterIsSubsequence(gs, HasOtherGoalId(id));
    FilterPartition(gs, HasOtherGoalId(id), HasGoalId(id));
  }

  class GoalStore {
    var goals: seq<Goal>
    var contributions: map<string, seq<Contribution>>

    constructor ()
      ensures goals == [] && contributions == map[]
    {
      goals := [];
      contributions := map[];
    }

    /** fetchGoalContributions: `fetched` is the query's rows, None when
        the query failed. Only the entry for goalId is overwritten. */
    method FetchGoalContributions(goalId: string, fetched: Option<seq<Contribution>>)
      returns (r: seq<Contribution>)
      modifies this
      ensures goals == old(goals)
      ensures fetched.Some? ==> r == fetched.value
      ensures fetched.Some? ==> contributions == old(contributions)[goalId := fetched.value]
      ensures fetched.None? ==> r == [] && contributions == old(contributions)
    {
      match fetched {
        case None =>
          r := [];
        case Some(rows) =>
          contributions := contributions[goalId := rows];
          r := rows;
      }
    }

    /** addGoal: `insertedId` is the id of the inserted record, None when
        the insert failed; the record comes back as it was sent. */
    method AddGoal(form: GoalForm, authenticated: bool, insertedId: Option<string>)
      returns (r: Option<Goal>)
      modifies this
      ensures r.Some? <==> authenticated && insertedId.Some?
      ensures r.Some? ==> r.value == NewGoal(insertedId.value, form)
      ensures r.Some? ==> goals == old(goals) + [r.value]
      ensures r.None? ==> goals == old(goals)
      ensures contributions == old(contributions)
    {
      if !authenticated || insertedId.None? {
        return None;
      }
      var g := NewGoal(insertedId.value, form);
      goals := goals + [g];
      r := Some(g);
    }

    /** updateGoalProgress: the lookup, then the contribution insert and
        the goal update (their outcomes are inputs), then the local update
        and a refresh of that goal's contributions. */
    method UpdateGoalProgress(id: string, amount: int, authenticated: bool,
                              contributionOk: bool, updateOk: bool,
                              fetched: Option<seq<Contribution>>)
      returns (ok: bool)
      modifies this
      ensures ok <==> FindGoal(old(goals), id).Some? && authenticated && contributionOk && updateOk
      ensures ok ==> goals == WithCurrent(old(goals), id, NewCurrent(FindGoal(old(goals), id).value, amount))
      ensures ok && fetched.Some? ==> contributions == old(contributions)[id := fetched.value]
      ensures !ok || fetched.None? ==> contributions == old(contributions)
      ensures !ok ==> goals == old(goals)
    {
      var goal := FindGoal(goals, id);
      if goal.None? || !authenticated {
        return false;
      }
      var newCurrent := NewCurrent(goal.value, amount);
      if !contributionOk || !updateOk {
        return false;
      }
      var updated := WithCurrent(goals, id, newCurrent);
      goals := updated;
      var _ := FetchGoalContributions(id, fetched);
      assert goals == updated;
      ok := true;
    }

    /** deleteGoal: `deleted` is the outcome of the delete mutation. */
    method DeleteGoal(id: string, deleted: bool) returns (ok: bool)
      modifies this
      ensures ok == deleted
      ensures deleted ==> goals == WithoutGoal(old(goals), id)
      ensures deleted ==> contributions == old(contributions) - {id}
      ensures !deleted ==> goals == old(goals) && contributions == old(contributions)
    {
      if !deleted {
        return false;
      }
      goals := WithoutGoal(goals, id);
      contributions := contributions - {id};
      ok := true;
    }
  }
}
