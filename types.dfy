/** The records of src/types/index.ts. Amounts are integer cents; a
    category is kept as its string value, since the aggregation code groups
    by whatever value a record carries. */
module Types {
  import opened Wrappers
  import opened Calendar

  datatype TxType = Income | Expense

  datatype Transaction = Transaction(
    id: string,
    amount: int,
    kind: TxType,
    category: string,
    description: string,
    date: Date)

  datatype Goal = Goal(
    id: string,
    title: string,
    description: string,
    target: int,
    current: int,
    deadline: Option<Date>)

  datatype Contribution = Contribution(id: string, goalId: string, amount: int, date: Date)

  function Amount(t: Transaction): int { t.amount }

  /** new Date(t.date).getTime(), at day resolution. */
  function Time(t: Transaction): int { Ordinal(t.date) }

  function Target(g: Goal): int { g.target }

  function Current(g: Goal): int { g.current }

  /** The completion test shared by the goal card, the goals page and the
      dashboard: `goal.current >= goal.target`. */
  predicate IsCompleted(g: Goal) { g.current >= g.target }

  predicate IsIncomplete(g: Goal) { g.current < g.target }
}
