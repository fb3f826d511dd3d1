/** The dashboard: the newest-first expense store and the four summary
    figures computed from it (total, this month's total, active departments,
    average transaction). */
module Dashboard {
  import opened Types
  import opened Seqs
  import opened Reductions

  // ---------------------------------------------------------------------
  // The summary figures.
  // ---------------------------------------------------------------------

  /** `totalExpenses`: 0 for an empty list, and the sum of the amounts
      otherwise; never negative when no amount is. */
  function TotalExpenses(xs: seq<Expense>): (t: real)
    ensures xs == [] ==> t == 0.0
    ensures NonNegative(xs) ==> t >= 0.0
    ensures |xs| == 1 ==> t == xs[0].amount
  {
    TotalNonNegative(xs);
    assert |xs| == 1 ==> xs[1..] == [] && Total(xs[1..]) == 0.0;
    Total(xs)
  }

  /** Selects the records whose month index is `m`; the year is not
      compared. */
  function InMonth(m: Month): Expense -> bool
  {
    (e: Expense) => e.date.date.month == m
  }

  /** `monthlyExpenses`: the total of the records dated in the current
      month index `now.date.month`, whatever their year. With non-negative
      amounts it lies between 0 and the total; it is the total when every
      record is in the current month and 0 when none is. */
  function MonthlyExpenses(xs: seq<Expense>, now: Instant): (r: real)
    ensures NonNegative(xs) ==> 0.0 <= r <= TotalExpenses(xs)
    ensures (forall e :: e in xs ==> e.date.date.month == now.date.month) ==> r == TotalExpenses(xs)
    ensures (forall e :: e in xs ==> e.date.date.month != now.date.month) ==> r == 0.0
  {
    FilteredTotalExtremes(InMonth(now.date.month), xs);
    Total(Filter(InMonth(now.date.month), xs))
  }

  /** A record counts towards the month total exactly when its month index
      equals the current one; its year plays no part. */
  lemma {:induction false} MonthlyExpensesPrepend(e: Expense, xs: seq<Expense>, now: Instant)
    ensures MonthlyExpenses([e] + xs, now)
         == (if e.date.date.month == now.date.month then e.amount else 0.0) + MonthlyExpenses(xs, now)
  {
    FilterAppend(InMonth(now.date.month), [e], xs);
    TotalAppend(Filter(InMonth(now.date.month), [e]), Filter(InMonth(now.date.month), xs));
    assert [e][1..] == [];
  }

  /** `departmentCount`: the number of distinct departments present; at
      most 6, at most the number of records, 0 exactly for no records, and
      1 exactly when there are records and all share one department. */
  function DepartmentCount(xs: seq<Expense>): (n: nat)
    ensures n <= 6 && n <= |xs|
    ensures n == 0 <==> xs == []
    ensures n == 1 <==> xs != [] && forall e :: e in xs ==> e.department == xs[0].department
  {
    DepartmentsOfSize(xs);
    AtMostSixDepartments(DepartmentsOf(xs));
    assert xs != [] ==> xs[0].department in DepartmentsOf(xs);
    SingleDepartment(xs);
    |DepartmentsOf(xs)|
  }

  /** Adding a record raises the count by one exactly when its department is
      new, and leaves it unchanged otherwise. */
  lemma DepartmentCountPrepend(e: Expense, xs: seq<Expense>)
    ensures DepartmentCount([e] + xs)
         == if e.department in DepartmentsOf(xs) then DepartmentCount(xs) else DepartmentCount(xs) + 1
  {
    DepartmentsOfPrepend(e, xs);
  }

  /** The average transaction: total divided by count, 0 for no records. */
  function AverageTransaction(xs: seq<Expense>): (avg: real)
    ensures xs == [] ==> avg == 0.0
    ensures xs != [] ==> avg * |xs| as real == TotalExpenses(xs)
  {
    if |xs| > 0 then TotalExpenses(xs) / (|xs| as real) else 0.0
  }

  /** The average lies between the least and the greatest amount. */
  lemma AverageBetweenBounds(xs: seq<Expense>, lo: real, hi: real)
    requires xs != []
    requires forall e :: e in xs ==> lo <= e.amount <= hi
    ensures lo <= AverageTransaction(xs) <= hi
  {
    var n, t := |xs| as real, TotalExpenses(xs);
    TotalBounds(xs, lo, hi);
    QuotientBetween(t, n, lo, hi);
    assert AverageTransaction(xs) == t / n;
  }

  lemma QuotientBetween(t: real, n: real, lo: real, hi: real)
    requires n > 0.0 && n * lo <= t <= n * hi
    ensures lo <= t / n <= hi
  {
    assert (t / n) * n == t;
  }

  // ---------------------------------------------------------------------
  // The store.
  // ---------------------------------------------------------------------

  /** The dashboard's `expenses` state: newest first. `nextId` is the fresh
      identifier supply that stands in for `crypto.randomUUID`. */
  class Store {
    var expenses: seq<Expense>
    var nextId: ExpenseId

    /** Every identifier in use was drawn from the supply, and no two records
        share one. */
    ghost predicate Valid()
      reads this
    {
      && (forall i :: 0 <= i < |expenses| ==> expenses[i].id < nextId)
      && (forall i, j :: 0 <= i < j < |expenses| ==> expenses[i].id != expenses[j].id)
    }

    ghost function Ids(): set<ExpenseId>
      reads this
    {
      set e | e in expenses :: e.id
    }

    constructor ()
      ensures Valid() && expenses == []
    {
      expenses := [];
      nextId := 0;
    }

    /** `handleExpenseSubmit`: the draft with a fresh identifier goes in
        front of the previous list, which is otherwise unchanged. */
    method HandleExpenseSubmit(draft: ExpenseDraft) returns (e: Expense)
      requires Valid()
      modifies this
      ensures Valid()
      ensures DraftOf(e) == draft && e.id !in old(Ids())
      ensures expenses == [e] + old(expenses)
    {
      e := WithId(draft, nextId);
      expenses := [e] + expenses;
      nextId := nextId + 1;
    }
  }
}
