/** The expense list: the department filter behind the table and the
    per-department subtotals shown above it. */
module ExpenseList {
  import opened Types
  import opened Seqs
  import opened Reductions

  /** The filter `<select>`: every department, or one of them. */
  datatype DepartmentFilter = All | Only(department: Department)

  function InDepartment(d: Department): Expense -> bool
  {
    (e: Expense) => e.department == d
  }

  /** `filteredExpenses`: the list itself for `'all'`, otherwise the records
      of the chosen department. */
  function FilteredExpenses(xs: seq<Expense>, f: DepartmentFilter): (r: seq<Expense>)
    ensures f.All? ==> r == xs
    ensures f.Only? ==> forall e :: e in r <==> e in xs && e.department == f.department
    ensures |r| <= |xs|
  {
    if f.All? then xs else Filter(InDepartment(f.department), xs)
  }

  /** A department filter keeps exactly the positions of that department's
      records, in their original order. */
  lemma FilteredExpensesPositions(xs: seq<Expense>, d: Department)
    ensures var ix := FilterIndices(InDepartment(d), xs, 0);
      && Embedding(ix, FilteredExpenses(xs, Only(d)), xs)
      && forall i :: 0 <= i < |xs| ==> (i in ix <==> xs[i].department == d)
  {
    FilterEmbedding(InDepartment(d), xs, 0);
    assert xs[0..] == xs;
  }

  /** Whatever the filter, the displayed list is a subsequence of the store. */
  lemma FilteredExpensesInOrder(xs: seq<Expense>, f: DepartmentFilter)
    ensures IsSubsequence(FilteredExpenses(xs, f), xs)
  {
    if f.All? {
      var all := (e: Expense) => true;
      FilterAll(all, xs);
      FilterIsSubsequence(all, xs);
    } else {
      FilterIsSubsequence(InDepartment(f.department), xs);
    }
  }

  /** The sum of the amounts of department `d`'s records: the total of
      what the filter shows for `d`. */
  function Subtotal(xs: seq<Expense>, d: Department): real
  {
    Total(Filter(InDepartment(d), xs))
  }

  lemma SubtotalAppend(a: seq<Expense>, b: seq<Expense>, d: Department)
    ensures Subtotal(a + b, d) == Subtotal(a, d) + Subtotal(b, d)
  {
    FilterAppend(InDepartment(d), a, b);
    TotalAppend(Filter(InDepartment(d), a), Filter(InDepartment(d), b));
  }

  /** One more record adds its amount to its own department's subtotal and
      nothing to the others. */
  lemma SubtotalStep(a: seq<Expense>, b: seq<Expense>, e: Expense, d: Department)
    requires a == [e] + b || a == b + [e]
    ensures Subtotal(a, d) == Subtotal(b, d) + if e.department == d then e.amount else 0.0
  {
    assert Subtotal([e], d) == if e.department == d then e.amount else 0.0 by {
      var p := InDepartment(d);
      assert [e][1..] == [];
      assert p(e) == (e.department == d);
      assert Filter(p, []) == [];
      assert Filter(p, [e]) == (if p(e) then [e] else []) + Filter(p, []);
      assert Filter(p, [e]) == if e.department == d then [e] else [];
      assert Total([e]) == e.amount;
      assert Total([]) == 0.0;
    }
    if a == [e] + b {
      SubtotalAppend([e], b, d);
    } else {
      SubtotalAppend(b, [e], d);
    }
  }

  /** The six subtotals add up to the grand total. */
  lemma {:induction false} SubtotalsSumToTotal(xs: seq<Expense>)
    ensures Subtotal(xs, Bakery) + Subtotal(xs, Bar) + Subtotal(xs, Kitchen)
          + Subtotal(xs, Maintenance) + Subtotal(xs, FrontOfHouse) + Subtotal(xs, Administration)
         == Total(xs)
  {
    if xs != [] {
      var e, rest := xs[0], xs[1..];
      assert xs == [e] + rest;
      SubtotalsSumToTotal(rest);
      SubtotalStep(xs, rest, e, Bakery);
      SubtotalStep(xs, rest, e, Bar);
      SubtotalStep(xs, rest, e, Kitchen);
      SubtotalStep(xs, rest, e, Maintenance);
      SubtotalStep(xs, rest, e, FrontOfHouse);
      SubtotalStep(xs, rest, e, Administration);
    }
  }

  /** `acc[d] || 0`: the running subtotal, 0 before the first record. */
  function Get(totals: map<Department, real>, d: Department): real
  {
    if d in totals then totals[d] else 0.0
  }

  /** The values of a subtotal map, added over the six departments. */
  function ValueSum(totals: map<Department, real>): real
  {
    Get(totals, Bakery) + Get(totals, Bar) + Get(totals, Kitchen)
    + Get(totals, Maintenance) + Get(totals, FrontOfHouse) + Get(totals, Administration)
  }

  /** `departmentTotals`: one pass over all records (not the filtered ones),
      adding each amount to its department's entry. The keys are the
      departments present, each value is that department's subtotal, and
      the values add up to the grand total. */
  method DepartmentTotals(xs: seq<Expense>) returns (totals: map<Department, real>)
    ensures totals.Keys == DepartmentsOf(xs)
    ensures forall d :: d in totals ==> totals[d] == Subtotal(xs, d)
    ensures |totals| == |DepartmentsOf(xs)|
    ensures ValueSum(totals) == Total(xs)
  {
    totals := map[];
    var i := 0;
    while i < |xs|
      invariant 0 <= i <= |xs|
      invariant totals.Keys == DepartmentsOf(xs[..i])
      invariant forall d :: Get(totals, d) == Subtotal(xs[..i], d)
    {
      var e := xs[i];
      var next := totals[e.department := Get(totals, e.department) + e.amount];
      TotalsStep(xs[..i], e, totals, next);
      assert xs[..i + 1] == xs[..i] + [e];
      totals := next;
      i := i + 1;
    }
    assert xs[..i] == xs;
    TotalsMapFacts(xs, totals);
  }

  /** Adding one record to its department's entry: the keys gain its
      department, and every entry is the subtotal of the longer list. */
  lemma TotalsStep(before: seq<Expense>, e: Expense, totals: map<Department, real>, next: map<Department, real>)
    requires totals.Keys == DepartmentsOf(before)
    requires forall d :: Get(totals, d) == Subtotal(before, d)
    requires next == totals[e.department := Get(totals, e.department) + e.amount]
    ensures next.Keys == DepartmentsOf(before + [e])
    ensures forall d :: Get(next, d) == Subtotal(before + [e], d)
  {
    DepartmentsOfAppend(before, e);
    forall d ensures Get(next, d) == Subtotal(before + [e], d) {
      SubtotalStep(before + [e], before, e, d);
    }
  }

  lemma TotalsMapFacts(xs: seq<Expense>, totals: map<Department, real>)
    requires totals.Keys == DepartmentsOf(xs)
    requires forall d :: Get(totals, d) == Subtotal(xs, d)
    ensures forall d :: d in totals ==> totals[d] == Subtotal(xs, d)
    ensures |totals| == |DepartmentsOf(xs)|
    ensures ValueSum(totals) == Total(xs)
  {
    assert |totals| == |totals.Keys|;
    SubtotalsSumToTotal(xs);
  }
}
