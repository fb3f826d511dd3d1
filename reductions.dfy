/** The reductions over the expense list that the dashboard's summary
    figures and the list's subtotals are both built from: the sum of the
    amounts and the set of departments present. */
module Reductions {
  import opened Types
  import opened Seqs

  /** Sum of the amounts. `reduce` adds from the left; real addition is
      associative, so summing from the head gives the same value. */
  function Total(xs: seq<Expense>): real
  {
    if xs == [] then 0.0 else xs[0].amount + Total(xs[1..])
  }

  predicate NonNegative(xs: seq<Expense>)
  {
    forall e :: e in xs ==> e.amount >= 0.0
  }

  /** The total of a concatenation is the sum of the totals. */
  lemma {:induction false} TotalAppend(a: seq<Expense>, b: seq<Expense>)
    ensures Total(a + b) == Total(a) + Total(b)
  {
    if a == [] {
      assert a + b == b;
    } else {
      assert (a + b)[1..] == a[1..] + b;
      TotalAppend(a[1..], b);
    }
  }

  /** Amounts bounded by `lo` and `hi` give a total between `|xs| * lo` and
      `|xs| * hi`. */
  lemma {:induction false} TotalBounds(xs: seq<Expense>, lo: real, hi: real)
    requires forall e :: e in xs ==> lo <= e.amount <= hi
    ensures |xs| as real * lo <= Total(xs) <= |xs| as real * hi
  {
    if xs != [] {
      var h, t := xs[0], xs[1..];
      assert lo <= h.amount <= hi by { assert h in xs; }
      TotalBounds(t, lo, hi);
      var n := |t| as real;
      assert |xs| as real * lo == n * lo + lo;
      assert |xs| as real * hi == n * hi + hi;
      assert Total(xs) == h.amount + Total(t);
    }
  }

  lemma {:induction false} TotalNonNegative(xs: seq<Expense>)
    ensures NonNegative(xs) ==> Total(xs) >= 0.0
  {
    if xs != [] {
      TotalNonNegative(xs[1..]);
    }
  }

  /** With non-negative amounts, the total of any filtered list lies
      between 0 and the total of the whole list. */
  lemma {:induction false} FilteredTotalAtMostTotal(p: Expense -> bool, xs: seq<Expense>)
    requires NonNegative(xs)
    ensures 0.0 <= Total(Filter(p, xs)) <= Total(xs)
  {
    if xs != [] {
      assert xs[0] in xs;
      FilteredTotalAtMostTotal(p, xs[1..]);
      var head := if p(xs[0]) then [xs[0]] else [];
      TotalAppend(head, Filter(p, xs[1..]));
      assert head != [] ==> head[1..] == [];
    }
  }

  /** A filtered total between 0 and the total for non-negative amounts,
      the whole total when the predicate holds everywhere, and 0 when it
      holds nowhere. */
  lemma FilteredTotalExtremes(p: Expense -> bool, xs: seq<Expense>)
    ensures NonNegative(xs) ==> 0.0 <= Total(Filter(p, xs)) <= Total(xs)
    ensures (forall e :: e in xs ==> p(e)) ==> Total(Filter(p, xs)) == Total(xs)
    ensures (forall e :: e in xs ==> !p(e)) ==> Total(Filter(p, xs)) == 0.0
  {
    if NonNegative(xs) {
      FilteredTotalAtMostTotal(p, xs);
    }
    if forall e :: e in xs ==> p(e) {
      FilterAll(p, xs);
    }
    if forall e :: e in xs ==> !p(e) {
      FilterNone(p, xs);
    }
  }

  /** The set of departments that occur in the list. */
  function DepartmentsOf(xs: seq<Expense>): set<Department>
  {
    set e | e in xs :: e.department
  }

  lemma DepartmentsOfPrepend(e: Expense, xs: seq<Expense>)
    ensures DepartmentsOf([e] + xs) == {e.department} + DepartmentsOf(xs)
  {
    assert forall x :: x in [e] + xs <==> x == e || x in xs;
  }

  lemma {:induction false} DepartmentsOfSize(xs: seq<Expense>)
    ensures |DepartmentsOf(xs)| <= |xs|
  {
    if xs != [] {
      DepartmentsOfSize(xs[1..]);
      DepartmentsOfPrepend(xs[0], xs[1..]);
      assert [xs[0]] + xs[1..] == xs;
    }
  }

  lemma AtMostSixDepartments(s: set<Department>)
    ensures |s| <= 6
  {
    var all := {Bakery, Bar, Kitchen, Maintenance, FrontOfHouse, Administration};
    assert |all| == 6;
    forall d: Department ensures d in all {
      assert d in AllDepartments();
    }
    SubsetSize(s, all);
  }

  lemma {:induction false} SubsetSize<T>(a: set<T>, b: set<T>)
    requires a <= b
    ensures |a| <= |b|
    decreases b
  {
    if a != {} {
      var x :| x in a;
      SubsetSize(a - {x}, b - {x});
    }
  }

  lemma SingleDepartment(xs: seq<Expense>)
    ensures |DepartmentsOf(xs)| == 1 <==> xs != [] && forall e :: e in xs ==> e.department == xs[0].department
  {
    var s := DepartmentsOf(xs);
    if xs != [] {
      var a := xs[0].department;
      assert a in s;
      if forall e :: e in xs ==> e.department == a {
        assert s == {a};
      } else {
        var e :| e in xs && e.department != a;
        assert e.department in s;
        SubsetSize({a, e.department}, s);
      }
    }
  }

  /** A record appended at the end adds its department. */
  lemma DepartmentsOfAppend(xs: seq<Expense>, e: Expense)
    ensures DepartmentsOf(xs + [e]) == DepartmentsOf(xs) + {e.department}
  {
    assert forall x :: x in xs + [e] <==> x in xs || x == e;
  }
}
