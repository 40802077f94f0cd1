/** The past-due screen: every overdue Active loan, latest first. */
module PastDueView {
  import opened Types
  import opened Lists
  import opened Utils
  import opened Views

  predicate ActiveAndOverdue(today: int, l: Loan)
  {
    l.status == Active && IsOverdue(l, today)
  }

  function ActiveOverdue(today: int): Loan -> bool
  {
    (l: Loan) => ActiveAndOverdue(today, l)
  }

  /** `overdueLoans`: exactly the Active loans past their due day, most days
      late first; every one shown is at least a day late, and the headline
      count is the number of such loans. */
  function OverdueLoans(loans: seq<Loan>, today: int): (r: seq<Loan>)
    ensures forall l :: l in r <==> l in loans && l.status == Active && today > DueDay(l)
    ensures multiset(r) == multiset(Filter(loans, ActiveOverdue(today)))
    ensures forall i, j :: 0 <= i < j < |r| ==> OverdueDays(r[i], today) >= OverdueDays(r[j], today)
    ensures forall i :: 0 <= i < |r| ==> OverdueDays(r[i], today) >= 1
    ensures |r| == |Filter(loans, ActiveOverdue(today))|
  {
    var due := Filter(loans, ActiveOverdue(today));
    var r := ByLateness(due, today);
    forall l ensures l in r <==> l in loans && l.status == Active && today > DueDay(l) {
      SameMembers(r, due, l);
      IsOverdueIff(l, today);
    }
    r
  }

  lemma SameMembers(a: seq<Loan>, b: seq<Loan>, l: Loan)
    requires multiset(a) == multiset(b)
    ensures l in a <==> l in b
  {
    assert l in a <==> l in multiset(a);
    assert l in b <==> l in multiset(b);
  }

  /** Tomorrow's list keeps everyone on today's, each one day later. */
  lemma OverdueListOnlyGrows(loans: seq<Loan>, today: int, l: Loan)
    requires l in OverdueLoans(loans, today)
    ensures l in OverdueLoans(loans, today + 1)
    ensures OverdueDays(l, today + 1) == OverdueDays(l, today) + 1
  {
    OverdueDaysMonotone(l, today, today + 1);
  }

  /** An Active loan whose due day is today is not on today's list and joins
      tomorrow's, one day late. */
  lemma DueTodayJoinsTomorrow(loans: seq<Loan>, today: int, l: Loan)
    requires l in loans && l.status == Active && DueDay(l) == today
    ensures l !in OverdueLoans(loans, today)
    ensures l in OverdueLoans(loans, today + 1) && OverdueDays(l, today + 1) == 1
  {
    IsOverdueIff(l, today + 1);
  }
}
