/** The route sheets: the loans still to collect, grouped by area under each
    collector of that area, overdue loans first and then by client name, with
    the group's outstanding total. */
module MasterListView {
  import opened Types
  import opened Lists
  import opened Strings
  import opened Utils
  import opened Views

  /** A loan that still belongs on a route sheet: Active, or marked Paid while
      something is still owed. */
  predicate Candidate(l: Loan)
  {
    l.status == Active || (l.status == Paid && l.balance > 0.0)
  }

  /** `loansToPrint`: the candidates, only the overdue ones under the
      'PastDue' filter, and only the filtered area unless it is 'All'. */
  function LoansToPrint(loans: seq<Loan>, pastDueOnly: bool, areaFilter: string, today: int): (r: seq<Loan>)
    ensures forall l :: l in r <==> l in loans && Candidate(l) && (pastDueOnly ==> IsOverdue(l, today))
                                    && (areaFilter != "All" ==> l.area == areaFilter)
    ensures IsSubsequence(r, loans)
  {
    var candidates := Filter(loans, Candidate);
    var due := if pastDueOnly then Filter(candidates, Overdue(today)) else candidates;
    FilterIsSubsequence(loans, Candidate);
    FilterIsSubsequence(candidates, Overdue(today));
    SubsequenceTrans(Filter(candidates, Overdue(today)), candidates, loans);
    FilterIsSubsequence(due, AreaIs(areaFilter));
    SubsequenceTrans(Filter(due, AreaIs(areaFilter)), due, loans);
    if areaFilter != "All" then Filter(due, AreaIs(areaFilter)) else due
  }

  /** `targetCollectors`: everyone but the administrator, restricted to the
      filtered area unless it is 'All'. */
  function TargetCollectors(collectors: seq<Collector>, areaFilter: string): (r: seq<Collector>)
    ensures forall c :: c in r <==> c in collectors && c.name != "Admin" && (areaFilter != "All" ==> c.area == areaFilter)
  {
    var staff := Staff(collectors);
    if areaFilter != "All" then Filter(staff, (c: Collector) => c.area == areaFilter) else staff
  }

  /** `m` holds, for every area that has a loan in `s`, that area's loans in
      list order, and no other key. */
  ghost predicate Grouped(m: map<string, seq<Loan>>, s: seq<Loan>)
  {
    && (forall a :: a in m ==> m[a] == Filter(s, AreaIs(a)) && m[a] != [])
    && (forall a :: a !in m ==> Filter(s, AreaIs(a)) == [])
  }

  /** Pushing one more loan onto its area's list keeps the grouping exact. */
  lemma GroupedPush(m: map<string, seq<Loan>>, s: seq<Loan>, l: Loan)
    requires Grouped(m, s)
    ensures Grouped(m[l.area := (if l.area in m then m[l.area] else []) + [l]], s + [l])
  {
    forall a ensures Filter(s + [l], AreaIs(a)) == Filter(s, AreaIs(a)) + Filter([l], AreaIs(a)) {
      FilterAppend(s, [l], AreaIs(a));
    }
  }

  /** `loansByArea`: for every area that has a loan, that area's loans in list
      order; an area with none has no key. */
  method GroupByArea(loans: seq<Loan>) returns (m: map<string, seq<Loan>>)
    ensures Grouped(m, loans)
  {
    m := map[];
    for i := 0 to |loans|
      invariant Grouped(m, loans[..i])
    {
      var l := loans[i];
      assert loans[..i + 1] == loans[..i] + [l];
      GroupedPush(m, loans[..i], l);
      if l.area !in m {
        m := m[l.area := []];
      }
      m := m[l.area := m[l.area] + [l]];
    }
    assert loans[..|loans|] == loans;
  }

  /** The route order: an overdue loan before one that is not, otherwise by
      client name. */
  function RouteLe(today: int): (Loan, Loan) -> bool
  {
    (a: Loan, b: Loan) =>
      (IsOverdue(a, today) && !IsOverdue(b, today))
      || (IsOverdue(a, today) == IsOverdue(b, today) && StrLe(a.name, b.name))
  }

  lemma RouteOrderIsTotal(today: int)
    ensures TotalPreorder(RouteLe(today))
  {
    forall a: Loan, b: Loan ensures RouteLe(today)(a, b) || RouteLe(today)(b, a) {
      StrLeTotal(a.name, b.name);
    }
    forall a: Loan, b: Loan, c: Loan | RouteLe(today)(a, b) && RouteLe(today)(b, c) ensures RouteLe(today)(a, c) {
      if IsOverdue(a, today) == IsOverdue(b, today) && IsOverdue(b, today) == IsOverdue(c, today) {
        StrLeTransitive(a.name, b.name, c.name);
      }
    }
  }

  /** One route sheet. */
  datatype Group = Group(collector: Collector, loans: seq<Loan>, totalBalance: real)

  /** The sheet of one collector: the area's loans in route order and what they owe. */
  function GroupFor(c: Collector, toPrint: seq<Loan>, today: int): (g: Group)
    ensures g.collector == c
    ensures multiset(g.loans) == multiset(Filter(toPrint, AreaIs(c.area)))
    ensures forall i, j :: 0 <= i < j < |g.loans| ==> RouteLe(today)(g.loans[i], g.loans[j])
    ensures g.totalBalance == SumBy(g.loans, Balance)
  {
    var own := Filter(toPrint, AreaIs(c.area));
    RouteOrderIsTotal(today);
    SortBySorted(own, RouteLe(today));
    var sorted := SortBy(own, RouteLe(today));
    Group(c, sorted, SumBy(sorted, Balance))
  }

  /** The sheets of the target collectors, in their order, leaving out empty ones. */
  function Groups(targets: seq<Collector>, toPrint: seq<Loan>, today: int): seq<Group>
  {
    if targets == [] then []
    else
      var g := GroupFor(targets[0], toPrint, today);
      (if g.loans != [] then [g] else []) + Groups(targets[1..], toPrint, today)
  }

  /** Every sheet is a non-empty sheet of a target collector. */
  lemma {:induction false} GroupsSound(targets: seq<Collector>, toPrint: seq<Loan>, today: int, g: Group)
    requires g in Groups(targets, toPrint, today)
    ensures g.collector in targets && g == GroupFor(g.collector, toPrint, today) && g.loans != []
  {
    var h := GroupFor(targets[0], toPrint, today);
    if h.loans == [] || g != h {
      assert g in Groups(targets[1..], toPrint, today);
      GroupsSound(targets[1..], toPrint, today, g);
    }
  }

  /** Every target collector whose area has a loan to print has a sheet. */
  lemma {:induction false} GroupsComplete(targets: seq<Collector>, toPrint: seq<Loan>, today: int, c: Collector, l: Loan)
    requires c in targets && l in toPrint && l.area == c.area
    ensures GroupFor(c, toPrint, today) in Groups(targets, toPrint, today)
  {
    var g := GroupFor(c, toPrint, today);
    assert l in Filter(toPrint, AreaIs(c.area));
    assert l in multiset(g.loans);
    if targets[0] != c {
      GroupsComplete(targets[1..], toPrint, today, c, l);
    }
  }

  /** `printableData`: group the loans to print by area, then give each target
      collector the sorted loans of their area, dropping empty sheets. */
  method PrintableData(loans: seq<Loan>, collectors: seq<Collector>, pastDueOnly: bool, areaFilter: string, today: int)
    returns (r: seq<Group>)
    ensures r == Groups(TargetCollectors(collectors, areaFilter), LoansToPrint(loans, pastDueOnly, areaFilter, today), today)
  {
    var toPrint := LoansToPrint(loans, pastDueOnly, areaFilter, today);
    var targets := TargetCollectors(collectors, areaFilter);
    var byArea := GroupByArea(toPrint);
    r := [];
    var i := |targets|;
    while i > 0
      invariant 0 <= i <= |targets|
      invariant r == Groups(targets[i..], toPrint, today)
    {
      i := i - 1;
      var c := targets[i];
      var own := if c.area in byArea then byArea[c.area] else [];
      RouteOrderIsTotal(today);
      var sorted := SortBy(own, RouteLe(today));
      var g := Group(c, sorted, SumBy(sorted, Balance));
      assert g == GroupFor(c, toPrint, today);
      assert targets[i..][1..] == targets[i + 1..];
      if sorted != [] {
        r := [g] + r;
      }
    }
  }

  /** A sheet lists exactly the loans to print of its collector's area. */
  lemma GroupForMembers(c: Collector, toPrint: seq<Loan>, today: int, l: Loan)
    ensures l in GroupFor(c, toPrint, today).loans <==> l in toPrint && l.area == c.area
  {
    var g := GroupFor(c, toPrint, today);
    assert l in g.loans <==> l in multiset(g.loans);
    assert l in Filter(toPrint, AreaIs(c.area)) <==> l in multiset(Filter(toPrint, AreaIs(c.area)));
  }

  /** What a route sheet holds: exactly the candidate loans of its collector's
      area that pass the filters, none left out and none added, overdue ones
      first, with their balances summed; its collector is never the
      administrator and is in the filtered area. */
  lemma SheetsHoldTheirAreasLoans(loans: seq<Loan>, collectors: seq<Collector>, pastDueOnly: bool, areaFilter: string,
                                  today: int, g: Group)
    requires g in Groups(TargetCollectors(collectors, areaFilter), LoansToPrint(loans, pastDueOnly, areaFilter, today), today)
    ensures g.collector in collectors && g.collector.name != "Admin"
    ensures areaFilter != "All" ==> g.collector.area == areaFilter
    ensures g.loans != [] && g.totalBalance == SumBy(g.loans, Balance)
    ensures forall l :: l in g.loans <==> l in loans && Candidate(l) && l.area == g.collector.area
                                          && (pastDueOnly ==> IsOverdue(l, today))
                                          && (areaFilter != "All" ==> l.area == areaFilter)
    ensures forall i, j :: 0 <= i < j < |g.loans| && IsOverdue(g.loans[j], today) ==> IsOverdue(g.loans[i], today)
  {
    var targets := TargetCollectors(collectors, areaFilter);
    var toPrint := LoansToPrint(loans, pastDueOnly, areaFilter, today);
    GroupsSound(targets, toPrint, today, g);
    forall l ensures l in g.loans <==> l in toPrint && l.area == g.collector.area {
      GroupForMembers(g.collector, toPrint, today, l);
    }
  }
}
