/** The projections several screens share: form-number parsing, the staff list,
    the active-loan filters, "has this borrower paid on that date" and the
    lateness order of overdue lists. */
module Views {
  import opened Types
  import opened Lists
  import opened Strings
  import opened Utils

  // ---- form input ---------------------------------------------------------------

  /** `parseFloat(text) || 0`: a field that does not parse (`None`, JavaScript's
      NaN) counts as 0, and so does an empty one. */
  function OrZero(x: Option<real>): real
  {
    match x
    case None => 0.0
    case Some(v) => v
  }

  /** `!parseFloat(text)`: NaN and 0 are falsy, every other number is not. */
  predicate Falsy(x: Option<real>)
  {
    x.None? || x.value == 0.0
  }

  // ---- staff ----------------------------------------------------------------------

  predicate IsStaff(c: Collector)
  {
    c.name != "Admin"
  }

  /** `collectors.filter(c => c.name !== 'Admin')`: every account but the administrator's. */
  function Staff(collectors: seq<Collector>): (r: seq<Collector>)
    ensures forall c :: c in r <==> c in collectors && c.name != "Admin"
    ensures IsSubsequence(r, collectors)
  {
    FilterIsSubsequence(collectors, IsStaff);
    Filter(collectors, IsStaff)
  }

  // ---- loans ------------------------------------------------------------------------

  predicate IsActive(l: Loan)
  {
    l.status == Active
  }

  function AreaIs(area: string): Loan -> bool
  {
    (l: Loan) => l.area == area
  }

  /** The Active loans, restricted to one area unless the filter is 'All'. */
  function ActiveIn(loans: seq<Loan>, areaFilter: string): (r: seq<Loan>)
    ensures forall l :: l in r <==> l in loans && l.status == Active && (areaFilter == "All" || l.area == areaFilter)
    ensures IsSubsequence(r, loans)
  {
    var active := Filter(loans, IsActive);
    FilterIsSubsequence(loans, IsActive);
    FilterIsSubsequence(active, AreaIs(areaFilter));
    SubsequenceTrans(Filter(active, AreaIs(areaFilter)), active, loans);
    if areaFilter != "All" then Filter(active, AreaIs(areaFilter)) else active
  }

  function Balance(l: Loan): real { l.balance }

  // ---- did a borrower pay on a date -------------------------------------------------

  /** A Collection entry booked on `date` whose description names the borrower. */
  predicate PaymentOn(t: Transaction, name: string, date: string)
  {
    t.txType == Collection && t.simpleDate == date && Contains(t.desc, name)
  }

  /** `ledger.some(t => t.type === 'Collection' && t.simpleDate === date && t.desc.includes(name))`. */
  predicate PaidOn(ledger: seq<Transaction>, name: string, date: string)
  {
    exists i :: 0 <= i < |ledger| && PaymentOn(ledger[i], name, date)
  }

  function Unpaid(ledger: seq<Transaction>, date: string): Loan -> bool
  {
    (l: Loan) => !PaidOn(ledger, l.name, date)
  }

  function Paid(ledger: seq<Transaction>, date: string): Loan -> bool
  {
    (l: Loan) => PaidOn(ledger, l.name, date)
  }

  /** The loans with no payment naming them on `date`. */
  function Absentees(loans: seq<Loan>, ledger: seq<Transaction>, date: string): (r: seq<Loan>)
    ensures forall l :: l in r <==> l in loans && !PaidOn(ledger, l.name, date)
  {
    Filter(loans, Unpaid(ledger, date))
  }

  /** The loans with a payment naming them on `date`. */
  function Attendees(loans: seq<Loan>, ledger: seq<Transaction>, date: string): (r: seq<Loan>)
    ensures forall l :: l in r <==> l in loans && PaidOn(ledger, l.name, date)
  {
    Filter(loans, Paid(ledger, date))
  }

  /** Every loan is either present or absent on a date, never both. */
  lemma PresentPlusAbsent(loans: seq<Loan>, ledger: seq<Transaction>, date: string)
    ensures |Attendees(loans, ledger, date)| + |Absentees(loans, ledger, date)| == |loans|
  {
    FilterSplitCount(loans, Paid(ledger, date), Unpaid(ledger, date));
  }

  /** The `forEach` that counts the loans with no payment on `date`. */
  method CountAbsent(loans: seq<Loan>, ledger: seq<Transaction>, date: string) returns (absent: nat)
    ensures absent == |Absentees(loans, ledger, date)|
  {
    absent := 0;
    for i := 0 to |loans|
      invariant absent == |Absentees(loans[..i], ledger, date)|
    {
      assert loans[..i + 1] == loans[..i] + [loans[i]];
      FilterAppend(loans[..i], [loans[i]], Unpaid(ledger, date));
      var paid := PaidOn(ledger, loans[i].name, date);
      if !paid {
        absent := absent + 1;
      }
    }
    assert loans[..|loans|] == loans;
  }

  /** The `forEach` that splits the loans into paid and not paid on `date`. */
  method CountPresentAbsent(loans: seq<Loan>, ledger: seq<Transaction>, date: string) returns (present: nat, absent: nat)
    ensures present == |Attendees(loans, ledger, date)|
    ensures absent == |Absentees(loans, ledger, date)|
  {
    present, absent := 0, 0;
    for i := 0 to |loans|
      invariant present == |Attendees(loans[..i], ledger, date)|
      invariant absent == |Absentees(loans[..i], ledger, date)|
    {
      assert loans[..i + 1] == loans[..i] + [loans[i]];
      FilterAppend(loans[..i], [loans[i]], Unpaid(ledger, date));
      FilterAppend(loans[..i], [loans[i]], Paid(ledger, date));
      var paid := PaidOn(ledger, loans[i].name, date);
      if paid {
        present := present + 1;
      } else {
        absent := absent + 1;
      }
    }
    assert loans[..|loans|] == loans;
  }

  // ---- lateness order ---------------------------------------------------------------

  /** The comparator `(a, b) => getOverdueDays(b) - getOverdueDays(a)`. */
  function LateFirst(today: int): (Loan, Loan) -> bool
  {
    (a: Loan, b: Loan) => OverdueDays(a, today) >= OverdueDays(b, today)
  }

  lemma LateFirstIsTotalPreorder(today: int)
    ensures TotalPreorder(LateFirst(today))
  {
  }

  /** Sorting by days late, most late first, rearranges the list without losing anyone. */
  function ByLateness(loans: seq<Loan>, today: int): (r: seq<Loan>)
    ensures multiset(r) == multiset(loans)
    ensures forall i, j :: 0 <= i < j < |r| ==> OverdueDays(r[i], today) >= OverdueDays(r[j], today)
  {
    LateFirstIsTotalPreorder(today);
    SortBySorted(loans, LateFirst(today));
    SortBy(loans, LateFirst(today))
  }

  function Overdue(today: int): Loan -> bool
  {
    (l: Loan) => IsOverdue(l, today)
  }
}
