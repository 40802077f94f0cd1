/** The daily collection screen: the route sheet, the past-due list, the day's
    quota / collected / missed panel, and the Pay button of each row. */
module CollectionView {
  import opened Types
  import opened Lists
  import opened Strings
  import opened Utils
  import opened Views
  import DataStore

  // ---- the route sheet ------------------------------------------------------------

  function NameSearch(search: string): Loan -> bool
  {
    (l: Loan) => Contains(ToLower(l.name), ToLower(search))
  }

  /** The route sheet: Active loans in the chosen area, narrowed by a
      case-insensitive name search unless the search box is empty. */
  function FilteredLoans(loans: seq<Loan>, areaFilter: string, search: string): (r: seq<Loan>)
    ensures forall l :: l in r <==> l in loans && l.status == Active && (areaFilter == "All" || l.area == areaFilter)
                                    && (search != "" ==> Contains(ToLower(l.name), ToLower(search)))
    ensures IsSubsequence(r, loans)
  {
    var inArea := ActiveIn(loans, areaFilter);
    FilterIsSubsequence(inArea, NameSearch(search));
    SubsequenceTrans(Filter(inArea, NameSearch(search)), inArea, loans);
    if search != "" then Filter(inArea, NameSearch(search)) else inArea
  }

  /** The past-due panel: empty for the administrator (who has a tab for it),
      otherwise the overdue loans of the route sheet, most days late first. */
  function PastDueLoans(filtered: seq<Loan>, isAdmin: bool, today: int): (r: seq<Loan>)
    ensures forall l :: l in r <==> !isAdmin && l in filtered && IsOverdue(l, today)
    ensures !isAdmin ==> multiset(r) == multiset(Filter(filtered, Overdue(today)))
    ensures forall i, j :: 0 <= i < j < |r| ==> OverdueDays(r[i], today) >= OverdueDays(r[j], today)
  {
    if isAdmin then []
    else
      var r := ByLateness(Filter(filtered, Overdue(today)), today);
      assert forall l :: l in r <==> l in multiset(Filter(filtered, Overdue(today)));
      r
  }

  // ---- the day's panel --------------------------------------------------------------

  /** The panel's quota: for the administrator the quota of the first collector
      of the chosen area (0 when there is none), for a collector their own. */
  function TargetQuota(viewer: Viewer, areaFilter: string, collectors: seq<Collector>): (q: real)
    ensures !viewer.isAdmin ==> q == viewer.quota
    ensures viewer.isAdmin && (forall c :: c in collectors ==> c.area != areaFilter) ==> q == 0.0
    ensures viewer.isAdmin && q != 0.0 ==> exists c :: c in collectors && c.area == areaFilter && c.quota == q
    ensures viewer.isAdmin ==>
              forall i :: (0 <= i < |collectors| && collectors[i].area == areaFilter
                           && forall j :: 0 <= j < i ==> collectors[j].area != areaFilter) ==> q == collectors[i].quota
  {
    if viewer.isAdmin then
      match FindFirst(collectors, (c: Collector) => c.area == areaFilter)
      case None => 0.0
      case Some(c) => c.quota
    else viewer.quota
  }

  /** A JavaScript value compared with `===`: a string or `undefined`. */
  datatype JsValue = Str(s: string) | Undefined

  /** The first filter of the collected sum exactly as it is written: Collection
      entries of the date whose description (administrator) or user (collector)
      is strictly equal to `undefined` (administrator) or the collector's name. */
  function CollectedAsWrittenFilter(viewer: Viewer, date: string): Transaction -> bool
  {
    (t: Transaction) =>
      t.txType == Collection && t.simpleDate == date
      && (if viewer.isAdmin then Str(t.desc) else Str(t.user)) == (if viewer.isAdmin then Undefined else Str(viewer.name))
  }

  function NamesListedLoan(filtered: seq<Loan>): Transaction -> bool
  {
    (t: Transaction) => exists i :: 0 <= i < |filtered| && Contains(t.desc, filtered[i].name)
  }

  function ByUser(name: string): Transaction -> bool
  {
    (t: Transaction) => t.user == name
  }

  /** The collected figure as written: both filters, then the sum of amounts. */
  function CollectedAsWritten(ledger: seq<Transaction>, viewer: Viewer, date: string, filtered: seq<Loan>): real
  {
    var first := Filter(ledger, CollectedAsWrittenFilter(viewer, date));
    var second := if viewer.isAdmin then Filter(first, NamesListedLoan(filtered)) else Filter(first, ByUser(viewer.name));
    SumBy(second, DataStore.Amt)
  }

  /** No ledger entry's description is `undefined`, so the administrator's
      collected figure is 0 whatever was collected. */
  lemma AdminCollectedAlwaysZero(ledger: seq<Transaction>, viewer: Viewer, date: string, filtered: seq<Loan>)
    requires viewer.isAdmin
    ensures CollectedAsWritten(ledger, viewer, date, filtered) == 0.0
  {
  }

  /** A payment of 250 today for the one listed loan still shows 0 collected to
      the administrator, while the intended figure is 250. */
  lemma AdminCollectedCounterexample()
    ensures var loan := Loan("L1", "Ana", "North", 1000.0, 1200.0, 1200.0, 20, 60, 0, Active, "", "", 0.0, 0.0, "Unsecured", "");
      var t := Transaction("T1", "now", "2026-10-14", Collection, "Payment: Ana", 250.0, "Ben", "");
      var admin := Viewer("Admin", "HQ", 0.0, true);
      && CollectedAsWritten([t], admin, "2026-10-14", [loan]) == 0.0
      && Collected([t], admin, "2026-10-14", [loan]) == 250.0
  {
    var loan := Loan("L1", "Ana", "North", 1000.0, 1200.0, 1200.0, 20, 60, 0, Active, "", "", 0.0, 0.0, "Unsecured", "");
    var t := Transaction("T1", "now", "2026-10-14", Collection, "Payment: Ana", 250.0, "Ben", "");
    var admin := Viewer("Admin", "HQ", 0.0, true);
    AdminCollectedAlwaysZero([t], admin, "2026-10-14", [loan]);
    ContainsInfix("Payment: ", "Ana", "");
    assert "Payment: Ana" == "Payment: " + "Ana" + "";
    assert Contains(t.desc, [loan][0].name);
    assert CollectedFilter(admin, "2026-10-14", [loan])(t);
    assert Filter([t], CollectedFilter(admin, "2026-10-14", [loan])) == [t];
  }

  /** The collected filter as intended: the date's Collection entries that name a
      listed loan (administrator) or that the collector booked (collector). */
  function CollectedFilter(viewer: Viewer, date: string, filtered: seq<Loan>): Transaction -> bool
  {
    (t: Transaction) =>
      t.txType == Collection && t.simpleDate == date
      && (if viewer.isAdmin then exists i :: 0 <= i < |filtered| && Contains(t.desc, filtered[i].name)
          else t.user == viewer.name)
  }

  /** The collected figure as intended. */
  function Collected(ledger: seq<Transaction>, viewer: Viewer, date: string, filtered: seq<Loan>): real
  {
    SumBy(Filter(ledger, CollectedFilter(viewer, date, filtered)), DataStore.Amt)
  }

  /** For a collector the figure as written is the intended one: the sum of
      their own Collection entries on the date. */
  lemma {:induction false} CollectorCollectedAsIntended(ledger: seq<Transaction>, viewer: Viewer, date: string,
                                                        filtered: seq<Loan>)
    requires !viewer.isAdmin
    ensures CollectedAsWritten(ledger, viewer, date, filtered) == Collected(ledger, viewer, date, filtered)
  {
    CollectorFiltersAgree(ledger, viewer, date, filtered);
  }

  lemma {:induction false} CollectorFiltersAgree(ledger: seq<Transaction>, viewer: Viewer, date: string,
                                                 filtered: seq<Loan>)
    requires !viewer.isAdmin
    ensures Filter(Filter(ledger, CollectedAsWrittenFilter(viewer, date)), ByUser(viewer.name))
         == Filter(ledger, CollectedFilter(viewer, date, filtered))
  {
    if ledger != [] {
      CollectorFiltersAgree(ledger[1..], viewer, date, filtered);
    }
  }

  /** A payment booked on the panel's date raises the intended collected figure
      by exactly its amount: for the administrator when the loan is on the
      route sheet, for a collector when they booked it. */
  lemma PaymentRaisesCollected(db: DataStore.Db, loan: Loan, amount: real, user: string, date: string,
                               clock: Clock, gen: nat -> string, viewer: Viewer, filtered: seq<Loan>)
    requires DataStore.FindLoan(db.loans, loan.id) == Some(loan) && date != ""
    requires viewer.isAdmin ==> loan in filtered
    requires !viewer.isAdmin ==> user == viewer.name
    ensures Collected(DataStore.ProcessPaymentStep(db, loan.id, amount, user, date, clock, gen).ledger, viewer, date, filtered)
            == Collected(db.ledger, viewer, date, filtered) + amount
  {
    var d := DataStore.ProcessPaymentStep(db, loan.id, amount, user, date, clock, gen);
    var t := DataStore.Entry(gen(0), clock, Collection, "Payment: " + loan.name, amount, user, date, "");
    assert d.ledger == [t] + db.ledger;
    var p := CollectedFilter(viewer, date, filtered);
    if viewer.isAdmin {
      ContainsInfix("Payment: ", loan.name, "");
      assert "Payment: " + loan.name + "" == t.desc;
      var i :| 0 <= i < |filtered| && filtered[i] == loan;
      assert Contains(t.desc, filtered[i].name);
    }
    assert p(t);
    FilterAppend([t], db.ledger, p);
    assert Filter([t], p) == [t];
    DataStore.CashPrepend(t, Filter(db.ledger, p));
  }

  /** The numbers of the day's panel. */
  datatype DayPanel = DayPanel(collected: real, quota: real, absent: nat)

  /** `dailyStats`: no panel for the administrator looking at all areas; otherwise
      the intended collected figure, the target quota and the number of route-sheet
      loans with no payment on the date. */
  method DailyStats(ledger: seq<Transaction>, collectors: seq<Collector>, filtered: seq<Loan>, viewer: Viewer,
                    areaFilter: string, date: string) returns (r: Option<DayPanel>)
    ensures r.None? <==> viewer.isAdmin && areaFilter == "All"
    ensures r.Some? ==> r.value.collected == Collected(ledger, viewer, date, filtered)
    ensures r.Some? ==> r.value.quota == TargetQuota(viewer, areaFilter, collectors)
    ensures r.Some? ==> r.value.absent == |Absentees(filtered, ledger, date)| <= |filtered|
  {
    if viewer.isAdmin && areaFilter == "All" {
      return None;
    }
    var absent := CountAbsent(filtered, ledger, date);
    r := Some(DayPanel(Collected(ledger, viewer, date, filtered), TargetQuota(viewer, areaFilter, collectors), absent));
  }

  // ---- the Pay button ------------------------------------------------------------------

  /** The `onPay` call a Pay click makes. */
  datatype PayCall = PayCall(loanId: string, amount: real, user: string, date: string)

  /** A Pay click: the button is disabled when the row is paid and the date is
      today; a date other than today needs the user's confirmation; a compact
      (past-due) row always pays the daily installment, a full row the typed amount. */
  function PayClick(loan: Loan, compact: bool, typed: real, user: string, dateFilter: string, today: string,
                    confirmed: bool, isPaid: bool): (r: Option<PayCall>)
    ensures r.Some? <==> !(isPaid && dateFilter == today) && (dateFilter == today || confirmed)
    ensures r.Some? ==> r.value.loanId == loan.id && r.value.user == user && r.value.date == dateFilter
    ensures r.Some? && compact ==> r.value.amount == loan.daily as real
    ensures r.Some? && !compact ==> r.value.amount == typed
  {
    if isPaid && dateFilter == today then None
    else
      var amount := if compact then loan.daily as real else typed;
      if dateFilter != today && !confirmed then None
      else Some(PayCall(loan.id, amount, user, dateFilter))
  }

  /** Once a row's payment is booked for the date, the row shows as paid on that
      date, and when that date is today its Pay button is disabled. */
  lemma PayThenPaid(db: DataStore.Db, loan: Loan, compact: bool, typed: real, user: string, dateFilter: string,
                    confirmed: bool, isPaid: bool, clock: Clock, gen: nat -> string)
    requires DataStore.FindLoan(db.loans, loan.id) == Some(loan) && dateFilter != ""
    requires PayClick(loan, compact, typed, user, dateFilter, clock.today, confirmed, isPaid).Some?
    ensures var call := PayClick(loan, compact, typed, user, dateFilter, clock.today, confirmed, isPaid).value;
      var d := DataStore.ProcessPaymentStep(db, call.loanId, call.amount, call.user, call.date, clock, gen);
      && PaidOn(d.ledger, loan.name, dateFilter)
      && (dateFilter == clock.today ==>
            PayClick(loan, compact, typed, user, dateFilter, clock.today, confirmed, PaidOn(d.ledger, loan.name, dateFilter)).None?)
  {
    var call := PayClick(loan, compact, typed, user, dateFilter, clock.today, confirmed, isPaid).value;
    var d := DataStore.ProcessPaymentStep(db, call.loanId, call.amount, call.user, call.date, clock, gen);
    var t := DataStore.Entry(gen(0), clock, Collection, "Payment: " + loan.name, call.amount, user, dateFilter, "");
    assert d.ledger == [t] + db.ledger;
    ContainsInfix("Payment: ", loan.name, "");
    assert "Payment: " + loan.name + "" == t.desc;
    assert PaymentOn(d.ledger[0], loan.name, dateFilter);
  }

  /** A row that has been paid on a date stays paid whatever is booked later. */
  lemma PaidStaysPaid(ledger: seq<Transaction>, t: Transaction, name: string, date: string)
    requires PaidOn(ledger, name, date)
    ensures PaidOn([t] + ledger, name, date)
  {
    var i :| 0 <= i < |ledger| && PaymentOn(ledger[i], name, date);
    assert ([t] + ledger)[i + 1] == ledger[i];
  }
}
