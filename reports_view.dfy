/** The reports screen: the name-sorted portfolio with its totals, the renew
    button, the refinance form check, the refinance invoice and the collateral
    registry. */
module ReportsView {
  import opened Types
  import opened Lists
  import opened Strings
  import opened Terms
  import opened Views
  import DataStore
  import LoansView

  /** The comparator `(a, b) => a.name.localeCompare(b.name)`. */
  predicate NameLe(a: Loan, b: Loan)
  {
    StrLe(a.name, b.name)
  }

  lemma NameOrderIsTotal()
    ensures TotalPreorder(NameLe)
  {
    forall a: Loan, b: Loan ensures NameLe(a, b) || NameLe(b, a) {
      StrLeTotal(a.name, b.name);
    }
    forall a: Loan, b: Loan, c: Loan | NameLe(a, b) && NameLe(b, c) ensures NameLe(a, c) {
      StrLeTransitive(a.name, b.name, c.name);
    }
  }

  /** The report list: every loan, in name order. */
  function ReportList(loans: seq<Loan>): (r: seq<Loan>)
    ensures multiset(r) == multiset(loans)
    ensures forall i, j :: 0 <= i < j < |r| ==> StrLe(r[i].name, r[j].name)
  {
    NameOrderIsTotal();
    SortBySorted(loans, NameLe);
    SortBy(loans, NameLe)
  }

  datatype Totals = Totals(loaned: real, paid: real, bal: real)

  function LoanTotal(l: Loan): real { l.total }
  function PaidSoFar(l: Loan): real { l.total - l.balance }

  /** The footer row: the `reduce` adding up totals, amounts paid and balances. */
  function ReportTotals(loans: seq<Loan>): (t: Totals)
    ensures t.loaned == SumBy(loans, LoanTotal)
    ensures t.paid == SumBy(loans, PaidSoFar)
    ensures t.bal == SumBy(loans, Balance)
    decreases |loans|
  {
    if loans == [] then Totals(0.0, 0.0, 0.0)
    else
      var rest := ReportTotals(loans[1..]);
      var l := loans[0];
      Totals(l.total + rest.loaned, (l.total - l.balance) + rest.paid, l.balance + rest.bal)
  }

  /** What was lent is what came back plus what is still owed, and sorting the
      list does not change the footer. */
  lemma LoanedIsPaidPlusOutstanding(loans: seq<Loan>)
    ensures ReportTotals(loans).loaned == ReportTotals(loans).paid + ReportTotals(loans).bal
    ensures ReportTotals(ReportList(loans)) == ReportTotals(loans)
  {
    SumByDifference(loans, LoanTotal, Balance, PaidSoFar);
    var sorted := ReportList(loans);
    SumByPermutation(sorted, loans, LoanTotal);
    SumByPermutation(sorted, loans, PaidSoFar);
    SumByPermutation(sorted, loans, Balance);
  }

  /** The Renew button: shown for a Paid loan and for an Active one already paid into. */
  predicate CanRenew(l: Loan)
  {
    l.status == Paid || (l.status == Active && l.balance < l.total)
  }

  /** A fresh loan cannot be renewed, and any first payment of real money makes it renewable. */
  lemma FirstPaymentEnablesRenew(l: Loan, amount: real)
    requires l.status == Active && l.balance == l.total && amount > 0.0
    ensures !CanRenew(l)
    ensures var s := DataStore.PaymentApplied(l.balance, l.status, amount);
      CanRenew(l.(balance := s.balance, status := s.status))
  {
  }

  /** The refinance form as typed. */
  datatype RefinanceForm = RefinanceForm(newPrincipal: Option<real>, newTerm: int, serviceFee: Option<real>, deliveryCharge: Option<real>)

  /** What `handleRefinance` passes to `refinanceLoan`. */
  datatype RefinanceRequest = RefinanceRequest(oldLoanId: string, principal: real, term: int, serviceFee: real,
                                               deliveryCharge: real, user: string)

  /** `handleRefinance`: no selected loan, a principal that is not a positive
      number, or a principal below the old balance that the user does not
      confirm, all stop it; otherwise the admin's request goes through. */
  function HandleRefinance(selected: Option<Loan>, f: RefinanceForm, confirmed: bool): (r: Option<RefinanceRequest>)
    ensures r.Some? <==> selected.Some? && f.newPrincipal.Some? && f.newPrincipal.value > 0.0
                         && (f.newPrincipal.value < selected.value.balance ==> confirmed)
    ensures r.Some? ==> r.value == RefinanceRequest(selected.value.id, f.newPrincipal.value, f.newTerm,
                                                    OrZero(f.serviceFee), OrZero(f.deliveryCharge), "Admin")
  {
    match selected
    case None => None
    case Some(loan) =>
      if Falsy(f.newPrincipal) || f.newPrincipal.value <= 0.0 then None
      else if f.newPrincipal.value < loan.balance && !confirmed then None
      else Some(RefinanceRequest(loan.id, f.newPrincipal.value, f.newTerm, OrZero(f.serviceFee), OrZero(f.deliveryCharge), "Admin"))
  }

  /** The refinance invoice. */
  datatype Invoice = Invoice(principal: real, interest: real, term: int, total: real, daily: int,
                             serviceFee: real, deliveryCharge: real, oldBalance: real, netCash: real)

  /** The invoice's own pricing of the new loan and the cash handed over:
      new principal less the old balance and the fees, possibly negative. */
  function RefinanceInvoice(prior: Loan, principal: real, term: int, serviceFee: real, deliveryCharge: real): (inv: Invoice)
    requires term > 0
    ensures inv.total == QuoteFor(principal, term).total && inv.daily == QuoteFor(principal, term).daily
    ensures inv.netCash == principal - prior.balance - serviceFee - deliveryCharge
    ensures inv.oldBalance == prior.balance
  {
    var rate := if term == 40 then 0.10 else if term == 30 then 0.05 else 0.20;
    var interest := principal * rate;
    var total := principal + interest;
    Invoice(principal, interest, term, total, Ceil(total / term as real), serviceFee, deliveryCharge,
            prior.balance, principal - prior.balance - serviceFee - deliveryCharge)
  }

  /** The preview's net cash in the open form: 0 with no loan selected;
      otherwise the invoice's net cash, whatever the term, with a field that is
      not a number read as 0. */
  function PreviewNetCash(selected: Option<Loan>, f: RefinanceForm): (n: real)
    ensures selected.None? ==> n == 0.0
    ensures selected.Some? ==> forall term :: term > 0 ==>
      n == RefinanceInvoice(selected.value, OrZero(f.newPrincipal), term, OrZero(f.serviceFee), OrZero(f.deliveryCharge)).netCash
  {
    match selected
    case None => 0.0
    case Some(loan) => OrZero(f.newPrincipal) - loan.balance - OrZero(f.serviceFee) - OrZero(f.deliveryCharge)
  }

  /** The invoice agrees with the engine: the successor loan is priced as the
      invoice says, and with non-negative fees the net cash on the invoice is
      exactly what leaves the ledger. */
  lemma InvoiceMatchesRefinance(db: DataStore.Db, prior: Loan, r: RefinanceRequest, clock: Clock, gen: nat -> string)
    requires r.term > 0 && DataStore.FindLoan(db.loans, r.oldLoanId) == Some(prior)
    requires r.serviceFee >= 0.0 && r.deliveryCharge >= 0.0
    ensures var d := DataStore.RefinanceStep(db, r.oldLoanId, r.principal, r.term, r.serviceFee, r.deliveryCharge, r.user, clock, gen);
      var inv := RefinanceInvoice(prior, r.principal, r.term, r.serviceFee, r.deliveryCharge);
      && d.loans[0].total == inv.total && d.loans[0].daily == inv.daily
      && DataStore.Cash(d.ledger) == DataStore.Cash(db.ledger) - inv.netCash
  {
    DataStore.RefinanceLoansEffect(db, r.oldLoanId, r.principal, r.term, r.serviceFee, r.deliveryCharge, r.user, clock, gen);
    DataStore.RefinanceLedgerEffect(db, r.oldLoanId, r.principal, r.term, r.serviceFee, r.deliveryCharge, r.user, clock, gen);
  }

  predicate IsSecured(l: Loan)
  {
    l.collateral != "" && l.collateral != "Unsecured"
  }

  /** The collateral registry: the loans holding real collateral, in report order. */
  function CollateralRegistry(loans: seq<Loan>): (r: seq<Loan>)
    ensures forall l :: l in r <==> l in loans && l.collateral != "" && l.collateral != "Unsecured"
    ensures IsSubsequence(r, ReportList(loans))
  {
    var sorted := ReportList(loans);
    assert forall l :: l in sorted <==> l in loans by {
      forall l ensures l in sorted <==> l in loans {
        SortByMembers(loans, NameLe, l);
      }
    }
    FilterIsSubsequence(sorted, IsSecured);
    Filter(sorted, IsSecured)
  }

  /** The registry's status column. */
  function Holding(l: Loan): (s: string)
    ensures s == "Held" <==> l.status == Active
  {
    if l.status == Active then "Held" else "Released"
  }

  /** A loan created from a form whose collateral field was left blank is
      recorded as 'Unsecured' and so never shows in the registry. */
  lemma BlankCollateralNotRegistered(f: LoansView.LoanForm, db: DataStore.Db, user: string, clock: Clock, gen: nat -> string)
    requires f.term > 0 && f.collateral == "" && LoansView.CreateRequest(f).Some?
    ensures var d := DataStore.CreateLoanStep(db, LoansView.CreateRequest(f).value, user, clock, gen);
      d.loans[0] in d.loans && d.loans[0] !in CollateralRegistry(d.loans)
  {
    DataStore.CreateLoanEffect(db, LoansView.CreateRequest(f).value, user, clock, gen);
  }
}
