/** The local-mode data engine: the database record, the three list primitives
    every write goes through (add prepends, update merges into matching ids,
    delete filters matching ids out), and the business actions built from them.
    Each action is a function from the database before to the database after;
    the `Store` class performs the same writes one after another on its fields.

    The environment is a parameter: `clock` gives today and the current
    timestamp, and `gen(k)` is an id drawn from the id generator: each write of
    one action draws from its own slot `k`, distinct from the other writes'
    slots (the slot numbers do not follow the order of the writes). */
module DataStore {
  import opened Types
  import opened Lists
  import opened Strings
  import opened Terms

  datatype Db = Db(
    collectors: seq<Collector>,
    investors: seq<Investor>,
    loans: seq<Loan>,
    ledger: seq<Transaction>,
    attendance: seq<Attendance>,
    payroll: seq<PayrollRecord>,
    audit: seq<AuditLog>)

  /** The built-in administrator account, id 1. */
  const AdminId: string := "1"

  function AdminAccount(): Collector
  {
    Collector(AdminId, "Admin", "HQ", "admin123", "", 0.0, 0.0, 0.0)
  }

  /** The database a fresh installation starts from. */
  function DefaultDb(): (db: Db)
    ensures db.collectors == [AdminAccount()]
    ensures db.loans == [] && db.ledger == [] && db.investors == []
    ensures db.attendance == [] && db.payroll == [] && db.audit == []
  {
    Db([AdminAccount()], [], [], [], [], [], [])
  }

  // ---- the three list primitives ----------------------------------------------

  /** `add`: the new item goes in front. */
  function Add<T>(list: seq<T>, x: T): (r: seq<T>)
    ensures |r| == |list| + 1 && r[0] == x
    ensures IsSuffix(list, r)
  {
    PrependedIsSuffix([x], list);
    [x] + list
  }

  /** `update`: every item whose id matches gets the fields of `merge`; the rest are untouched. */
  function UpdateById<T>(list: seq<T>, idOf: T -> string, id: string, merge: T -> T): seq<T>
  {
    if list == [] then []
    else [if idOf(list[0]) == id then merge(list[0]) else list[0]] + UpdateById(list[1..], idOf, id, merge)
  }

  /** An update keeps the length and position of every item; it merges into exactly
      the items whose id matches. */
  lemma {:induction false} UpdateByIdAt<T>(list: seq<T>, idOf: T -> string, id: string, merge: T -> T)
    ensures |UpdateById(list, idOf, id, merge)| == |list|
    ensures forall i :: 0 <= i < |list| && idOf(list[i]) == id ==> UpdateById(list, idOf, id, merge)[i] == merge(list[i])
    ensures forall i :: 0 <= i < |list| && idOf(list[i]) != id ==> UpdateById(list, idOf, id, merge)[i] == list[i]
  {
    if list != [] {
      UpdateByIdAt(list[1..], idOf, id, merge);
    }
  }

  /** `delete`: items whose id matches are dropped, the others kept in order. */
  function DeleteById<T>(list: seq<T>, idOf: T -> string, id: string): (r: seq<T>)
    ensures forall i :: 0 <= i < |r| ==> idOf(r[i]) != id
    ensures forall i :: 0 <= i < |list| && idOf(list[i]) != id ==> list[i] in r
    ensures forall i :: 0 <= i < |r| ==> r[i] in list
  {
    Filter(list, x => idOf(x) != id)
  }

  /** Updating or deleting an id that is not there leaves the list as it was. */
  lemma AbsentIdUnchanged<T>(list: seq<T>, idOf: T -> string, id: string, merge: T -> T)
    requires forall i :: 0 <= i < |list| ==> idOf(list[i]) != id
    ensures UpdateById(list, idOf, id, merge) == list
    ensures DeleteById(list, idOf, id) == list
  {
    FilterAll(list, x => idOf(x) != id);
  }

  /** A delete keeps the survivors in their original order. */
  lemma DeleteKeepsOrder<T>(list: seq<T>, idOf: T -> string, id: string)
    ensures IsSubsequence(DeleteById(list, idOf, id), list)
  {
    FilterIsSubsequence(list, x => idOf(x) != id);
  }

  /** A delete keeps the survivors' ids distinct. */
  lemma DeleteKeepsIdsDistinct<T>(list: seq<T>, idOf: T -> string, id: string)
    requires KeysDistinct(list, idOf)
    ensures KeysDistinct(DeleteById(list, idOf, id), idOf)
  {
    FilterKeepsKeysDistinct(list, x => idOf(x) != id, idOf);
  }

  function LoanId(l: Loan): string { l.id }
  function CollectorId(c: Collector): string { c.id }
  function AttendanceId(a: Attendance): string { a.id }
  function InvestorId(v: Investor): string { v.id }

  // ---- ledger and audit writes ------------------------------------------------

  /** One ledger entry; an empty `dateOverride` books it on today's date. */
  function Entry(id: string, clock: Clock, txType: TxType, desc: string, amt: real,
                 user: string, dateOverride: string, category: string): (t: Transaction)
    ensures t.simpleDate == (if dateOverride == "" then clock.today else dateOverride)
    ensures t.txType == txType && t.amt == amt && t.desc == desc && t.user == user && t.category == category
  {
    Transaction(id, clock.now, if dateOverride != "" then dateOverride else clock.today, txType, desc, amt, user, category)
  }

  /** `addLedger`: one entry in front of the ledger; nothing else changes. */
  function AddLedgerStep(db: Db, id: string, clock: Clock, txType: TxType, desc: string, amt: real,
                         user: string, dateOverride: string, category: string): (d: Db)
    ensures d.ledger == [Entry(id, clock, txType, desc, amt, user, dateOverride, category)] + db.ledger

  {
    db.(ledger := Add(db.ledger, Entry(id, clock, txType, desc, amt, user, dateOverride, category)))
  }

  /** `logAction`: one audit record in front of the audit trail. */
  function LogStep(db: Db, id: string, clock: Clock, action: AuditAction, details: string, user: string): (d: Db)
    ensures d.audit == [AuditLog(id, clock.now, user, action, details)] + db.audit

  {
    db.(audit := Add(db.audit, AuditLog(id, clock.now, user, action, details)))
  }

  function Amt(t: Transaction): real { t.amt }

  /** The cash the ledger accounts for: the signed sum of all amounts. */
  function Cash(ledger: seq<Transaction>): real
  {
    SumBy(ledger, Amt)
  }

  lemma CashPrepend(t: Transaction, ledger: seq<Transaction>)
    ensures Cash([t] + ledger) == t.amt + Cash(ledger)
  {
    assert ([t] + ledger)[1..] == ledger;
  }

  /** `x > 0 ? x : 0`: what a fee contributes when it is only booked if positive. */
  function Positive(x: real): real
  {
    if x > 0.0 then x else 0.0
  }

  predicate IsFeeCollection(t: Transaction)
  {
    t.txType == Collection && t.category == "Fee"
  }

  function FeeCount(fee: real, delivery: real): nat
  {
    (if fee > 0.0 then 1 else 0) + (if delivery > 0.0 then 1 else 0)
  }

  /** The fee entries booked after a disbursement: a service fee and a delivery
      charge, each only when positive. */
  function FeeWrites(db: Db, gen: nat -> string, clock: Clock, name: string, feeLabel: string, deliveryLabel: string,
                     fee: real, delivery: real, user: string): (d: Db)
    ensures |d.ledger| == |db.ledger| + FeeCount(fee, delivery)
    ensures d.ledger[FeeCount(fee, delivery)..] == db.ledger
    ensures forall i :: 0 <= i < FeeCount(fee, delivery) ==> IsFeeCollection(d.ledger[i])
    ensures Cash(d.ledger) == Cash(db.ledger) + Positive(fee) + Positive(delivery)

  {
    var d1 := if fee > 0.0 then AddLedgerStep(db, gen(2), clock, Collection, feeLabel + name, fee, user, "", "Fee") else db;
    var d2 := if delivery > 0.0 then AddLedgerStep(d1, gen(3), clock, Collection, deliveryLabel + name, delivery, user, "", "Fee") else d1;
    CashPrepend(Entry(gen(2), clock, Collection, feeLabel + name, fee, user, "", "Fee"), db.ledger);
    CashPrepend(Entry(gen(3), clock, Collection, deliveryLabel + name, delivery, user, "", "Fee"), d1.ledger);
    d2
  }

  // ---- loans --------------------------------------------------------------------

  /** What the loan form supplies: everything but id, status, balance, total, daily and date. */
  datatype LoanData = LoanData(
    name: string,
    area: string,
    principal: real,
    term: int,
    address: string,
    cellNumber: string,
    serviceFee: real,
    deliveryCharge: real,
    collateral: string,
    notes: string)

  /** The loan `createLoan` stores: priced by the rate table, owing its whole total. */
  function NewLoan(data: LoanData, id: string, day: int): (l: Loan)
    requires data.term > 0
    ensures l.id == id && l.date == day && l.status == Active
    ensures l.total == QuoteFor(data.principal, data.term).total && l.daily == QuoteFor(data.principal, data.term).daily
    ensures l.balance == l.total
    ensures l.collateral == (if data.collateral == "" then "Unsecured" else data.collateral)
    ensures l.name == data.name && l.area == data.area && l.principal == data.principal && l.term == data.term
    ensures l.serviceFee == data.serviceFee && l.deliveryCharge == data.deliveryCharge
  {
    var q := QuoteFor(data.principal, data.term);
    Loan(id, data.name, data.area, data.principal, q.total, q.total, q.daily, data.term, day, Active,
         data.address, data.cellNumber, data.serviceFee, data.deliveryCharge,
         if data.collateral == "" then "Unsecured" else data.collateral, data.notes)
  }

  /** `createLoan`: store the loan, book the disbursement, then the positive fees, then log. */
  function CreateLoanStep(db: Db, data: LoanData, user: string, clock: Clock, gen: nat -> string): Db
    requires data.term > 0
  {
    var loan := NewLoan(data, gen(0), clock.day);
    var d1 := db.(loans := Add(db.loans, loan));
    var d2 := AddLedgerStep(d1, gen(1), clock, Disbursement, "Loan: " + loan.name, -loan.principal, user, "", "");
    var d3 := FeeWrites(d2, gen, clock, loan.name, "Service Fee: ", "Delivery Charge: ", loan.serviceFee, loan.deliveryCharge, user);
    LogStep(d3, gen(4), clock, Create, "New Loan Created: " + loan.name, user)
  }

  /** `createLoan` as its four writes, one after another. */
  lemma CreateLoanStepIs(db: Db, data: LoanData, user: string, clock: Clock, gen: nat -> string)
    requires data.term > 0
    ensures var loan := NewLoan(data, gen(0), clock.day);
      CreateLoanStep(db, data, user, clock, gen)
      == LogStep(FeeWrites(AddLedgerStep(db.(loans := Add(db.loans, loan)), gen(1), clock, Disbursement, "Loan: " + loan.name,
                                         -loan.principal, user, "", ""),
                           gen, clock, loan.name, "Service Fee: ", "Delivery Charge: ", loan.serviceFee, loan.deliveryCharge, user),
                 gen(4), clock, Create, "New Loan Created: " + loan.name, user)
  {
  }

  /** One new Active loan in front, one audit record, and no other collection
      but the ledger changes. */
  lemma CreateLoanEffect(db: Db, data: LoanData, user: string, clock: Clock, gen: nat -> string)
    requires data.term > 0
    ensures var d := CreateLoanStep(db, data, user, clock, gen);
      && d.loans == [NewLoan(data, gen(0), clock.day)] + db.loans
      && d.audit == [AuditLog(gen(4), clock.now, user, Create, "New Loan Created: " + data.name)] + db.audit
      && d.collectors == db.collectors && d.investors == db.investors
      && d.attendance == db.attendance && d.payroll == db.payroll
  {
  }

  /** Below the fee entries sits exactly one disbursement of the principal, the
      old ledger is untouched underneath, and the cash moves by the fees net of
      the principal. */
  lemma CreateLoanLedgerEffect(db: Db, data: LoanData, user: string, clock: Clock, gen: nat -> string)
    requires data.term > 0
    ensures var d := CreateLoanStep(db, data, user, clock, gen);
      var n := FeeCount(data.serviceFee, data.deliveryCharge);
      && |d.ledger| == |db.ledger| + 1 + n
      && d.ledger[n + 1..] == db.ledger
      && (forall i :: 0 <= i < n ==> IsFeeCollection(d.ledger[i]))
      && d.ledger[n].txType == Disbursement && d.ledger[n].amt == -data.principal
      && Cash(d.ledger) == Cash(db.ledger) - data.principal + Positive(data.serviceFee) + Positive(data.deliveryCharge)
  {
    var loan := NewLoan(data, gen(0), clock.day);
    var d1 := db.(loans := Add(db.loans, loan));
    var d2 := AddLedgerStep(d1, gen(1), clock, Disbursement, "Loan: " + loan.name, -loan.principal, user, "", "");
    var n := FeeCount(data.serviceFee, data.deliveryCharge);
    var d3 := FeeWrites(d2, gen, clock, loan.name, "Service Fee: ", "Delivery Charge: ", loan.serviceFee, loan.deliveryCharge, user);
    CashPrepend(d2.ledger[0], db.ledger);
    assert d3.ledger[n] == d2.ledger[0] by {
      assert d3.ledger[n..][0] == d2.ledger[0];
    }
    assert d3.ledger[n + 1..] == db.ledger by {
      assert d3.ledger[n + 1..] == d3.ledger[n..][1..];
    }
  }

  /** How a payment settles a balance. */
  datatype Settlement = Settlement(balance: real, status: LoanStatus)

  /** The balance rule of `processPayment`: the payment is capped at the balance
      plus half a unit, and a remainder of at most half a unit is forgiven. */
  function PaymentApplied(balance: real, status: LoanStatus, amount: real): (s: Settlement)
    ensures s.balance >= 0.0
    ensures s.balance == 0.0 || s.balance > 0.5
    ensures balance - amount <= 0.5 ==> s == Settlement(0.0, Paid)
    ensures balance - amount > 0.5 ==> s == Settlement(balance - amount, status)
    ensures amount >= 0.0 && balance >= 0.0 ==> s.balance <= balance
  {
    var pay := if amount < balance + 0.5 then amount else balance + 0.5;
    var newBal := balance - pay;
    if newBal <= 0.5 then Settlement(0.0, Paid) else Settlement(newBal, status)
  }

  /** The cap never decides anything: any overpayment ends in the same settled state. */
  lemma PaymentExamples()
    ensures PaymentApplied(100.0, Active, 100.0) == Settlement(0.0, Paid)
    ensures PaymentApplied(100.0, Active, 99.6) == Settlement(0.0, Paid)
    ensures PaymentApplied(100.0, Active, 500.0) == Settlement(0.0, Paid)
    ensures PaymentApplied(100.0, Active, 40.0) == Settlement(60.0, Active)
  {
  }

  /** A negative amount raises the balance; on a settled loan it leaves a Paid
      loan owing money, the case the route sheet lists as "Paid with balance". */
  lemma NegativePaymentReopensPaidLoan()
    ensures PaymentApplied(0.0, Paid, -100.0) == Settlement(100.0, Paid)
  {
  }

  predicate LoanIs(l: Loan, id: string) { l.id == id }

  /** `db.loans.find(l => l.id === id)`. */
  function FindLoan(loans: seq<Loan>, id: string): Option<Loan>
  {
    FindFirst(loans, l => LoanIs(l, id))
  }

  /** The merge `{ balance, status }` of a settlement. */
  function Settle(s: Settlement): Loan -> Loan
  {
    (x: Loan) => x.(balance := s.balance, status := s.status)
  }

  /** The merge `{ status: 'Paid', balance: 0 }` of a refinanced loan. */
  function CloseOut(): Loan -> Loan
  {
    (x: Loan) => x.(status := Paid, balance := 0.0)
  }

  /** `processPayment`: settle every loan with the id, then book the requested amount. */
  function ProcessPaymentStep(db: Db, loanId: string, amount: real, user: string, dateOverride: string,
                              clock: Clock, gen: nat -> string): Db
  {
    match FindLoan(db.loans, loanId)
    case None => db
    case Some(loan) =>
      var s := PaymentApplied(loan.balance, loan.status, amount);
      var d1 := db.(loans := UpdateById(db.loans, LoanId, loanId, Settle(s)));
      AddLedgerStep(d1, gen(0), clock, Collection, "Payment: " + loan.name, amount, user, dateOverride, "")
  }

  /** The ledger always receives the full requested amount, even when the balance
      absorbed less or the loan was already Paid; an unknown id changes nothing. */
  lemma ProcessPaymentEffect(db: Db, loanId: string, amount: real, user: string, dateOverride: string,
                             clock: Clock, gen: nat -> string)
    ensures var d := ProcessPaymentStep(db, loanId, amount, user, dateOverride, clock, gen);
      match FindLoan(db.loans, loanId)
      case None => d == db
      case Some(loan) =>
        && |d.loans| == |db.loans|
        && (forall i :: 0 <= i < |db.loans| && db.loans[i].id == loanId ==>
              d.loans[i] == db.loans[i].(balance := PaymentApplied(loan.balance, loan.status, amount).balance,
                                         status := PaymentApplied(loan.balance, loan.status, amount).status))
        && (forall i :: 0 <= i < |db.loans| && db.loans[i].id != loanId ==> d.loans[i] == db.loans[i])
        && d.ledger[1..] == db.ledger
        && d.ledger[0].txType == Collection && d.ledger[0].amt == amount
        && Cash(d.ledger) == Cash(db.ledger) + amount
        && d.audit == db.audit && d.collectors == db.collectors
  {
    match FindLoan(db.loans, loanId)
    case None =>
    case Some(loan) =>
      var d := ProcessPaymentStep(db, loanId, amount, user, dateOverride, clock, gen);
      UpdateByIdAt(db.loans, LoanId, loanId, Settle(PaymentApplied(loan.balance, loan.status, amount)));
      CashPrepend(d.ledger[0], db.ledger);
  }

  /** Three days' worth of money paid on a loan owing 100 books 500 but clears only 100. */
  lemma OverpaymentBookedInFull(db: Db, loan: Loan, clock: Clock, gen: nat -> string)
    requires db.loans == [loan] && loan.balance == 100.0 && loan.status == Active
    ensures ProcessPaymentStep(db, loan.id, 500.0, "c", "", clock, gen).loans == [loan.(balance := 0.0, status := Paid)]
    ensures Cash(ProcessPaymentStep(db, loan.id, 500.0, "c", "", clock, gen).ledger) == Cash(db.ledger) + 500.0
  {
    ProcessPaymentEffect(db, loan.id, 500.0, "c", "", clock, gen);
  }

  /** The loan that replaces a refinanced one: fresh terms from the rate table,
      the borrower's details carried over. */
  function Successor(prior: Loan, id: string, newPrincipal: real, newTerm: int, serviceFee: real,
                     deliveryCharge: real, day: int): (l: Loan)
    requires newTerm > 0
    ensures l.status == Active && l.balance == l.total && l.principal == newPrincipal && l.term == newTerm
    ensures l.total == QuoteFor(newPrincipal, newTerm).total && l.daily == QuoteFor(newPrincipal, newTerm).daily
    ensures l.name == prior.name && l.area == prior.area && l.address == prior.address
    ensures l.cellNumber == prior.cellNumber && l.collateral == prior.collateral
    ensures l.id == id
  {
    var q := QuoteFor(newPrincipal, newTerm);
    Loan(id, prior.name, prior.area, newPrincipal, q.total, q.total, q.daily, newTerm, day,
         Active, prior.address, prior.cellNumber, serviceFee, deliveryCharge, prior.collateral,
         "Refinanced from previous loan.")
  }

  /** The ledger writes of a refinance: the old balance collected, the new
      principal paid out, then the positive fees. */
  function RefinanceBookings(db: Db, prior: Loan, newPrincipal: real, serviceFee: real, deliveryCharge: real,
                             user: string, clock: Clock, gen: nat -> string): (d: Db)
    ensures d == db.(ledger := d.ledger)
  {
    var d1 := AddLedgerStep(db, gen(1), clock, Collection, "Refinance Payment: " + prior.name, prior.balance, user, "", "");
    var d2 := AddLedgerStep(d1, gen(5), clock, Disbursement, "Refinance Loan: " + prior.name, -newPrincipal, user, "", "");
    FeeWrites(d2, gen, clock, prior.name, "Service Fee (Ref): ", "Delivery Charge (Ref): ", serviceFee, deliveryCharge, user)
  }

  /** The loan writes of a refinance: close every loan with the old id, then add the successor. */
  function RefinanceLoans(db: Db, oldLoanId: string, successor: Loan): Db
  {
    var d1 := db.(loans := UpdateById(db.loans, LoanId, oldLoanId, CloseOut()));
    d1.(loans := Add(d1.loans, successor))
  }

  /** The writes of refinancing `prior`. */
  function RefinanceFrom(db: Db, prior: Loan, newPrincipal: real, newTerm: int, serviceFee: real,
                         deliveryCharge: real, user: string, clock: Clock, gen: nat -> string): Db
    requires newTerm > 0
  {
    var successor := Successor(prior, gen(0), newPrincipal, newTerm, serviceFee, deliveryCharge, clock.day);
    var d2 := RefinanceLoans(db, prior.id, successor);
    var d3 := RefinanceBookings(d2, prior, newPrincipal, serviceFee, deliveryCharge, user, clock, gen);
    LogStep(d3, gen(4), clock, Update, "Loan Refinanced: " + prior.name, user)
  }

  /** `refinanceLoan`: close the old loan, open its successor, book the payoff,
      the new disbursement and the positive fees, then log. */
  function RefinanceStep(db: Db, oldLoanId: string, newPrincipal: real, newTerm: int, serviceFee: real,
                         deliveryCharge: real, user: string, clock: Clock, gen: nat -> string): Db
    requires newTerm > 0
  {
    match FindLoan(db.loans, oldLoanId)
    case None => db
    case Some(prior) => RefinanceFrom(db, prior, newPrincipal, newTerm, serviceFee, deliveryCharge, user, clock, gen)
  }

  /** The old loan ends Paid with nothing owed and its successor, Active and owing
      its full total, goes in front; an unknown id changes nothing. */
  lemma RefinanceLoansEffect(db: Db, oldLoanId: string, newPrincipal: real, newTerm: int, serviceFee: real,
                             deliveryCharge: real, user: string, clock: Clock, gen: nat -> string)
    requires newTerm > 0
    ensures var d := RefinanceStep(db, oldLoanId, newPrincipal, newTerm, serviceFee, deliveryCharge, user, clock, gen);
      match FindLoan(db.loans, oldLoanId)
      case None => d == db
      case Some(prior) =>
        && d.loans[0] == Successor(prior, gen(0), newPrincipal, newTerm, serviceFee, deliveryCharge, clock.day)
        && |d.loans| == |db.loans| + 1
        && (forall i :: 0 <= i < |db.loans| && db.loans[i].id == oldLoanId ==>
              d.loans[i + 1] == db.loans[i].(status := Paid, balance := 0.0))
        && (forall i :: 0 <= i < |db.loans| && db.loans[i].id != oldLoanId ==> d.loans[i + 1] == db.loans[i])
        && |d.audit| == |db.audit| + 1
  {
    match FindLoan(db.loans, oldLoanId)
    case None =>
    case Some(prior) =>
      var successor := Successor(prior, gen(0), newPrincipal, newTerm, serviceFee, deliveryCharge, clock.day);
      RefinanceLoansAt(db, prior.id, successor);
  }

  lemma RefinanceLoansAt(db: Db, oldLoanId: string, successor: Loan)
    ensures var d := RefinanceLoans(db, oldLoanId, successor);
      && d.loans[0] == successor
      && |d.loans| == |db.loans| + 1
      && (forall i :: 0 <= i < |db.loans| && db.loans[i].id == oldLoanId ==>
            d.loans[i + 1] == db.loans[i].(status := Paid, balance := 0.0))
      && (forall i :: 0 <= i < |db.loans| && db.loans[i].id != oldLoanId ==> d.loans[i + 1] == db.loans[i])
      && d.ledger == db.ledger && d.audit == db.audit
  {
    UpdateByIdAt(db.loans, LoanId, oldLoanId, CloseOut());
    var closed := UpdateById(db.loans, LoanId, oldLoanId, CloseOut());
    assert forall i :: 0 <= i < |db.loans| ==> RefinanceLoans(db, oldLoanId, successor).loans[i + 1] == closed[i];
  }

  /** The ledger receives, in writing order, the old balance, minus the new
      principal, then the positive fees, and nothing below them changes. */
  lemma RefinanceLedgerEffect(db: Db, oldLoanId: string, newPrincipal: real, newTerm: int, serviceFee: real,
                              deliveryCharge: real, user: string, clock: Clock, gen: nat -> string)
    requires newTerm > 0
    ensures var d := RefinanceStep(db, oldLoanId, newPrincipal, newTerm, serviceFee, deliveryCharge, user, clock, gen);
      var n := FeeCount(serviceFee, deliveryCharge);
      match FindLoan(db.loans, oldLoanId)
      case None => d == db
      case Some(prior) =>
        && |d.ledger| == |db.ledger| + 2 + n
        && (forall i :: 0 <= i < n ==> IsFeeCollection(d.ledger[i]))
        && d.ledger[n].txType == Disbursement && d.ledger[n].amt == -newPrincipal
        && d.ledger[n + 1].txType == Collection && d.ledger[n + 1].amt == prior.balance
        && d.ledger[n + 2..] == db.ledger
        && Cash(d.ledger) == Cash(db.ledger) + prior.balance - newPrincipal + Positive(serviceFee) + Positive(deliveryCharge)
  {
    match FindLoan(db.loans, oldLoanId)
    case None =>
    case Some(prior) =>
      var d := RefinanceStep(db, oldLoanId, newPrincipal, newTerm, serviceFee, deliveryCharge, user, clock, gen);
      var successor := Successor(prior, gen(0), newPrincipal, newTerm, serviceFee, deliveryCharge, clock.day);
      var d2 := RefinanceLoans(db, prior.id, successor);
      assert d2.ledger == db.ledger;
      RefinanceBookingsEffect(d2, prior, newPrincipal, serviceFee, deliveryCharge, user, clock, gen);
      assert d.ledger == RefinanceBookings(d2, prior, newPrincipal, serviceFee, deliveryCharge, user, clock, gen).ledger;
  }

  lemma RefinanceBookingsEffect(db: Db, prior: Loan, newPrincipal: real, serviceFee: real, deliveryCharge: real,
                                user: string, clock: Clock, gen: nat -> string)
    ensures var d := RefinanceBookings(db, prior, newPrincipal, serviceFee, deliveryCharge, user, clock, gen);
      var n := FeeCount(serviceFee, deliveryCharge);
      && |d.ledger| == |db.ledger| + 2 + n
      && (forall i :: 0 <= i < n ==> IsFeeCollection(d.ledger[i]))
      && d.ledger[n].txType == Disbursement && d.ledger[n].amt == -newPrincipal
      && d.ledger[n + 1].txType == Collection && d.ledger[n + 1].amt == prior.balance
      && d.ledger[n + 2..] == db.ledger
      && Cash(d.ledger) == Cash(db.ledger) + prior.balance - newPrincipal + Positive(serviceFee) + Positive(deliveryCharge)
  {
    var d1 := AddLedgerStep(db, gen(1), clock, Collection, "Refinance Payment: " + prior.name, prior.balance, user, "", "");
    var d2 := AddLedgerStep(d1, gen(5), clock, Disbursement, "Refinance Loan: " + prior.name, -newPrincipal, user, "", "");
    var d := FeeWrites(d2, gen, clock, prior.name, "Service Fee (Ref): ", "Delivery Charge (Ref): ", serviceFee, deliveryCharge, user);
    var n := FeeCount(serviceFee, deliveryCharge);
    CashPrepend(d1.ledger[0], db.ledger);
    CashPrepend(d2.ledger[0], d1.ledger);
    assert d.ledger[n..] == d2.ledger;
    assert d.ledger[n] == d2.ledger[0] by {
      assert d.ledger[n..][0] == d2.ledger[0];
    }
    assert d.ledger[n + 1] == d1.ledger[0] by {
      assert d.ledger[n..][1] == d2.ledger[1];
    }
    assert d.ledger[n + 2..] == db.ledger by {
      assert d.ledger[n + 2..] == d.ledger[n..][2..];
    }
  }

  /** `deleteLoan`: drop the loan and log it; an unknown id changes nothing. */
  function DeleteLoanStep(db: Db, id: string, clock: Clock, gen: nat -> string): Db
  {
    match FindLoan(db.loans, id)
    case None => db
    case Some(loan) =>
      var d1 := db.(loans := DeleteById(db.loans, LoanId, id));
      LogStep(d1, gen(0), clock, Delete, "Loan Deleted: " + loan.name, "Admin")
  }

  lemma DeleteLoanEffect(db: Db, id: string, clock: Clock, gen: nat -> string)
    ensures var d := DeleteLoanStep(db, id, clock, gen);
      && (forall i :: 0 <= i < |db.loans| ==> db.loans[i].id != id) ==> d == db
    ensures var d := DeleteLoanStep(db, id, clock, gen);
      && (forall i :: 0 <= i < |d.loans| ==> d.loans[i].id != id)
      && (forall i :: 0 <= i < |db.loans| && db.loans[i].id != id ==> db.loans[i] in d.loans)
      && IsSubsequence(d.loans, db.loans)
      && d.ledger == db.ledger
  {
    var d := DeleteLoanStep(db, id, clock, gen);
    if FindLoan(db.loans, id).Some? {
      DeleteKeepsOrder(db.loans, LoanId, id);
    } else {
      assert d == db;
      assert forall i :: 0 <= i < |db.loans| ==> db.loans[i].id != id;
      FilterAll(db.loans, x => LoanId(x) != id);
      FilterIsSubsequence(db.loans, x => LoanId(x) != id);
    }
  }

  // ---- collectors -----------------------------------------------------------------

  predicate CollectorIs(c: Collector, id: string) { c.id == id }

  function FindCollector(collectors: seq<Collector>, id: string): Option<Collector>
  {
    FindFirst(collectors, x => CollectorIs(x, id))
  }

  /** The merge of a full collector record: every field replaced. */
  function Replace(c: Collector): Collector -> Collector
  {
    _ => c
  }

  /** `updateCollector`: replace the collector with that id, or add it if none has it; then log. */
  function UpdateCollectorStep(db: Db, c: Collector, clock: Clock, gen: nat -> string): Db
  {
    var list :=
      if FindCollector(db.collectors, c.id).Some?
      then UpdateById(db.collectors, CollectorId, c.id, Replace(c))
      else Add(db.collectors, c);
    LogStep(db.(collectors := list), gen(0), clock, Update, "Collector Updated/Created: " + c.name, "Admin")
  }

  /** Afterwards the collector is on file as given, collectors with other ids are
      untouched, and the list grows only when the id was new. */
  lemma UpdateCollectorEffect(db: Db, c: Collector, clock: Clock, gen: nat -> string)
    ensures var d := UpdateCollectorStep(db, c, clock, gen);
      && c in d.collectors
      && (forall i :: 0 <= i < |d.collectors| ==> d.collectors[i] == c || d.collectors[i] in db.collectors)
      && (forall i :: 0 <= i < |db.collectors| && db.collectors[i].id != c.id ==> db.collectors[i] in d.collectors)
      && |d.collectors| == |db.collectors| + (if exists i :: 0 <= i < |db.collectors| && CollectorIs(db.collectors[i], c.id) then 0 else 1)
      && d.loans == db.loans && d.ledger == db.ledger
  {
    var d := UpdateCollectorStep(db, c, clock, gen);
    match FindCollector(db.collectors, c.id)
    case None =>
      assert d.collectors[0] == c;
      assert forall i :: 0 <= i < |db.collectors| ==> d.collectors[i + 1] == db.collectors[i];
    case Some(found) =>
      UpdateByIdAt(db.collectors, CollectorId, c.id, Replace(c));
      var k :| 0 <= k < |db.collectors| && db.collectors[k] == found;
      assert d.collectors[k] == c;
  }

  /** `deleteCollector`: the administrator (id 1) can never be deleted. */
  function DeleteCollectorStep(db: Db, id: string, clock: Clock, gen: nat -> string): Db
  {
    if id == AdminId then db
    else
      match FindCollector(db.collectors, id)
      case None => db
      case Some(col) =>
        var d1 := db.(collectors := DeleteById(db.collectors, CollectorId, id));
        LogStep(d1, gen(0), clock, Delete, "Collector Deleted: " + col.name, "Admin")
  }

  /** Every account other than the deleted id survives, so the administrator always does. */
  lemma DeleteCollectorKeepsOthers(db: Db, id: string, clock: Clock, gen: nat -> string, c: Collector)
    requires c in db.collectors && (c.id != id || c.id == AdminId)
    ensures c in DeleteCollectorStep(db, id, clock, gen).collectors
  {
    if id != AdminId {
      var k :| 0 <= k < |db.collectors| && db.collectors[k] == c;
    }
  }

  lemma DeleteCollectorRemoves(db: Db, id: string, clock: Clock, gen: nat -> string)
    requires id != AdminId
    ensures forall c :: c in DeleteCollectorStep(db, id, clock, gen).collectors ==> c.id != id
  {
    var d := DeleteCollectorStep(db, id, clock, gen);
    if FindCollector(db.collectors, id).None? {
      assert d.collectors == db.collectors;
    }
  }

  // ---- attendance -------------------------------------------------------------------

  predicate SameDay(a: Attendance, date: string, empId: string)
  {
    a.date == date && a.empId == empId
  }

  /** `db.attendance.find(a => a.date === date && a.empId == empId)`. */
  function FindMark(att: seq<Attendance>, date: string, empId: string): Option<Attendance>
  {
    FindFirst(att, a => SameDay(a, date, empId))
  }

  function SetStatus(status: AttendanceStatus): Attendance -> Attendance
  {
    (a: Attendance) => a.(status := status)
  }

  /** `markAttendance`: an upsert keyed on (date, employee). */
  function MarkAttendanceStep(db: Db, date: string, empId: string, status: AttendanceStatus, gen: nat -> string): Db
  {
    var existing := FindMark(db.attendance, date, empId);
    if existing.Some? && existing.value.id != "" then
      db.(attendance := UpdateById(db.attendance, AttendanceId, existing.value.id, SetStatus(status)))
    else
      db.(attendance := Add(db.attendance, Attendance(gen(0), date, empId, status)))
  }

  /** A mark on a day that already has one with an id only changes statuses, in
      place; otherwise exactly one record is added in front. */
  lemma MarkAttendanceEffect(db: Db, date: string, empId: string, status: AttendanceStatus, gen: nat -> string)
    ensures var d := MarkAttendanceStep(db, date, empId, status, gen);
      var existing := FindMark(db.attendance, date, empId);
      && (existing.Some? && existing.value.id != "" ==>
            |d.attendance| == |db.attendance|
            && (forall i :: 0 <= i < |db.attendance| && db.attendance[i].id == existing.value.id ==>
                  d.attendance[i] == db.attendance[i].(status := status))
            && (forall i :: 0 <= i < |db.attendance| && db.attendance[i].id != existing.value.id ==>
                  d.attendance[i] == db.attendance[i]))
      && (!(existing.Some? && existing.value.id != "") ==>
            d.attendance == [Attendance(gen(0), date, empId, status)] + db.attendance)
      && d.loans == db.loans && d.ledger == db.ledger && d.audit == db.audit
  {
    var existing := FindMark(db.attendance, date, empId);
    if existing.Some? && existing.value.id != "" {
      UpdateByIdAt(db.attendance, AttendanceId, existing.value.id, SetStatus(status));
    }
  }

  /** Updating the status of the records that share the found record's id keeps
      that record the first one for its day, now with the new status. */
  lemma {:induction false} FindMarkAfterUpdate(att: seq<Attendance>, date: string, empId: string, status: AttendanceStatus)
    requires FindMark(att, date, empId).Some?
    ensures FindMark(UpdateById(att, AttendanceId, FindMark(att, date, empId).value.id, SetStatus(status)), date, empId)
         == Some(FindMark(att, date, empId).value.(status := status))
  {
    var id := FindMark(att, date, empId).value.id;
    var u := UpdateById(att, AttendanceId, id, SetStatus(status));
    assert u[1..] == UpdateById(att[1..], AttendanceId, id, SetStatus(status));
    if !SameDay(att[0], date, empId) {
      assert FindMark(att, date, empId) == FindMark(att[1..], date, empId);
      assert !SameDay(u[0], date, empId);
      FindMarkAfterUpdate(att[1..], date, empId, status);
    }
  }

  /** After marking, the first record for that day and employee carries the new status. */
  lemma MarkAttendanceThenFind(db: Db, date: string, empId: string, status: AttendanceStatus, gen: nat -> string)
    ensures var d := MarkAttendanceStep(db, date, empId, status, gen);
      var found := FindMark(d.attendance, date, empId);
      found.Some? && found.value.status == status
  {
    var d := MarkAttendanceStep(db, date, empId, status, gen);
    var existing := FindMark(db.attendance, date, empId);
    if existing.Some? && existing.value.id != "" {
      FindMarkAfterUpdate(db.attendance, date, empId, status);
    } else {
      assert SameDay(d.attendance[0], date, empId);
    }
  }

  /** Records are keyed by (date, employee). */
  ghost predicate KeysUnique(att: seq<Attendance>)
  {
    forall i, j :: 0 <= i < j < |att| ==> !SameDay(att[i], att[j].date, att[j].empId)
  }

  ghost predicate IdsPresent(att: seq<Attendance>)
  {
    forall i :: 0 <= i < |att| ==> att[i].id != ""
  }

  /** While every stored record has an id, marking never creates a second record for a day. */
  lemma MarkAttendanceKeepsKeysUnique(db: Db, date: string, empId: string, status: AttendanceStatus, gen: nat -> string)
    requires KeysUnique(db.attendance) && IdsPresent(db.attendance) && gen(0) != ""
    ensures KeysUnique(MarkAttendanceStep(db, date, empId, status, gen).attendance)
    ensures IdsPresent(MarkAttendanceStep(db, date, empId, status, gen).attendance)
  {
    var d := MarkAttendanceStep(db, date, empId, status, gen);
    MarkAttendanceEffect(db, date, empId, status, gen);
    var existing := FindMark(db.attendance, date, empId);
    if existing.Some? {
      assert existing.value.id != "";
      forall i, j | 0 <= i < j < |d.attendance| ensures !SameDay(d.attendance[i], d.attendance[j].date, d.attendance[j].empId) {
        assert !SameDay(db.attendance[i], db.attendance[j].date, db.attendance[j].empId);
      }
    } else {
      forall i, j | 0 <= i < j < |d.attendance| ensures !SameDay(d.attendance[i], d.attendance[j].date, d.attendance[j].empId) {
        if i == 0 {
          assert d.attendance[j] == db.attendance[j - 1];
          assert !SameDay(db.attendance[j - 1], date, empId);
        } else {
          assert !SameDay(db.attendance[i - 1], db.attendance[j - 1].date, db.attendance[j - 1].empId);
        }
      }
    }
  }

  // ---- payroll --------------------------------------------------------------------

  function NetPay(r: PayrollRecord): real { r.netPay }

  /** The salary entry of one payroll record. */
  function SalaryEntry(r: PayrollRecord, id: string, user: string, clock: Clock): Transaction
  {
    Entry(id, clock, Payroll, "Salary: " + r.empName + " (" + r.month + ")", -r.netPay, user, "", "")
  }

  /** The writes of the first `|records|` iterations: record `k` is stored and
      its salary booked under id `gen(k)`. */
  function PayrollWrites(db: Db, records: seq<PayrollRecord>, user: string, clock: Clock, gen: nat -> string): Db
    decreases |records|
  {
    if records == [] then db
    else
      var k := |records| - 1;
      var d := PayrollWrites(db, records[..k], user, clock, gen);
      d.(payroll := Add(d.payroll, records[k]), ledger := Add(d.ledger, SalaryEntry(records[k], gen(k), user, clock)))
  }

  /** `processPayroll`: store each record and book its salary, then log once. */
  function ProcessPayrollStep(db: Db, records: seq<PayrollRecord>, user: string, clock: Clock, gen: nat -> string): Db
  {
    LogStep(PayrollWrites(db, records, user, clock, gen), gen(|records|), clock, Create,
            "Payroll Processed for " + NatToString(|records|) + " employees", user)
  }

  /** The salary entries of a payroll run, newest (last record's) first. */
  function SalaryEntries(records: seq<PayrollRecord>, user: string, clock: Clock, gen: nat -> string): seq<Transaction>
    decreases |records|
  {
    if records == [] then []
    else
      var k := |records| - 1;
      [SalaryEntry(records[k], gen(k), user, clock)] + SalaryEntries(records[..k], user, clock, gen)
  }

  /** A payroll run prepends the records in reverse order and their salary entries,
      and changes no other collection. */
  lemma {:induction false} PayrollWritesEffect(db: Db, records: seq<PayrollRecord>, user: string, clock: Clock, gen: nat -> string)
    ensures var d := PayrollWrites(db, records, user, clock, gen);
      && d.ledger == SalaryEntries(records, user, clock, gen) + db.ledger
      && d.collectors == db.collectors && d.investors == db.investors && d.loans == db.loans
      && d.attendance == db.attendance && d.audit == db.audit
    decreases |records|
  {
    if records != [] {
      PayrollWritesEffect(db, records[..|records| - 1], user, clock, gen);
    }
  }

  lemma {:induction false} PayrollWritesRecords(db: Db, records: seq<PayrollRecord>, user: string, clock: Clock, gen: nat -> string)
    ensures PayrollWrites(db, records, user, clock, gen).payroll == Reversed(records) + db.payroll
    decreases |records|
  {
    if records != [] {
      var k := |records| - 1;
      var prev := records[..k];
      PayrollWritesRecords(db, prev, user, clock, gen);
      assert records == prev + [records[k]];
      ReversedAppend(prev, [records[k]]);
    }
  }

  /** Entry `|records| - 1 - k` books record `k`: a Payroll entry of minus its net pay. */
  lemma {:induction false} SalaryEntriesAt(records: seq<PayrollRecord>, user: string, clock: Clock, gen: nat -> string)
    ensures |SalaryEntries(records, user, clock, gen)| == |records|
    ensures forall k :: 0 <= k < |records| ==>
      SalaryEntries(records, user, clock, gen)[|records| - 1 - k] == SalaryEntry(records[k], gen(k), user, clock)
    decreases |records|
  {
    if records != [] {
      var k := |records| - 1;
      var prev := records[..k];
      SalaryEntriesAt(prev, user, clock, gen);
      forall j | 0 <= j < k
        ensures SalaryEntries(records, user, clock, gen)[|records| - 1 - j] == SalaryEntry(records[j], gen(j), user, clock)
      {
        assert records[j] == prev[j];
      }
    }
  }

  /** The salary entries take out exactly the sum of the net pays. */
  lemma {:induction false} SalaryEntriesCash(records: seq<PayrollRecord>, user: string, clock: Clock, gen: nat -> string)
    ensures Cash(SalaryEntries(records, user, clock, gen)) == -SumBy(records, NetPay)
    decreases |records|
  {
    if records != [] {
      var k := |records| - 1;
      var prev := records[..k];
      SalaryEntriesCash(prev, user, clock, gen);
      CashPrepend(SalaryEntry(records[k], gen(k), user, clock), SalaryEntries(prev, user, clock, gen));
      assert records == prev + [records[k]];
      SumByAppend(prev, [records[k]], NetPay);
      assert SumBy([records[k]], NetPay) == records[k].netPay;
    }
  }

  // ---- investors and capital ----------------------------------------------------

  /** `addInvestor`: store the investor, book the capital in, log. */
  function AddInvestorStep(db: Db, inv: Investor, clock: Clock, gen: nat -> string): Db
  {
    var d1 := db.(investors := Add(db.investors, inv));
    var d2 := AddLedgerStep(d1, gen(0), clock, Capital, "Investment: " + inv.name, inv.capitalInvested, "Admin", "", "");
    LogStep(d2, gen(1), clock, Create, "New Investor Added: " + inv.name, "Admin")
  }

  lemma AddInvestorEffect(db: Db, inv: Investor, clock: Clock, gen: nat -> string)
    ensures var d := AddInvestorStep(db, inv, clock, gen);
      && d.investors == [inv] + db.investors
      && d.ledger[1..] == db.ledger && d.ledger[0].txType == Capital && d.ledger[0].amt == inv.capitalInvested
      && Cash(d.ledger) == Cash(db.ledger) + inv.capitalInvested
      && d.loans == db.loans
  {
    var d := AddInvestorStep(db, inv, clock, gen);
    CashPrepend(d.ledger[0], db.ledger);
  }

  predicate InvestorIs(v: Investor, id: string) { v.id == id }

  function FindInvestor(investors: seq<Investor>, id: string): Option<Investor>
  {
    FindFirst(investors, v => InvestorIs(v, id))
  }

  function RaisePayouts(total: real): Investor -> Investor
  {
    (v: Investor) => v.(totalPayouts := total)
  }

  /** The writes of a dividend payment to `inv`. */
  function PayInvestor(db: Db, inv: Investor, amount: real, clock: Clock, gen: nat -> string): Db
  {
    var d1 := db.(investors := UpdateById(db.investors, InvestorId, inv.id, RaisePayouts(inv.totalPayouts + amount)));
    var d2 := AddLedgerStep(d1, gen(0), clock, Dividend, "Payout: " + inv.name, -amount, "Admin", "", "");
    LogStep(d2, gen(1), clock, Update, "Dividend Paid: " + inv.name, "Admin")
  }

  /** `payDividend`: raise the investor's payouts by `amount` and book it out; an unknown id changes nothing. */
  function PayDividendStep(db: Db, investorId: string, amount: real, clock: Clock, gen: nat -> string): Db
  {
    match FindInvestor(db.investors, investorId)
    case None => db
    case Some(inv) => PayInvestor(db, inv, amount, clock, gen)
  }

  /** Every investor with the paid id gets the payouts of the first one raised by
      `amount`, the others are untouched, and the amount is booked out; an
      unknown id changes nothing. */
  lemma PayDividendEffect(db: Db, investorId: string, amount: real, clock: Clock, gen: nat -> string)
    ensures var d := PayDividendStep(db, investorId, amount, clock, gen);
      match FindInvestor(db.investors, investorId)
      case None => d == db
      case Some(inv) =>
        && |d.investors| == |db.investors|
        && (forall i :: 0 <= i < |db.investors| && db.investors[i].id == investorId ==>
              d.investors[i] == db.investors[i].(totalPayouts := inv.totalPayouts + amount))
        && (forall i :: 0 <= i < |db.investors| && db.investors[i].id != investorId ==> d.investors[i] == db.investors[i])
        && d.ledger[1..] == db.ledger && d.ledger[0].txType == Dividend && d.ledger[0].amt == -amount
        && Cash(d.ledger) == Cash(db.ledger) - amount
        && d.loans == db.loans
  {
    match FindInvestor(db.investors, investorId)
    case None =>
    case Some(inv) => PayInvestorEffect(db, inv, amount, clock, gen);
  }

  lemma PayInvestorEffect(db: Db, inv: Investor, amount: real, clock: Clock, gen: nat -> string)
    ensures var d := PayInvestor(db, inv, amount, clock, gen);
      && |d.investors| == |db.investors|
      && (forall i :: 0 <= i < |db.investors| && db.investors[i].id == inv.id ==>
            d.investors[i] == db.investors[i].(totalPayouts := inv.totalPayouts + amount))
      && (forall i :: 0 <= i < |db.investors| && db.investors[i].id != inv.id ==> d.investors[i] == db.investors[i])
      && d.ledger[1..] == db.ledger && d.ledger[0].txType == Dividend && d.ledger[0].amt == -amount
      && Cash(d.ledger) == Cash(db.ledger) - amount
      && d.loans == db.loans
  {
    var d := PayInvestor(db, inv, amount, clock, gen);
    UpdateByIdAt(db.investors, InvestorId, inv.id, RaisePayouts(inv.totalPayouts + amount));
    CashPrepend(d.ledger[0], db.ledger);
  }

  /** After a payment the first investor with the id shows the raised payouts. */
  lemma PayDividendThenFind(db: Db, investorId: string, amount: real, clock: Clock, gen: nat -> string)
    requires FindInvestor(db.investors, investorId).Some?
    ensures FindInvestor(PayDividendStep(db, investorId, amount, clock, gen).investors, investorId)
         == Some(FindInvestor(db.investors, investorId).value.(totalPayouts := FindInvestor(db.investors, investorId).value.totalPayouts + amount))
  {
    var inv := FindInvestor(db.investors, investorId).value;
    var merge := RaisePayouts(inv.totalPayouts + amount);
    assert forall v :: merge(v).id == v.id;
    assert PayDividendStep(db, investorId, amount, clock, gen).investors == UpdateById(db.investors, InvestorId, investorId, merge);
    FindInvestorAfterUpdate(db.investors, investorId, merge);
  }

  lemma {:induction false} FindInvestorAfterUpdate(investors: seq<Investor>, id: string, merge: Investor -> Investor)
    requires forall v :: merge(v).id == v.id
    requires FindInvestor(investors, id).Some?
    ensures FindInvestor(UpdateById(investors, InvestorId, id, merge), id) == Some(merge(FindInvestor(investors, id).value))
  {
    var u := UpdateById(investors, InvestorId, id, merge);
    assert u[1..] == UpdateById(investors[1..], InvestorId, id, merge);
    if !InvestorIs(investors[0], id) {
      assert FindInvestor(investors, id) == FindInvestor(investors[1..], id);
      FindInvestorAfterUpdate(investors[1..], id, merge);
    }
  }

  /** `addCapital`: book the amount in as Capital, then log it. */
  function AddCapitalStep(db: Db, amount: real, user: string, clock: Clock, gen: nat -> string, show: real -> string): Db
  {
    var d1 := AddLedgerStep(db, gen(0), clock, Capital, "Internal Capital Injection", amount, user, "", "");
    LogStep(d1, gen(1), clock, Update, "Injected Capital: " + show(amount), user)
  }

  lemma AddCapitalEffect(db: Db, amount: real, user: string, clock: Clock, gen: nat -> string, show: real -> string)
    ensures var d := AddCapitalStep(db, amount, user, clock, gen, show);
      && d.ledger[1..] == db.ledger && d.ledger[0].txType == Capital && d.ledger[0].amt == amount
      && Cash(d.ledger) == Cash(db.ledger) + amount
      && |d.audit| == |db.audit| + 1 && d.loans == db.loans && d.investors == db.investors
  {
    var d := AddCapitalStep(db, amount, user, clock, gen, show);
    CashPrepend(d.ledger[0], db.ledger);
  }

  // ---- restoring a backup -------------------------------------------------------

  /** A parsed backup: each collection present or missing. */
  datatype Backup = Backup(
    collectors: Option<seq<Collector>>,
    investors: Option<seq<Investor>>,
    loans: Option<seq<Loan>>,
    ledger: Option<seq<Transaction>>,
    attendance: Option<seq<Attendance>>,
    payroll: Option<seq<PayrollRecord>>,
    audit: Option<seq<AuditLog>>)

  function OrDefault<T>(o: Option<T>, d: T): T
  {
    match o
    case None => d
    case Some(v) => v
  }

  /** `importData` in local mode: `{...DEFAULT_DB, ...parsed}`, where a file that
      does not parse (`None`) leaves the database as it was. */
  function ImportStep(db: Db, parsed: Option<Backup>): Db
  {
    match parsed
    case None => db
    case Some(b) =>
      var z := DefaultDb();
      Db(OrDefault(b.collectors, z.collectors), OrDefault(b.investors, z.investors), OrDefault(b.loans, z.loans),
         OrDefault(b.ledger, z.ledger), OrDefault(b.attendance, z.attendance), OrDefault(b.payroll, z.payroll),
         OrDefault(b.audit, z.audit))
  }

  /** The backup a full export of `db` parses to. */
  function FullBackup(db: Db): Backup
  {
    Backup(Some(db.collectors), Some(db.investors), Some(db.loans), Some(db.ledger), Some(db.attendance),
           Some(db.payroll), Some(db.audit))
  }

  /** Restoring a full backup reproduces the database, whatever was loaded before;
      a backup missing a collection gets that collection from the defaults. */
  lemma ImportRoundTrip(db: Db, current: Db)
    ensures ImportStep(current, Some(FullBackup(db))) == db
    ensures ImportStep(current, Some(FullBackup(db).(collectors := None))).collectors == [AdminAccount()]
  {
  }

  /** Restoring a backup replaces the ledger wholesale: loading one taken with an
      empty ledger over a database that has entries drops them all. */
  lemma ImportRewritesHistory(db: Db)
    requires db.ledger != []
    ensures ImportStep(db, Some(FullBackup(db.(ledger := [])))).ledger == []
    ensures !IsSuffix(db.ledger, ImportStep(db, Some(FullBackup(db.(ledger := [])))).ledger)
  {
    ImportRoundTrip(db.(ledger := []), db);
  }

  // ---- the actions as one state machine -----------------------------------------

  datatype Action =
    | AddLedgerOp(id: string, txType: TxType, desc: string, amt: real, user: string, dateOverride: string, category: string)
    | AddCapitalOp(amount: real, user: string, show: real -> string)
    | CreateLoanOp(data: LoanData, user: string)
    | RefinanceOp(oldLoanId: string, newPrincipal: real, newTerm: int, serviceFee: real, deliveryCharge: real, user: string)
    | PaymentOp(loanId: string, amount: real, user: string, dateOverride: string)
    | DeleteLoanOp(loanId: string)
    | UpdateCollectorOp(collector: Collector)
    | DeleteCollectorOp(collectorId: string)
    | MarkAttendanceOp(date: string, empId: string, status: AttendanceStatus)
    | PayrollOp(records: seq<PayrollRecord>, user: string)
    | AddInvestorOp(investor: Investor)
    | PayDividendOp(investorId: string, amount: real)

  /** The actions the engine can run: loan terms must be positive. */
  predicate Runnable(a: Action)
  {
    match a
    case CreateLoanOp(data, _) => data.term > 0
    case RefinanceOp(_, _, newTerm, _, _, _) => newTerm > 0
    case _ => true
  }

  function Step(db: Db, a: Action, clock: Clock, gen: nat -> string): Db
    requires Runnable(a)
  {
    match a
    case AddLedgerOp(id, txType, desc, amt, user, dateOverride, category) =>
      AddLedgerStep(db, id, clock, txType, desc, amt, user, dateOverride, category)
    case AddCapitalOp(amount, user, show) => AddCapitalStep(db, amount, user, clock, gen, show)
    case CreateLoanOp(data, user) => CreateLoanStep(db, data, user, clock, gen)
    case RefinanceOp(oldId, p, t, fee, del, user) => RefinanceStep(db, oldId, p, t, fee, del, user, clock, gen)
    case PaymentOp(loanId, amount, user, dateOverride) => ProcessPaymentStep(db, loanId, amount, user, dateOverride, clock, gen)
    case DeleteLoanOp(loanId) => DeleteLoanStep(db, loanId, clock, gen)
    case UpdateCollectorOp(c) => UpdateCollectorStep(db, c, clock, gen)
    case DeleteCollectorOp(id) => DeleteCollectorStep(db, id, clock, gen)
    case MarkAttendanceOp(date, empId, status) => MarkAttendanceStep(db, date, empId, status, gen)
    case PayrollOp(records, user) => ProcessPayrollStep(db, records, user, clock, gen)
    case AddInvestorOp(inv) => AddInvestorStep(db, inv, clock, gen)
    case PayDividendOp(id, amount) => PayDividendStep(db, id, amount, clock, gen)
  }

  /** A session: each action with its own clock reading and id generator. */
  function Run(db: Db, actions: seq<Action>, clocks: seq<Clock>, gens: seq<nat -> string>): Db
    requires |clocks| == |actions| && |gens| == |actions|
    requires forall i :: 0 <= i < |actions| ==> Runnable(actions[i])
    decreases |actions|
  {
    if actions == [] then db
    else Run(Step(db, actions[0], clocks[0], gens[0]), actions[1..], clocks[1..], gens[1..])
  }

  lemma CreateLoanOnlyPrepends(db: Db, data: LoanData, user: string, clock: Clock, gen: nat -> string)
    requires data.term > 0
    ensures IsSuffix(db.ledger, CreateLoanStep(db, data, user, clock, gen).ledger)
    ensures IsSuffix(db.audit, CreateLoanStep(db, data, user, clock, gen).audit)
  {
    CreateLoanEffect(db, data, user, clock, gen);
    CreateLoanLedgerEffect(db, data, user, clock, gen);
    var d := CreateLoanStep(db, data, user, clock, gen);
    var n := FeeCount(data.serviceFee, data.deliveryCharge);
    PrependedIsSuffix(d.ledger[..n + 1], db.ledger);
    assert d.ledger == d.ledger[..n + 1] + db.ledger;
    PrependedIsSuffix([d.audit[0]], db.audit);
  }

  lemma RefinanceOnlyPrepends(db: Db, oldLoanId: string, newPrincipal: real, newTerm: int, serviceFee: real,
                              deliveryCharge: real, user: string, clock: Clock, gen: nat -> string)
    requires newTerm > 0
    ensures IsSuffix(db.ledger, RefinanceStep(db, oldLoanId, newPrincipal, newTerm, serviceFee, deliveryCharge, user, clock, gen).ledger)
    ensures IsSuffix(db.audit, RefinanceStep(db, oldLoanId, newPrincipal, newTerm, serviceFee, deliveryCharge, user, clock, gen).audit)
  {
    match FindLoan(db.loans, oldLoanId)
    case None =>
      PrependedIsSuffix([], db.ledger);
      PrependedIsSuffix([], db.audit);
    case Some(prior) =>
      var successor := Successor(prior, gen(0), newPrincipal, newTerm, serviceFee, deliveryCharge, clock.day);
      var d2 := RefinanceLoans(db, prior.id, successor);
      var d3 := RefinanceBookings(d2, prior, newPrincipal, serviceFee, deliveryCharge, user, clock, gen);
      RefinanceBookingsEffect(d2, prior, newPrincipal, serviceFee, deliveryCharge, user, clock, gen);
      var n := FeeCount(serviceFee, deliveryCharge);
      PrependedIsSuffix(d3.ledger[..n + 2], db.ledger);
      assert d3.ledger == d3.ledger[..n + 2] + db.ledger;
      PrependedIsSuffix([AuditLog(gen(4), clock.now, user, Update, "Loan Refinanced: " + prior.name)], db.audit);
  }

  lemma PaymentOnlyPrepends(db: Db, loanId: string, amount: real, user: string, dateOverride: string,
                            clock: Clock, gen: nat -> string)
    ensures IsSuffix(db.ledger, ProcessPaymentStep(db, loanId, amount, user, dateOverride, clock, gen).ledger)
    ensures IsSuffix(db.audit, ProcessPaymentStep(db, loanId, amount, user, dateOverride, clock, gen).audit)
  {
    ProcessPaymentEffect(db, loanId, amount, user, dateOverride, clock, gen);
    var d := ProcessPaymentStep(db, loanId, amount, user, dateOverride, clock, gen);
    PrependedIsSuffix([], db.audit);
    if FindLoan(db.loans, loanId).Some? {
      PrependedIsSuffix([d.ledger[0]], db.ledger);
      assert d.ledger == [d.ledger[0]] + db.ledger;
    } else {
      PrependedIsSuffix([], db.ledger);
    }
  }

  lemma PayrollOnlyPrepends(db: Db, records: seq<PayrollRecord>, user: string, clock: Clock, gen: nat -> string)
    ensures IsSuffix(db.ledger, ProcessPayrollStep(db, records, user, clock, gen).ledger)
    ensures IsSuffix(db.audit, ProcessPayrollStep(db, records, user, clock, gen).audit)
  {
    PayrollWritesEffect(db, records, user, clock, gen);
    PrependedIsSuffix(SalaryEntries(records, user, clock, gen), db.ledger);
    var d := PayrollWrites(db, records, user, clock, gen);
    PrependedIsSuffix([AuditLog(gen(|records|), clock.now, user, Create,
                                "Payroll Processed for " + NatToString(|records|) + " employees")], db.audit);
  }

  /** No action of `Action` rewrites history: the ledger and the audit trail only
      grow at the front. `importData` is not an `Action`; it can (see
      `ImportRewritesHistory`). */
  lemma StepOnlyPrepends(db: Db, a: Action, clock: Clock, gen: nat -> string)
    requires Runnable(a)
    ensures IsSuffix(db.ledger, Step(db, a, clock, gen).ledger)
    ensures IsSuffix(db.audit, Step(db, a, clock, gen).audit)
  {
    PrependedIsSuffix([], db.ledger);
    PrependedIsSuffix([], db.audit);
    match a
    case CreateLoanOp(data, user) => CreateLoanOnlyPrepends(db, data, user, clock, gen);
    case RefinanceOp(oldId, p, t, fee, del, user) => RefinanceOnlyPrepends(db, oldId, p, t, fee, del, user, clock, gen);
    case PaymentOp(loanId, amount, user, dateOverride) => PaymentOnlyPrepends(db, loanId, amount, user, dateOverride, clock, gen);
    case PayrollOp(records, user) => PayrollOnlyPrepends(db, records, user, clock, gen);
    case _ =>
  }

  /** Over any session of `Action`s (so without `importData`), the ledger and the
      audit trail only grow at the front. */
  lemma {:induction false} RunOnlyPrepends(db: Db, actions: seq<Action>, clocks: seq<Clock>, gens: seq<nat -> string>)
    requires |clocks| == |actions| && |gens| == |actions|
    requires forall i :: 0 <= i < |actions| ==> Runnable(actions[i])
    ensures IsSuffix(db.ledger, Run(db, actions, clocks, gens).ledger)
    ensures IsSuffix(db.audit, Run(db, actions, clocks, gens).audit)
    decreases |actions|
  {
    if actions == [] {
      PrependedIsSuffix([], db.ledger);
      PrependedIsSuffix([], db.audit);
    } else {
      var d := Step(db, actions[0], clocks[0], gens[0]);
      StepOnlyPrepends(db, actions[0], clocks[0], gens[0]);
      RunOnlyPrepends(d, actions[1..], clocks[1..], gens[1..]);
      IsSuffixTransitive(db.ledger, d.ledger, Run(d, actions[1..], clocks[1..], gens[1..]).ledger);
      IsSuffixTransitive(db.audit, d.audit, Run(d, actions[1..], clocks[1..], gens[1..]).audit);
    }
  }

  // ---- the balance invariant ------------------------------------------------------

  /** A loan owes between nothing and its whole total, and a Paid loan owes nothing. */
  predicate SoundLoan(l: Loan)
  {
    0.0 <= l.balance <= l.total && (l.status == Paid ==> l.balance == 0.0)
  }

  predicate SoundLoans(loans: seq<Loan>)
  {
    forall i :: 0 <= i < |loans| ==> SoundLoan(loans[i])
  }

  /** No two loans share an id. */
  predicate LoanIdsDistinct(loans: seq<Loan>)
  {
    KeysDistinct(loans, LoanId)
  }

  /** The inputs the invariant needs: no negative principal or payment. The
      screens do not enforce this: the new-loan form and the Pay box both let a
      negative number through. */
  predicate WellFormedInput(a: Action)
  {
    match a
    case CreateLoanOp(data, _) => data.principal >= 0.0
    case RefinanceOp(_, p, _, _, _, _) => p >= 0.0
    case PaymentOp(_, amount, _, _) => amount >= 0.0
    case _ => true
  }

  /** The id an action draws for a new loan is not the id of a stored loan. */
  predicate FreshLoanId(db: Db, a: Action, gen: nat -> string)
  {
    (a.CreateLoanOp? || a.RefinanceOp?) ==> forall i :: 0 <= i < |db.loans| ==> db.loans[i].id != gen(0)
  }

  /** Over a session, every id drawn for a new loan is fresh when it is drawn. */
  predicate FreshLoanIds(db: Db, actions: seq<Action>, clocks: seq<Clock>, gens: seq<nat -> string>)
    requires |clocks| == |actions| && |gens| == |actions|
    requires forall i :: 0 <= i < |actions| ==> Runnable(actions[i])
    decreases |actions|
  {
    actions == []
    || (FreshLoanId(db, actions[0], gens[0])
        && FreshLoanIds(Step(db, actions[0], clocks[0], gens[0]), actions[1..], clocks[1..], gens[1..]))
  }

  /** A new loan owes its total, which a non-negative principal keeps non-negative. */
  lemma CreateLoanKeepsLoansSound(db: Db, data: LoanData, user: string, clock: Clock, gen: nat -> string)
    requires data.term > 0 && data.principal >= 0.0 && SoundLoans(db.loans) && LoanIdsDistinct(db.loans)
    requires forall i :: 0 <= i < |db.loans| ==> db.loans[i].id != gen(0)
    ensures SoundLoans(CreateLoanStep(db, data, user, clock, gen).loans)
    ensures LoanIdsDistinct(CreateLoanStep(db, data, user, clock, gen).loans)
  {
    CreateLoanEffect(db, data, user, clock, gen);
    var d := CreateLoanStep(db, data, user, clock, gen);
    var q := QuoteFor(data.principal, data.term);
    assert q.interest >= 0.0 by {
      assert q.rate > 0.0;
    }
    assert forall i :: 0 <= i < |db.loans| ==> d.loans[i + 1] == db.loans[i];
    forall i, j | 0 <= i < j < |d.loans| ensures d.loans[i].id != d.loans[j].id {
      if i > 0 {
        assert LoanId(db.loans[i - 1]) != LoanId(db.loans[j - 1]);
      }
    }
  }

  lemma RefinanceKeepsLoansSound(db: Db, oldLoanId: string, newPrincipal: real, newTerm: int, serviceFee: real,
                                 deliveryCharge: real, user: string, clock: Clock, gen: nat -> string)
    requires newTerm > 0 && newPrincipal >= 0.0 && SoundLoans(db.loans) && LoanIdsDistinct(db.loans)
    requires forall i :: 0 <= i < |db.loans| ==> db.loans[i].id != gen(0)
    ensures SoundLoans(RefinanceStep(db, oldLoanId, newPrincipal, newTerm, serviceFee, deliveryCharge, user, clock, gen).loans)
    ensures LoanIdsDistinct(RefinanceStep(db, oldLoanId, newPrincipal, newTerm, serviceFee, deliveryCharge, user, clock, gen).loans)
  {
    match FindLoan(db.loans, oldLoanId)
    case None =>
    case Some(prior) =>
      var successor := Successor(prior, gen(0), newPrincipal, newTerm, serviceFee, deliveryCharge, clock.day);
      var d := RefinanceLoans(db, prior.id, successor);
      RefinanceLoansAt(db, prior.id, successor);
      var q := QuoteFor(newPrincipal, newTerm);
      assert q.interest >= 0.0 by {
        assert q.rate > 0.0;
      }
      forall i | 0 <= i < |d.loans| ensures SoundLoan(d.loans[i]) {
        if i > 0 {
          assert SoundLoan(db.loans[i - 1]);
        }
      }
      forall i, j | 0 <= i < j < |d.loans| ensures d.loans[i].id != d.loans[j].id {
        assert d.loans[j].id == db.loans[j - 1].id;
        if i > 0 {
          assert d.loans[i].id == db.loans[i - 1].id;
          assert LoanId(db.loans[i - 1]) != LoanId(db.loans[j - 1]);
        }
      }
      assert RefinanceStep(db, oldLoanId, newPrincipal, newTerm, serviceFee, deliveryCharge, user, clock, gen).loans == d.loans;
  }

  /** With distinct ids the loan a payment settles is the one it was computed
      from, so its balance only falls. */
  lemma PaymentKeepsLoansSound(db: Db, loanId: string, amount: real, user: string, dateOverride: string,
                               clock: Clock, gen: nat -> string)
    requires amount >= 0.0 && SoundLoans(db.loans) && LoanIdsDistinct(db.loans)
    ensures SoundLoans(ProcessPaymentStep(db, loanId, amount, user, dateOverride, clock, gen).loans)
    ensures LoanIdsDistinct(ProcessPaymentStep(db, loanId, amount, user, dateOverride, clock, gen).loans)
  {
    var d := ProcessPaymentStep(db, loanId, amount, user, dateOverride, clock, gen);
    ProcessPaymentEffect(db, loanId, amount, user, dateOverride, clock, gen);
    var found := FindLoan(db.loans, loanId);
    if found.Some? {
      var loan := found.value;
      var k :| 0 <= k < |db.loans| && db.loans[k] == loan;
      var s := PaymentApplied(loan.balance, loan.status, amount);
      assert SoundLoan(loan);
      forall i | 0 <= i < |d.loans| ensures SoundLoan(d.loans[i]) && d.loans[i].id == db.loans[i].id {
        assert SoundLoan(db.loans[i]);
        if db.loans[i].id == loanId {
          SameIdSameLoan(db.loans, i, k);
        }
      }
      forall i, j | 0 <= i < j < |d.loans| ensures d.loans[i].id != d.loans[j].id {
        assert LoanId(db.loans[i]) != LoanId(db.loans[j]);
      }
    }
  }

  lemma DeleteLoanKeepsLoansSound(db: Db, loanId: string, clock: Clock, gen: nat -> string)
    requires SoundLoans(db.loans) && LoanIdsDistinct(db.loans)
    ensures SoundLoans(DeleteLoanStep(db, loanId, clock, gen).loans)
    ensures LoanIdsDistinct(DeleteLoanStep(db, loanId, clock, gen).loans)
  {
    var d := DeleteLoanStep(db, loanId, clock, gen);
    DeleteLoanEffect(db, loanId, clock, gen);
    forall i | 0 <= i < |d.loans| ensures SoundLoan(d.loans[i]) {
      DeleteLoanSurvivor(db, loanId, clock, gen, i);
    }
    if FindLoan(db.loans, loanId).Some? {
      assert d.loans == DeleteById(db.loans, LoanId, loanId);
      DeleteKeepsIdsDistinct(db.loans, LoanId, loanId);
    }
  }

  /** Two positions holding the same id of a list with distinct ids are one. */
  lemma SameIdSameLoan(loans: seq<Loan>, i: int, k: int)
    requires LoanIdsDistinct(loans) && 0 <= i < |loans| && 0 <= k < |loans|
    requires LoanId(loans[i]) == LoanId(loans[k])
    ensures i == k
  {
  }

  lemma DeleteLoanSurvivor(db: Db, loanId: string, clock: Clock, gen: nat -> string, i: int)
    requires 0 <= i < |DeleteLoanStep(db, loanId, clock, gen).loans|
    ensures DeleteLoanStep(db, loanId, clock, gen).loans[i] in db.loans
  {
    var d := DeleteLoanStep(db, loanId, clock, gen);
    if FindLoan(db.loans, loanId).Some? {
      assert d.loans == DeleteById(db.loans, LoanId, loanId);
    }
  }

  /** Why the ids must be distinct: a payment on an id two loans share gives
      both the first one's new balance, and the second then owes more than its
      total. */
  lemma DuplicateIdPaymentExceedsTotal(clock: Clock, gen: nat -> string)
    ensures var first := Loan("L1", "Ana", "North", 100.0, 100.0, 100.0, 5, 20, 0, Active, "", "", 0.0, 0.0, "Unsecured", "");
      var second := Loan("L1", "Ben", "North", 10.0, 10.0, 10.0, 1, 10, 0, Active, "", "", 0.0, 0.0, "Unsecured", "");
      var db := DefaultDb().(loans := [first, second]);
      && SoundLoans(db.loans)
      && ProcessPaymentStep(db, "L1", 0.0, "Admin", "", clock, gen).loans[1].balance == 100.0
      && !SoundLoans(ProcessPaymentStep(db, "L1", 0.0, "Admin", "", clock, gen).loans)
  {
    var first := Loan("L1", "Ana", "North", 100.0, 100.0, 100.0, 5, 20, 0, Active, "", "", 0.0, 0.0, "Unsecured", "");
    var second := Loan("L1", "Ben", "North", 10.0, 10.0, 10.0, 1, 10, 0, Active, "", "", 0.0, 0.0, "Unsecured", "");
    var db := DefaultDb().(loans := [first, second]);
    assert FindLoan(db.loans, "L1") == Some(first);
    ProcessPaymentEffect(db, "L1", 0.0, "Admin", "", clock, gen);
    var d := ProcessPaymentStep(db, "L1", 0.0, "Admin", "", clock, gen);
    assert d.loans[1] == second.(balance := 100.0, status := Active);
    assert !SoundLoan(d.loans[1]);
  }

  /** Every action of `Action` (`importData` is not one) keeps every loan sound and loan ids distinct, as long as no
      amount is negative and a new loan's id is fresh. */
  lemma StepKeepsLoansSound(db: Db, a: Action, clock: Clock, gen: nat -> string)
    requires Runnable(a) && WellFormedInput(a) && FreshLoanId(db, a, gen)
    requires SoundLoans(db.loans) && LoanIdsDistinct(db.loans)
    ensures SoundLoans(Step(db, a, clock, gen).loans) && LoanIdsDistinct(Step(db, a, clock, gen).loans)
  {
    match a
    case CreateLoanOp(data, user) => CreateLoanKeepsLoansSound(db, data, user, clock, gen);
    case RefinanceOp(oldId, p, t, fee, del, user) => RefinanceKeepsLoansSound(db, oldId, p, t, fee, del, user, clock, gen);
    case PaymentOp(loanId, amount, user, dateOverride) => PaymentKeepsLoansSound(db, loanId, amount, user, dateOverride, clock, gen);
    case DeleteLoanOp(loanId) => DeleteLoanKeepsLoansSound(db, loanId, clock, gen);
    case PayrollOp(records, user) => PayrollWritesEffect(db, records, user, clock, gen);
    case _ =>
  }

  /** Over any session of `Action`s with non-negative amounts and fresh loan ids, every loan
      owes between nothing and its total, a Paid loan owes nothing, and no two
      loans share an id. */
  lemma {:induction false} RunKeepsLoansSound(db: Db, actions: seq<Action>, clocks: seq<Clock>, gens: seq<nat -> string>)
    requires |clocks| == |actions| && |gens| == |actions|
    requires forall i :: 0 <= i < |actions| ==> Runnable(actions[i]) && WellFormedInput(actions[i])
    requires FreshLoanIds(db, actions, clocks, gens)
    requires SoundLoans(db.loans) && LoanIdsDistinct(db.loans)
    ensures SoundLoans(Run(db, actions, clocks, gens).loans) && LoanIdsDistinct(Run(db, actions, clocks, gens).loans)
    decreases |actions|
  {
    if actions != [] {
      StepKeepsLoansSound(db, actions[0], clocks[0], gens[0]);
      RunKeepsLoansSound(Step(db, actions[0], clocks[0], gens[0]), actions[1..], clocks[1..], gens[1..]);
    }
  }

  // ---- the store object ---------------------------------------------------------

  /** The in-memory database of the running app, updated write by write. */
  class Store {
    var collectors: seq<Collector>
    var investors: seq<Investor>
    var loans: seq<Loan>
    var ledger: seq<Transaction>
    var attendance: seq<Attendance>
    var payroll: seq<PayrollRecord>
    var audit: seq<AuditLog>

    function State(): Db
      reads this
    {
      Db(collectors, investors, loans, ledger, attendance, payroll, audit)
    }

    constructor ()
      ensures State() == DefaultDb()
    {
      collectors := [AdminAccount()];
      investors := [];
      loans := [];
      ledger := [];
      attendance := [];
      payroll := [];
      audit := [];
    }

    method AddLedger(id: string, clock: Clock, txType: TxType, desc: string, amt: real,
                     user: string, dateOverride: string, category: string)
      modifies this
      ensures State() == AddLedgerStep(old(State()), id, clock, txType, desc, amt, user, dateOverride, category)
    {
      ledger := Add(ledger, Entry(id, clock, txType, desc, amt, user, dateOverride, category));
    }

    method LogAction(id: string, clock: Clock, action: AuditAction, details: string, user: string)
      modifies this
      ensures State() == LogStep(old(State()), id, clock, action, details, user)
    {
      audit := Add(audit, AuditLog(id, clock.now, user, action, details));
    }

    method AddCapital(amount: real, user: string, clock: Clock, gen: nat -> string, show: real -> string)
      modifies this
      ensures State() == AddCapitalStep(old(State()), amount, user, clock, gen, show)
    {
      AddLedger(gen(0), clock, Capital, "Internal Capital Injection", amount, user, "", "");
      LogAction(gen(1), clock, Update, "Injected Capital: " + show(amount), user);
    }

    method WriteFees(gen: nat -> string, clock: Clock, name: string, feeLabel: string, deliveryLabel: string,
                     fee: real, delivery: real, user: string)
      modifies this
      ensures State() == FeeWrites(old(State()), gen, clock, name, feeLabel, deliveryLabel, fee, delivery, user)
    {
      if fee > 0.0 {
        AddLedger(gen(2), clock, Collection, feeLabel + name, fee, user, "", "Fee");
      }
      if delivery > 0.0 {
        AddLedger(gen(3), clock, Collection, deliveryLabel + name, delivery, user, "", "Fee");
      }
    }

    method CreateLoan(data: LoanData, user: string, clock: Clock, gen: nat -> string)
      requires data.term > 0
      modifies this
      ensures State() == CreateLoanStep(old(State()), data, user, clock, gen)
    {
      ghost var db := State();
      var loan := NewLoan(data, gen(0), clock.day);
      loans := Add(loans, loan);
      ghost var d1 := State();
      assert d1 == db.(loans := Add(db.loans, loan));
      AddLedger(gen(1), clock, Disbursement, "Loan: " + loan.name, -loan.principal, user, "", "");
      ghost var d2 := State();
      assert d2 == AddLedgerStep(d1, gen(1), clock, Disbursement, "Loan: " + loan.name, -loan.principal, user, "", "");
      WriteFees(gen, clock, loan.name, "Service Fee: ", "Delivery Charge: ", loan.serviceFee, loan.deliveryCharge, user);
      ghost var d3 := State();
      assert d3 == FeeWrites(d2, gen, clock, loan.name, "Service Fee: ", "Delivery Charge: ", loan.serviceFee, loan.deliveryCharge, user);
      LogAction(gen(4), clock, Create, "New Loan Created: " + loan.name, user);
      CreateLoanStepIs(db, data, user, clock, gen);
    }

    method RefinanceLoan(oldLoanId: string, newPrincipal: real, newTerm: int, serviceFee: real,
                         deliveryCharge: real, user: string, clock: Clock, gen: nat -> string)
      requires newTerm > 0
      modifies this
      ensures State() == RefinanceStep(old(State()), oldLoanId, newPrincipal, newTerm, serviceFee, deliveryCharge, user, clock, gen)
    {
      var found := FindLoan(loans, oldLoanId);
      if found.Some? {
        var prior := found.value;
        var successor := Successor(prior, gen(0), newPrincipal, newTerm, serviceFee, deliveryCharge, clock.day);
        ReplaceLoan(prior.id, successor);
        BookRefinance(prior, newPrincipal, serviceFee, deliveryCharge, user, clock, gen);
        LogAction(gen(4), clock, Update, "Loan Refinanced: " + prior.name, user);
      }
    }

    method ReplaceLoan(oldLoanId: string, successor: Loan)
      modifies this
      ensures State() == RefinanceLoans(old(State()), oldLoanId, successor)
    {
      loans := UpdateById(loans, LoanId, oldLoanId, CloseOut());
      loans := Add(loans, successor);
    }

    method BookRefinance(prior: Loan, newPrincipal: real, serviceFee: real, deliveryCharge: real,
                         user: string, clock: Clock, gen: nat -> string)
      modifies this
      ensures State() == RefinanceBookings(old(State()), prior, newPrincipal, serviceFee, deliveryCharge, user, clock, gen)
    {
      AddLedger(gen(1), clock, Collection, "Refinance Payment: " + prior.name, prior.balance, user, "", "");
      AddLedger(gen(5), clock, Disbursement, "Refinance Loan: " + prior.name, -newPrincipal, user, "", "");
      WriteFees(gen, clock, prior.name, "Service Fee (Ref): ", "Delivery Charge (Ref): ", serviceFee, deliveryCharge, user);
    }

    method ProcessPayment(loanId: string, amount: real, user: string, dateOverride: string, clock: Clock, gen: nat -> string)
      modifies this
      ensures State() == ProcessPaymentStep(old(State()), loanId, amount, user, dateOverride, clock, gen)
    {
      var found := FindLoan(loans, loanId);
      if found.None? {
        return;
      }
      var loan := found.value;
      var s := PaymentApplied(loan.balance, loan.status, amount);
      loans := UpdateById(loans, LoanId, loanId, Settle(s));
      AddLedger(gen(0), clock, Collection, "Payment: " + loan.name, amount, user, dateOverride, "");
    }

    method DeleteLoan(id: string, clock: Clock, gen: nat -> string)
      modifies this
      ensures State() == DeleteLoanStep(old(State()), id, clock, gen)
    {
      var found := FindLoan(loans, id);
      if found.Some? {
        loans := DeleteById(loans, LoanId, id);
        LogAction(gen(0), clock, Delete, "Loan Deleted: " + found.value.name, "Admin");
      }
    }

    method UpdateCollector(c: Collector, clock: Clock, gen: nat -> string)
      modifies this
      ensures State() == UpdateCollectorStep(old(State()), c, clock, gen)
    {
      var existing := FindCollector(collectors, c.id);
      if existing.Some? {
        collectors := UpdateById(collectors, CollectorId, c.id, Replace(c));
      } else {
        collectors := Add(collectors, c);
      }
      LogAction(gen(0), clock, Update, "Collector Updated/Created: " + c.name, "Admin");
    }

    method DeleteCollector(id: string, clock: Clock, gen: nat -> string)
      modifies this
      ensures State() == DeleteCollectorStep(old(State()), id, clock, gen)
    {
      if id == AdminId {
        return;
      }
      var found := FindCollector(collectors, id);
      if found.Some? {
        collectors := DeleteById(collectors, CollectorId, id);
        LogAction(gen(0), clock, Delete, "Collector Deleted: " + found.value.name, "Admin");
      }
    }

    method MarkAttendance(date: string, empId: string, status: AttendanceStatus, gen: nat -> string)
      modifies this
      ensures State() == MarkAttendanceStep(old(State()), date, empId, status, gen)
    {
      var existing := FindMark(attendance, date, empId);
      if existing.Some? && existing.value.id != "" {
        attendance := UpdateById(attendance, AttendanceId, existing.value.id, SetStatus(status));
      } else {
        attendance := Add(attendance, Attendance(gen(0), date, empId, status));
      }
    }

    method ProcessPayroll(records: seq<PayrollRecord>, user: string, clock: Clock, gen: nat -> string)
      modifies this
      ensures State() == ProcessPayrollStep(old(State()), records, user, clock, gen)
    {
      var i := 0;
      while i < |records|
        invariant 0 <= i <= |records|
        invariant State() == PayrollWrites(old(State()), records[..i], user, clock, gen)
      {
        assert records[..i + 1][..i] == records[..i];
        payroll := Add(payroll, records[i]);
        AddLedger(gen(i), clock, Payroll, "Salary: " + records[i].empName + " (" + records[i].month + ")", -records[i].netPay, user, "", "");
        i := i + 1;
      }
      assert records[..i] == records;
      LogAction(gen(|records|), clock, Create, "Payroll Processed for " + NatToString(|records|) + " employees", user);
    }

    method AddInvestor(inv: Investor, clock: Clock, gen: nat -> string)
      modifies this
      ensures State() == AddInvestorStep(old(State()), inv, clock, gen)
    {
      investors := Add(investors, inv);
      AddLedger(gen(0), clock, Capital, "Investment: " + inv.name, inv.capitalInvested, "Admin", "", "");
      LogAction(gen(1), clock, Create, "New Investor Added: " + inv.name, "Admin");
    }

    method PayDividend(investorId: string, amount: real, clock: Clock, gen: nat -> string)
      modifies this
      ensures State() == PayDividendStep(old(State()), investorId, amount, clock, gen)
    {
      var found := FindInvestor(investors, investorId);
      if found.Some? {
        var inv := found.value;
        ghost var db := State();
        investors := UpdateById(investors, InvestorId, inv.id, RaisePayouts(inv.totalPayouts + amount));
        AddLedger(gen(0), clock, Dividend, "Payout: " + inv.name, -amount, "Admin", "", "");
        LogAction(gen(1), clock, Update, "Dividend Paid: " + inv.name, "Admin");
        assert State() == PayInvestor(db, inv, amount, clock, gen);
      }
    }

    method ImportData(parsed: Option<Backup>)
      modifies this
      ensures State() == ImportStep(old(State()), parsed)
    {
      if parsed.Some? {
        var d := ImportStep(State(), parsed);
        collectors, investors, loans, ledger := d.collectors, d.investors, d.loans, d.ledger;
        attendance, payroll, audit := d.attendance, d.payroll, d.audit;
      }
    }
  }
}
