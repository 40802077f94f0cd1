/** The loans screen: the loan architect's live terms, the form check before a
    loan is created, the area choices, the active portfolio and its export rows. */
module LoansView {
  import opened Types
  import opened Lists
  import opened Terms
  import opened Utils
  import opened Views
  import DataStore

  /** The terms the architect shows while the form is being filled in. */
  datatype Simulation = Simulation(rate: real, interest: real, total: real, daily: int, netProceeds: real)

  /** The architect's own arithmetic on the typed amount, term and deductions.
      It prices exactly as the engine does, and the deductions only reduce what
      the borrower takes home, never the total owed. */
  function Simulate(amount: Option<real>, term: int, serviceFee: Option<real>, deliveryCharge: Option<real>): (s: Simulation)
    requires term > 0
    ensures s.rate == QuoteFor(OrZero(amount), term).rate
    ensures s.total == QuoteFor(OrZero(amount), term).total && s.daily == QuoteFor(OrZero(amount), term).daily
    ensures s.netProceeds == OrZero(amount) - OrZero(serviceFee) - OrZero(deliveryCharge)
  {
    var principal := OrZero(amount);
    var rate := if term == 40 then 0.10 else if term == 30 then 0.05 else 0.20;
    var interest := principal * rate;
    var total := principal + interest;
    Simulation(rate, interest, total, Ceil(total / term as real), principal - OrZero(serviceFee) - OrZero(deliveryCharge))
  }

  /** The loan form as typed; numbers are what `parseFloat` made of them. */
  datatype LoanForm = LoanForm(
    name: string,
    area: string,
    amount: Option<real>,
    term: int,
    address: string,
    cell: string,
    collateral: string,
    notes: string,
    serviceFee: Option<real>,
    deliveryCharge: Option<real>)

  /** `handleCreate`: the request passed to `createLoan`, or `None` when the
      form is refused. A negative principal is not refused. */
  function CreateRequest(f: LoanForm): (r: Option<DataStore.LoanData>)
    ensures r.None? <==> f.name == "" || f.area == "" || OrZero(f.amount) == 0.0
    ensures r.Some? ==> r.value.name == f.name && r.value.area == f.area && r.value.principal == OrZero(f.amount)
    ensures r.Some? ==> r.value.term == f.term && r.value.address == f.address && r.value.cellNumber == f.cell
    ensures r.Some? ==> r.value.serviceFee == OrZero(f.serviceFee) && r.value.deliveryCharge == OrZero(f.deliveryCharge)
    ensures r.Some? ==> r.value.collateral == (if f.collateral == "" then "Unsecured" else f.collateral)
  {
    var principal := OrZero(f.amount);
    if f.name == "" || f.area == "" || principal == 0.0 then None
    else
      Some(DataStore.LoanData(f.name, f.area, principal, f.term, f.address, f.cell,
                              OrZero(f.serviceFee), OrZero(f.deliveryCharge),
                              if f.collateral == "" then "Unsecured" else f.collateral, f.notes))
  }

  /** The form lets a negative principal through. */
  lemma NegativePrincipalAccepted()
    ensures CreateRequest(LoanForm("Ana", "North", Some(-500.0), 60, "", "", "", "", None, None)).Some?
  {
  }

  /** The invoice shown after creating a loan quotes exactly the total and daily
      installment the engine stores, and the collateral it records. */
  lemma InvoiceMatchesStoredLoan(f: LoanForm, db: DataStore.Db, user: string, clock: Clock, gen: nat -> string)
    requires f.term > 0 && CreateRequest(f).Some?
    ensures var stored := DataStore.CreateLoanStep(db, CreateRequest(f).value, user, clock, gen).loans[0];
      && stored.total == Simulate(f.amount, f.term, f.serviceFee, f.deliveryCharge).total
      && stored.daily == Simulate(f.amount, f.term, f.serviceFee, f.deliveryCharge).daily
      && stored.collateral == CreateRequest(f).value.collateral
  {
    DataStore.CreateLoanEffect(db, CreateRequest(f).value, user, clock, gen);
  }

  function CollectorArea(c: Collector): string { c.area }

  predicate IsFieldArea(a: string)
  {
    a != "" && a != "HQ"
  }

  /** The area choices: each collector area once, leaving out empty ones and 'HQ'.
      The order of the choices (first occurrence, as a `Set` keeps it) is not stated. */
  function Areas(collectors: seq<Collector>): (r: seq<string>)
    ensures forall c :: c in collectors && IsFieldArea(c.area) ==> c.area in r
    ensures forall i :: 0 <= i < |r| ==> IsFieldArea(r[i]) && exists c :: c in collectors && c.area == r[i]
    ensures forall i, j :: 0 <= i < j < |r| ==> r[i] != r[j]
  {
    var named := Map(collectors, CollectorArea);
    var field := Filter(named, IsFieldArea);
    assert forall c :: c in collectors ==> c.area in named;
    Distinct(field)
  }

  /** The portfolio list: Active loans, in the chosen area unless 'All'. */
  function Portfolio(loans: seq<Loan>, areaFilter: string): (r: seq<Loan>)
    ensures forall l :: l in r <==> l in loans && l.status == Active && (areaFilter == "All" || l.area == areaFilter)
    ensures IsSubsequence(r, loans)
  {
    ActiveIn(loans, areaFilter)
  }

  /** The export's column headers. */
  function ExportHeaders(): seq<string>
  {
    ["Client", "Area", "Cell", "Address", "Principal", "Total", "Daily", "Balance", "Term", "Collateral"]
  }

  /** The loan field that goes under one export header. */
  function CellUnder(l: Loan, header: string): Cell
  {
    match header
    case "Client" => Text(l.name)
    case "Area" => Text(l.area)
    case "Cell" => Text(l.cellNumber)
    case "Address" => Text(l.address)
    case "Principal" => Num(l.principal)
    case "Total" => Num(l.total)
    case "Daily" => Num(l.daily as real)
    case "Balance" => Num(l.balance)
    case "Term" => Num(l.term as real)
    case "Collateral" => Text(l.collateral)
    case _ => Text("")
  }

  /** One export row: a cell under each header, in header order. */
  function ExportRow(l: Loan): (row: seq<Cell>)
    ensures |row| == |ExportHeaders()|
    ensures forall k :: 0 <= k < |row| ==> row[k] == CellUnder(l, ExportHeaders()[k])
  {
    [Text(l.name), Text(l.area), Text(l.cellNumber), Text(l.address), Num(l.principal), Num(l.total),
     Num(l.daily as real), Num(l.balance), Num(l.term as real), Text(l.collateral)]
  }

  /** The exported file: the header line and one line per portfolio loan. */
  function ExportCsv(loans: seq<Loan>, areaFilter: string, show: real -> string): string
  {
    CsvText(ExportHeaders(), Map(Portfolio(loans, areaFilter), ExportRow), show)
  }
}
