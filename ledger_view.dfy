/** The ledger screen: the type and month filters, the inflow / outflow cards,
    and the quick expense form. */
module LedgerView {
  import opened Types
  import opened Lists
  import opened Views
  import DataStore

  function OfType(ty: TxType): Transaction -> bool
  {
    (t: Transaction) => t.txType == ty
  }

  function InMonth(month: string): Transaction -> bool
  {
    (t: Transaction) => month <= t.simpleDate
  }

  /** Both filters at once: what the two successive filters keep. */
  function Shown(typeFilter: Option<TxType>, monthFilter: string): Transaction -> bool
  {
    (t: Transaction) => (typeFilter.Some? ==> t.txType == typeFilter.value) && (monthFilter != "" ==> monthFilter <= t.simpleDate)
  }

  /** `filteredTx`: an exact type match unless 'All' (`None`), then a month
      prefix of the booking date unless the month box is empty; the ledger's
      order is kept. */
  function FilteredTx(ledger: seq<Transaction>, typeFilter: Option<TxType>, monthFilter: string): (r: seq<Transaction>)
    ensures r == Filter(ledger, Shown(typeFilter, monthFilter))
    ensures forall t :: t in r <==> t in ledger && (typeFilter.Some? ==> t.txType == typeFilter.value)
                                    && (monthFilter != "" ==> monthFilter <= t.simpleDate)
    ensures IsSubsequence(r, ledger)
  {
    var byType := if typeFilter.Some? then Filter(ledger, OfType(typeFilter.value)) else ledger;
    var r := if monthFilter != "" then Filter(byType, InMonth(monthFilter)) else byType;
    TwoFiltersAreShown(ledger, typeFilter, monthFilter);
    FilterIsSubsequence(ledger, Shown(typeFilter, monthFilter));
    r
  }

  lemma TwoFiltersAreShown(ledger: seq<Transaction>, typeFilter: Option<TxType>, monthFilter: string)
    ensures var byType := if typeFilter.Some? then Filter(ledger, OfType(typeFilter.value)) else ledger;
      (if monthFilter != "" then Filter(byType, InMonth(monthFilter)) else byType) == Filter(ledger, Shown(typeFilter, monthFilter))
  {
    var all := (t: Transaction) => true;
    if typeFilter.Some? && monthFilter != "" {
      FilterFilter(ledger, OfType(typeFilter.value), InMonth(monthFilter), Shown(typeFilter, monthFilter));
    } else if typeFilter.Some? {
      FilterFilter(ledger, OfType(typeFilter.value), all, Shown(typeFilter, monthFilter));
      FilterAll(Filter(ledger, OfType(typeFilter.value)), all);
    } else if monthFilter != "" {
      FilterFilter(ledger, all, InMonth(monthFilter), Shown(typeFilter, monthFilter));
      FilterAll(ledger, all);
    } else {
      FilterAll(ledger, Shown(typeFilter, monthFilter));
    }
  }

  /** What an entry adds to the inflow card. */
  function Inflow(t: Transaction): real
  {
    if t.amt > 0.0 then t.amt else 0.0
  }

  /** What an entry adds to the outflow card: the size of a non-positive amount. */
  function Outflow(t: Transaction): real
  {
    if t.amt > 0.0 then 0.0 else -t.amt
  }

  datatype Flow = Flow(inflow: real, outflow: real)

  /** The `reduce` behind the two cards. */
  function Totals(txs: seq<Transaction>): (f: Flow)
    ensures f.inflow == SumBy(txs, Inflow) && f.outflow == SumBy(txs, Outflow)
    ensures f.inflow >= 0.0 && f.outflow >= 0.0
    decreases |txs|
  {
    if txs == [] then Flow(0.0, 0.0)
    else
      var rest := Totals(txs[1..]);
      var t := txs[0];
      if t.amt > 0.0 then Flow(rest.inflow + t.amt, rest.outflow) else Flow(rest.inflow, rest.outflow - t.amt)
  }

  /** Inflow less outflow is the net of the shown entries. */
  lemma {:induction false} NetOfTotals(txs: seq<Transaction>)
    ensures Totals(txs).inflow - Totals(txs).outflow == DataStore.Cash(txs)
  {
    SumByDifference(txs, Inflow, Outflow, DataStore.Amt);
  }

  /** What `handleAddExpense` passes to `addLedger`. */
  datatype ExpenseCall = ExpenseCall(desc: string, amt: real, user: string, date: string, category: string)

  /** `handleAddExpense`: an empty description, or an amount that is unparsable,
      0 or negative, is refused; otherwise the expense goes out as a negative
      amount booked by 'Admin' today under the chosen category. */
  function AddExpense(desc: string, amount: Option<real>, category: string, today: string): (r: Option<ExpenseCall>)
    ensures r.None? <==> desc == "" || amount.None? || amount.value <= 0.0
    ensures r.Some? ==> r.value == ExpenseCall(desc, -amount.value, "Admin", today, category)
  {
    if desc == "" || Falsy(amount) || amount.value <= 0.0 then None
    else Some(ExpenseCall(desc, -amount.value, "Admin", today, category))
  }

  /** An accepted expense is the newest ledger entry, an Expense booked today,
      and the cash falls by exactly the amount typed. */
  lemma ExpenseRecorded(db: DataStore.Db, desc: string, amount: Option<real>, category: string, id: string, clock: Clock)
    requires AddExpense(desc, amount, category, clock.today).Some?
    ensures var c := AddExpense(desc, amount, category, clock.today).value;
      var d := DataStore.AddLedgerStep(db, id, clock, Expense, c.desc, c.amt, c.user, c.date, c.category);
      && d.ledger[0].txType == Expense && d.ledger[0].simpleDate == clock.today
      && d.ledger[0].user == "Admin" && d.ledger[0].category == category && d.ledger[1..] == db.ledger
      && DataStore.Cash(d.ledger) == DataStore.Cash(db.ledger) - amount.value
  {
    var c := AddExpense(desc, amount, category, clock.today).value;
    var d := DataStore.AddLedgerStep(db, id, clock, Expense, c.desc, c.amt, c.user, c.date, c.category);
    DataStore.CashPrepend(d.ledger[0], db.ledger);
  }
}
