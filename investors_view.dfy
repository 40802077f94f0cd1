/** The investor portal: the new-investor form and the dividend button. */
module InvestorsView {
  import opened Types
  import opened Lists
  import opened Views
  import DataStore

  /** `handleAdd`: refused when the name is empty or the capital is 0 or does
      not parse; otherwise a new investor joining today with no payouts yet.
      `rate` is the parsed dividend rate. */
  function AddRequest(name: string, capital: Option<real>, rate: real, id: string, today: string): (r: Option<Investor>)
    ensures r.None? <==> name == "" || Falsy(capital)
    ensures r.Some? ==> r.value == Investor(id, name, capital.value, today, rate, 0.0)
  {
    if name == "" || Falsy(capital) then None
    else Some(Investor(id, name, capital.value, today, rate, 0.0))
  }

  /** A negative capital is not refused by the form. */
  lemma NegativeCapitalAccepted(id: string, today: string)
    ensures AddRequest("Investor", Some(-100.0), 5.0, id, today).Some?
  {
  }

  /** An accepted investor heads the investor list with no payouts, and the
      capital is booked in. */
  lemma AddedInvestorRecorded(db: DataStore.Db, name: string, capital: Option<real>, rate: real, id: string,
                              clock: Clock, gen: nat -> string)
    requires AddRequest(name, capital, rate, id, clock.today).Some?
    ensures var inv := AddRequest(name, capital, rate, id, clock.today).value;
      var d := DataStore.AddInvestorStep(db, inv, clock, gen);
      && d.investors[0].totalPayouts == 0.0 && d.investors[0].dateJoined == clock.today
      && d.investors[1..] == db.investors
      && DataStore.Cash(d.ledger) == DataStore.Cash(db.ledger) + capital.value
  {
    var inv := AddRequest(name, capital, rate, id, clock.today).value;
    DataStore.AddInvestorEffect(db, inv, clock, gen);
  }

  /** The payout of one dividend: the rate read as a percentage of the capital. */
  function Payout(inv: Investor): (p: real)
    ensures p * 100.0 == inv.capitalInvested * inv.dividendRate
    ensures inv.capitalInvested >= 0.0 && inv.dividendRate >= 0.0 ==> p >= 0.0
  {
    inv.capitalInvested * (inv.dividendRate / 100.0)
  }

  /** A rate of 5 pays 5% of the capital; the fraction reading of the rate
      (0.05 for 5%) would pay a hundredth of that. */
  lemma RateIsAPercentage(inv: Investor)
    requires inv.capitalInvested == 1000.0
    ensures inv.dividendRate == 5.0 ==> Payout(inv) == 50.0
    ensures inv.dividendRate == 0.05 ==> Payout(inv) == 0.5
  {
  }

  /** What `handlePay` passes to `payDividend`. */
  datatype DividendCall = DividendCall(investorId: string, amount: real)

  /** `handlePay`: the investor's id and payout, only once confirmed. */
  function HandlePay(inv: Investor, confirmed: bool): (r: Option<DividendCall>)
    ensures r.Some? <==> confirmed
    ensures r.Some? ==> r.value.investorId == inv.id && r.value.amount * 100.0 == inv.capitalInvested * inv.dividendRate
  {
    if confirmed then Some(DividendCall(inv.id, Payout(inv))) else None
  }

  /** A confirmed payout raises the investor's recorded payouts by the payout
      and takes the same amount out of cash. */
  lemma ConfirmedPayoutRecorded(db: DataStore.Db, inv: Investor, clock: Clock, gen: nat -> string)
    requires DataStore.FindInvestor(db.investors, inv.id) == Some(inv)
    ensures var c := HandlePay(inv, true).value;
      var d := DataStore.PayDividendStep(db, c.investorId, c.amount, clock, gen);
      && DataStore.FindInvestor(d.investors, inv.id) == Some(inv.(totalPayouts := inv.totalPayouts + Payout(inv)))
      && DataStore.Cash(d.ledger) == DataStore.Cash(db.ledger) - Payout(inv)
  {
    PaymentRecorded(db, inv, Payout(inv), clock, gen);
  }

  lemma PaymentRecorded(db: DataStore.Db, inv: Investor, amount: real, clock: Clock, gen: nat -> string)
    requires DataStore.FindInvestor(db.investors, inv.id) == Some(inv)
    ensures var d := DataStore.PayDividendStep(db, inv.id, amount, clock, gen);
      && DataStore.FindInvestor(d.investors, inv.id) == Some(inv.(totalPayouts := inv.totalPayouts + amount))
      && DataStore.Cash(d.ledger) == DataStore.Cash(db.ledger) - amount
  {
    DataStore.PayDividendThenFind(db, inv.id, amount, clock, gen);
    var d := DataStore.PayInvestor(db, inv, amount, clock, gen);
    assert DataStore.PayDividendStep(db, inv.id, amount, clock, gen).ledger == d.ledger;
    assert d.ledger == [d.ledger[0]] + db.ledger && d.ledger[0].amt == -amount;
    DataStore.CashPrepend(d.ledger[0], db.ledger);
  }
}
