/** The profit and loss screen: sums by entry type, net profit, the outstanding
    portfolio and the return on disbursed money. */
module IntelligenceView {
  import opened Types
  import opened Lists
  import opened Views
  import LedgerView
  import DataStore

  function AbsAmt(t: Transaction): real
  {
    if t.amt < 0.0 then -t.amt else t.amt
  }

  /** The signed sum of one type's entries. */
  function SignedSum(ledger: seq<Transaction>, ty: TxType): real
  {
    SumBy(Filter(ledger, LedgerView.OfType(ty)), DataStore.Amt)
  }

  /** The sum of the sizes of one type's entries. */
  function AbsSum(ledger: seq<Transaction>, ty: TxType): real
  {
    SumBy(Filter(ledger, LedgerView.OfType(ty)), AbsAmt)
  }

  datatype Analysis = Analysis(totalCollected: real, totalDisbursed: real, totalExpenses: real,
                               totalDividends: real, netProfit: real, portfolio: real)

  /** `analysis`: collections less disbursements, expenses and dividends; Capital
      and Payroll entries take no part. The portfolio is what Active loans owe. */
  function Analyse(ledger: seq<Transaction>, loans: seq<Loan>): (a: Analysis)
    ensures a.totalCollected == SignedSum(ledger, Collection)
    ensures a.totalDisbursed == AbsSum(ledger, Disbursement) && a.totalExpenses == AbsSum(ledger, Expense)
    ensures a.totalDividends == AbsSum(ledger, Dividend)
    ensures a.netProfit == NetProfit(ledger)
    ensures a.totalDisbursed >= 0.0 && a.totalExpenses >= 0.0 && a.totalDividends >= 0.0
    ensures a.netProfit == a.totalCollected - a.totalDisbursed - a.totalExpenses - a.totalDividends
    ensures a.portfolio == SumBy(Filter(loans, IsActive), Balance)
  {
    AbsSumNonNegative(Filter(ledger, LedgerView.OfType(Disbursement)));
    AbsSumNonNegative(Filter(ledger, LedgerView.OfType(Expense)));
    AbsSumNonNegative(Filter(ledger, LedgerView.OfType(Dividend)));
    var collected := SignedSum(ledger, Collection);
    var disbursed := AbsSum(ledger, Disbursement);
    var expenses := AbsSum(ledger, Expense);
    var dividends := AbsSum(ledger, Dividend);
    Analysis(collected, disbursed, expenses, dividends, collected - disbursed - expenses - dividends,
             SumBy(Filter(loans, IsActive), Balance))
  }

  lemma {:induction false} AbsSumNonNegative(txs: seq<Transaction>)
    ensures SumBy(txs, AbsAmt) >= 0.0
  {
    if txs != [] {
      AbsSumNonNegative(txs[1..]);
    }
  }

  /** The ROI denominator: the disbursed total, or 1 when nothing was disbursed. */
  function RoiBase(totalDisbursed: real): (b: real)
    ensures b != 0.0
    ensures totalDisbursed != 0.0 ==> b == totalDisbursed
  {
    if totalDisbursed == 0.0 then 1.0 else totalDisbursed
  }

  /** Money going out under a type is booked as a negative amount. */
  predicate OutflowsSigned(ledger: seq<Transaction>)
  {
    forall i :: 0 <= i < |ledger| && ledger[i].txType in {Disbursement, Expense, Dividend} ==> ledger[i].amt <= 0.0
  }

  function NetProfit(ledger: seq<Transaction>): real
  {
    SignedSum(ledger, Collection) - AbsSum(ledger, Disbursement) - AbsSum(ledger, Expense) - AbsSum(ledger, Dividend)
  }

  lemma SignedSumPrepend(t: Transaction, rest: seq<Transaction>, ty: TxType)
    ensures SignedSum([t] + rest, ty) == (if t.txType == ty then t.amt else 0.0) + SignedSum(rest, ty)
  {
    assert ([t] + rest)[1..] == rest;
  }

  lemma AbsSumPrepend(t: Transaction, rest: seq<Transaction>, ty: TxType)
    ensures AbsSum([t] + rest, ty) == (if t.txType == ty then AbsAmt(t) else 0.0) + AbsSum(rest, ty)
  {
    assert ([t] + rest)[1..] == rest;
  }

  /** With outflows booked as negative amounts, net profit is the ledger's cash
      less the capital injected and the salaries paid. */
  lemma {:induction false} NetProfitIsCashLessCapitalAndPayroll(ledger: seq<Transaction>)
    requires OutflowsSigned(ledger)
    ensures NetProfit(ledger) == DataStore.Cash(ledger) - SignedSum(ledger, Capital) - SignedSum(ledger, Payroll)
  {
    if ledger != [] {
      var t, rest := ledger[0], ledger[1..];
      assert OutflowsSigned(rest) by {
        forall i | 0 <= i < |rest| && rest[i].txType in {Disbursement, Expense, Dividend}
          ensures rest[i].amt <= 0.0
        {
          assert rest[i] == ledger[i + 1];
        }
      }
      NetProfitIsCashLessCapitalAndPayroll(rest);
      assert ledger == [t] + rest;
      SignedSumPrepend(t, rest, Collection);
      SignedSumPrepend(t, rest, Capital);
      SignedSumPrepend(t, rest, Payroll);
      AbsSumPrepend(t, rest, Disbursement);
      AbsSumPrepend(t, rest, Expense);
      AbsSumPrepend(t, rest, Dividend);
      DataStore.CashPrepend(t, rest);
      assert t.txType in {Disbursement, Expense, Dividend} ==> t.amt <= 0.0;
    }
  }

  /** Capital injections and salary entries leave net profit where it was. */
  lemma CapitalAndPayrollDoNotCount(t: Transaction, ledger: seq<Transaction>)
    requires t.txType == Capital || t.txType == Payroll
    ensures NetProfit([t] + ledger) == NetProfit(ledger)
  {
    SignedSumPrepend(t, ledger, Collection);
    AbsSumPrepend(t, ledger, Disbursement);
    AbsSumPrepend(t, ledger, Expense);
    AbsSumPrepend(t, ledger, Dividend);
  }

  /** So injecting capital does not move net profit, while it does raise cash. */
  lemma CapitalInjectionLeavesProfit(db: DataStore.Db, amount: real, user: string, clock: Clock,
                                     gen: nat -> string, show: real -> string)
    ensures var d := DataStore.AddCapitalStep(db, amount, user, clock, gen, show);
      NetProfit(d.ledger) == NetProfit(db.ledger) && DataStore.Cash(d.ledger) == DataStore.Cash(db.ledger) + amount
  {
    var d := DataStore.AddCapitalStep(db, amount, user, clock, gen, show);
    DataStore.AddCapitalEffect(db, amount, user, clock, gen, show);
    assert d.ledger == [d.ledger[0]] + db.ledger;
    CapitalAndPayrollDoNotCount(d.ledger[0], db.ledger);
  }

  function ActiveBalance(l: Loan): real
  {
    if l.status == Active then l.balance else 0.0
  }

  /** While Paid loans owe nothing, the portfolio is everything owed. */
  lemma PortfolioIsAllBalances(loans: seq<Loan>)
    requires DataStore.SoundLoans(loans)
    ensures SumBy(Filter(loans, IsActive), Balance) == SumBy(loans, Balance)
  {
    SumByFilter(loans, IsActive, Balance, ActiveBalance);
    SumByPointwise(loans, ActiveBalance, loans, Balance);
  }
}
