/** The dashboard: the ledger and portfolio figures of the `stats` block, the
    collector's day figures, and the recent activity list. */
module DashboardView {
  import opened Types
  import opened Lists
  import opened Utils
  import opened Views
  import LedgerView
  import DataStore

  /** The entries the figures are computed from: all of them for the
      administrator, a collector's own otherwise. */
  function Source(ledger: seq<Transaction>, viewer: Viewer): (r: seq<Transaction>)
    ensures forall t :: t in r <==> t in ledger && (!viewer.isAdmin ==> t.user == viewer.name)
  {
    if viewer.isAdmin then ledger else Filter(ledger, (t: Transaction) => t.user == viewer.name)
  }

  /** A Collection entry booked in the month (or on the day) `filterDate` prefixes. */
  predicate IsIncome(t: Transaction, filterDate: string)
  {
    t.txType == Collection && filterDate <= t.simpleDate
  }

  function IncomeOf(filterDate: string): Transaction -> real
  {
    (t: Transaction) => if IsIncome(t, filterDate) then t.amt else 0.0
  }

  /** The loans the portfolio figures cover: Active ones, in the collector's area
      unless the viewer is the administrator. */
  function ActiveFor(viewer: Viewer): Loan -> bool
  {
    (l: Loan) => l.status == Active && (!viewer.isAdmin ==> l.area == viewer.area)
  }

  function InViewerArea(viewer: Viewer): Loan -> bool
  {
    (l: Loan) => !viewer.isAdmin ==> l.area == viewer.area
  }

  /** The collector's own Collection entries of the day. */
  function OwnCollectionOn(name: string, date: string): Transaction -> bool
  {
    (t: Transaction) => t.user == name && t.txType == Collection && t.simpleDate == date
  }

  datatype Stats = Stats(totalIn: real, totalOut: real, income: real, pastDueCount: nat, portfolioValue: real,
                         activeCount: nat, totalClients: nat, systemLiquidity: real, dailyCollected: real,
                         absentCount: nat)

  /** The `forEach` over the source entries: money in, money out, and the
      period's collections. */
  method LedgerFigures(src: seq<Transaction>, filterDate: string) returns (totalIn: real, totalOut: real, income: real)
    ensures totalIn == SumBy(src, LedgerView.Inflow) && totalOut == SumBy(src, LedgerView.Outflow)
    ensures income == SumBy(src, IncomeOf(filterDate))
  {
    totalIn, totalOut, income := 0.0, 0.0, 0.0;
    for i := 0 to |src|
      invariant totalIn == SumBy(src[..i], LedgerView.Inflow)
      invariant totalOut == SumBy(src[..i], LedgerView.Outflow)
      invariant income == SumBy(src[..i], IncomeOf(filterDate))
    {
      var t := src[i];
      assert src[..i + 1] == src[..i] + [t];
      SumByAppend(src[..i], [t], LedgerView.Inflow);
      SumByAppend(src[..i], [t], LedgerView.Outflow);
      SumByAppend(src[..i], [t], IncomeOf(filterDate));
      if t.amt > 0.0 {
        totalIn := totalIn + t.amt;
      }
      if t.amt < 0.0 {
        totalOut := totalOut + -t.amt;
      }
      if t.txType == Collection && filterDate <= t.simpleDate {
        income := income + t.amt;
      }
    }
    assert src[..|src|] == src;
  }

  /** The `stats` block. Liquidity is money in less money out, which is the net
      of the source entries; the collector's day figures are 0 for the
      administrator. */
  method DashboardStats(ledger: seq<Transaction>, loans: seq<Loan>, viewer: Viewer, filterDate: string, clock: Clock)
    returns (s: Stats)
    ensures s.totalIn == SumBy(Source(ledger, viewer), LedgerView.Inflow)
    ensures s.totalOut == SumBy(Source(ledger, viewer), LedgerView.Outflow)
    ensures s.systemLiquidity == DataStore.Cash(Source(ledger, viewer))
    ensures s.income == SumBy(Filter(Source(ledger, viewer), (t: Transaction) => IsIncome(t, filterDate)), DataStore.Amt)
    ensures s.activeCount == |Filter(loans, ActiveFor(viewer))|
    ensures s.pastDueCount == |Filter(Filter(loans, ActiveFor(viewer)), Overdue(clock.day))| <= s.activeCount
    ensures s.portfolioValue == SumBy(Filter(loans, ActiveFor(viewer)), Balance)
    ensures s.totalClients == |Filter(loans, InViewerArea(viewer))|
    ensures viewer.isAdmin ==> s.dailyCollected == 0.0 && s.absentCount == 0
    ensures !viewer.isAdmin ==>
      s.dailyCollected == SumBy(Filter(ledger, OwnCollectionOn(viewer.name, clock.today)), DataStore.Amt)
    ensures !viewer.isAdmin ==> s.absentCount == |Absentees(Filter(loans, ActiveFor(viewer)), ledger, clock.today)|
  {
    var src := Source(ledger, viewer);
    var totalIn, totalOut, income := LedgerFigures(src, filterDate);
    SumByDifference(src, LedgerView.Inflow, LedgerView.Outflow, DataStore.Amt);
    SumByFilter(src, (t: Transaction) => IsIncome(t, filterDate), DataStore.Amt, IncomeOf(filterDate));
    var active := Filter(loans, ActiveFor(viewer));
    var pastDue := |Filter(active, Overdue(clock.day))|;
    var portfolio := SumBy(active, Balance);
    var clients := if viewer.isAdmin then |loans| else |Filter(loans, InViewerArea(viewer))|;
    if viewer.isAdmin {
      FilterAll(loans, InViewerArea(viewer));
    }
    var dailyCollected, absentCount := 0.0, 0;
    if !viewer.isAdmin {
      dailyCollected := SumBy(Filter(ledger, OwnCollectionOn(viewer.name, clock.today)), DataStore.Amt);
      absentCount := CountAbsent(active, ledger, clock.today);
    }
    s := Stats(totalIn, totalOut, income, pastDue, portfolio, |active|, clients, totalIn - totalOut,
               dailyCollected, absentCount);
  }

  /** `recentActivity`: the first five source entries. */
  function RecentActivity(ledger: seq<Transaction>, viewer: Viewer): (r: seq<Transaction>)
    ensures |r| == if |Source(ledger, viewer)| < 5 then |Source(ledger, viewer)| else 5
    ensures r <= Source(ledger, viewer)
  {
    Take(Source(ledger, viewer), 5)
  }

  /** Because every write prepends, an entry the viewer may see heads the recent
      activity as soon as it is booked, followed by what was there before. */
  lemma NewestEntryFirst(db: DataStore.Db, id: string, clock: Clock, txType: TxType, desc: string, amt: real,
                         user: string, dateOverride: string, category: string, viewer: Viewer)
    requires viewer.isAdmin || user == viewer.name
    ensures var d := DataStore.AddLedgerStep(db, id, clock, txType, desc, amt, user, dateOverride, category);
      && RecentActivity(d.ledger, viewer)[0] == d.ledger[0]
      && RecentActivity(d.ledger, viewer)[1..] == Take(Source(db.ledger, viewer), 4)
  {
    var d := DataStore.AddLedgerStep(db, id, clock, txType, desc, amt, user, dateOverride, category);
    if !viewer.isAdmin {
      assert ([d.ledger[0]] + db.ledger)[1..] == db.ledger;
      assert d.ledger == [d.ledger[0]] + db.ledger;
    }
  }
}
