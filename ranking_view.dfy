/** The leaderboard: two-month periods, the default period, and each
    collector's row (collections in the period, today's collections, loans paid
    and missed today), ranked by collections. */
module RankingView {
  import opened Types
  import opened Lists
  import opened Strings
  import opened Views
  import DataStore

  datatype Period = Period(title: string, months: seq<string>)

  function Periods(): seq<Period>
  {
    [Period("Jan - Feb", ["01", "02"]), Period("Mar - Apr", ["03", "04"]), Period("May - Jun", ["05", "06"]),
     Period("Jul - Aug", ["07", "08"]), Period("Sep - Oct", ["09", "10"]), Period("Nov - Dec", ["11", "12"])]
  }

  function Twelve(): seq<string>
  {
    ["01", "02", "03", "04", "05", "06", "07", "08", "09", "10", "11", "12"]
  }

  /** Period `k` is months `2k + 1` and `2k + 2`: read in order, the six periods
      are the twelve months, each once. */
  lemma PeriodsPartitionYear()
    ensures |Periods()| == 6
    ensures forall k :: 0 <= k < 6 ==> Periods()[k].months == Twelve()[2 * k..2 * k + 2]
  {
  }

  /** No month is spelled twice. */
  lemma MonthsDistinct()
    ensures forall i, j :: 0 <= i < j < |Twelve()| ==> Twelve()[i] != Twelve()[j]
  {
  }

  /** The `k`-th part of a split, or `undefined` past the end. */
  function Part(parts: seq<string>, k: nat): Option<string>
  {
    if k < |parts| then Some(parts[k]) else None
  }

  function InMonths(months: seq<string>, m: Option<string>): bool
  {
    m.Some? && m.value in months
  }

  /** The default period: the one holding the current month (the second part of
      the current ISO date), or the first one. */
  function DefaultPeriod(isoNow: string): (k: nat)
    ensures k < |Periods()|
    ensures InMonths(Periods()[k].months, Part(Split(isoNow, '-'), 1))
         || (k == 0 && forall j :: 0 <= j < |Periods()| ==> !InMonths(Periods()[j].months, Part(Split(isoNow, '-'), 1)))
  {
    var current := Part(Split(isoNow, '-'), 1);
    var idx := FindIndex(Periods(), (p: Period) => InMonths(p.months, current));
    if idx == -1 then 0 else idx
  }

  /** A Collection entry of the collector dated in the selected year and period. */
  function InPeriodBy(name: string, year: string, months: seq<string>): Transaction -> bool
  {
    (t: Transaction) =>
      var parts := Split(t.simpleDate, '-');
      t.txType == Collection && t.user == name && Part(parts, 0) == Some(year) && InMonths(months, Part(parts, 1))
  }

  function OwnCollectionOn(name: string, date: string): Transaction -> bool
  {
    (t: Transaction) => t.txType == Collection && t.user == name && t.simpleDate == date
  }

  function ActiveInArea(area: string): Loan -> bool
  {
    (l: Loan) => l.status == Active && l.area == area
  }

  /** One leaderboard row. */
  datatype Row = Row(collector: Collector, totalCollected: real, collectedToday: real,
                     absentCount: nat, presentCount: nat, quota: real)

  /** The row of one collector: what the two sums and the two counts mean. */
  function RowFor(c: Collector, ledger: seq<Transaction>, loans: seq<Loan>, year: string, months: seq<string>,
                  today: string): Row
  {
    var active := Filter(loans, ActiveInArea(c.area));
    Row(c, SumBy(Filter(ledger, InPeriodBy(c.name, year, months)), DataStore.Amt),
        SumBy(Filter(ledger, OwnCollectionOn(c.name, today)), DataStore.Amt),
        |Absentees(active, ledger, today)|, |Attendees(active, ledger, today)|, c.quota)
  }

  /** Every Active loan of the collector's area is either paid or missed today. */
  lemma RowCountsCoverArea(c: Collector, ledger: seq<Transaction>, loans: seq<Loan>, year: string,
                           months: seq<string>, today: string)
    ensures var r := RowFor(c, ledger, loans, year, months, today);
      r.presentCount + r.absentCount == |Filter(loans, ActiveInArea(c.area))|
  {
    PresentPlusAbsent(Filter(loans, ActiveInArea(c.area)), ledger, today);
  }

  /** The row as the screen builds it, with the `forEach` that counts. */
  method BuildRow(c: Collector, ledger: seq<Transaction>, loans: seq<Loan>, year: string, months: seq<string>,
                  today: string) returns (r: Row)
    ensures r == RowFor(c, ledger, loans, year, months, today)
  {
    var active := Filter(loans, ActiveInArea(c.area));
    var present, absent := CountPresentAbsent(active, ledger, today);
    r := Row(c, SumBy(Filter(ledger, InPeriodBy(c.name, year, months)), DataStore.Amt),
             SumBy(Filter(ledger, OwnCollectionOn(c.name, today)), DataStore.Amt), absent, present, c.quota);
  }

  /** The comparator `(a, b) => b.totalCollected - a.totalCollected`. */
  predicate MoreCollected(a: Row, b: Row)
  {
    a.totalCollected >= b.totalCollected
  }

  lemma MoreCollectedIsTotalPreorder()
    ensures TotalPreorder(MoreCollected)
  {
  }

  /** The rows of a list of collectors, in its order. */
  function RowsFor(cs: seq<Collector>, ledger: seq<Transaction>, loans: seq<Loan>, year: string, months: seq<string>,
                   today: string): (r: seq<Row>)
    ensures |r| == |cs|
    ensures forall i :: 0 <= i < |cs| ==> r[i] == RowFor(cs[i], ledger, loans, year, months, today)
  {
    if cs == [] then [] else [RowFor(cs[0], ledger, loans, year, months, today)] + RowsFor(cs[1..], ledger, loans, year, months, today)
  }

  /** The `map` over the collectors, row by row. */
  method BuildRows(cs: seq<Collector>, ledger: seq<Transaction>, loans: seq<Loan>, year: string, months: seq<string>,
                   today: string) returns (rows: seq<Row>)
    ensures rows == RowsFor(cs, ledger, loans, year, months, today)
  {
    rows := [];
    for i := 0 to |cs|
      invariant |rows| == i
      invariant forall k :: 0 <= k < i ==> rows[k] == RowFor(cs[k], ledger, loans, year, months, today)
    {
      var r := BuildRow(cs[i], ledger, loans, year, months, today);
      rows := rows + [r];
    }
  }

  /** Each row belongs to one of the listed collectors. */
  lemma RowsBelongToCollectors(cs: seq<Collector>, ledger: seq<Transaction>, loans: seq<Loan>, year: string,
                               months: seq<string>, today: string, r: Row)
    requires r in RowsFor(cs, ledger, loans, year, months, today)
    ensures r.collector in cs
  {
    var rows := RowsFor(cs, ledger, loans, year, months, today);
    var k :| 0 <= k < |rows| && rows[k] == r;
    assert r.collector == cs[k];
  }

  /** `rankings`: a row per collector other than the administrator, ranked by
      what they collected in the selected period (`months`, the months of
      `Periods()[selectedPeriodIdx]`), most first. */
  method Rankings(collectors: seq<Collector>, ledger: seq<Transaction>, loans: seq<Loan>, year: string,
                  months: seq<string>, today: string) returns (rows: seq<Row>)
    ensures multiset(rows) == multiset(RowsFor(Staff(collectors), ledger, loans, year, months, today))
    ensures forall r :: r in rows ==> r.collector in collectors && r.collector.name != "Admin"
    ensures forall i, j :: 0 <= i < j < |rows| ==> rows[i].totalCollected >= rows[j].totalCollected
  {
    var staff := Staff(collectors);
    var unsorted := BuildRows(staff, ledger, loans, year, months, today);
    MoreCollectedIsTotalPreorder();
    SortBySorted(unsorted, MoreCollected);
    rows := SortBy(unsorted, MoreCollected);
    forall r | r in rows ensures r.collector in collectors && r.collector.name != "Admin" {
      SortByMembers(unsorted, MoreCollected, r);
      RowsBelongToCollectors(staff, ledger, loans, year, months, today, r);
    }
  }

  /** A date written "YYYY-MM-DD" splits into its year, month and day. */
  lemma DateParts(year: string, month: string, day: string)
    requires '-' !in year && '-' !in month && '-' !in day
    ensures Split(year + "-" + month + "-" + day, '-') == [year, month, day]
  {
    assert year + "-" + month + "-" + day == year + ['-'] + (month + ['-'] + day);
    SplitAtFirst(year, '-', month + ['-'] + day);
    SplitAtFirst(month, '-', day);
    SplitWithoutSeparator(day, '-');
  }

  /** A payment a collector books on a date of the selected year and period
      raises their collections for the period by exactly its amount. */
  lemma PaymentCountsTowardsPeriod(db: DataStore.Db, loan: Loan, amount: real, c: Collector, year: string,
                                   month: string, day: string, months: seq<string>, clock: Clock, gen: nat -> string)
    requires DataStore.FindLoan(db.loans, loan.id) == Some(loan)
    requires '-' !in year && '-' !in month && '-' !in day && month in months
    ensures var date := year + "-" + month + "-" + day;
      var d := DataStore.ProcessPaymentStep(db, loan.id, amount, c.name, date, clock, gen);
      SumBy(Filter(d.ledger, InPeriodBy(c.name, year, months)), DataStore.Amt)
        == SumBy(Filter(db.ledger, InPeriodBy(c.name, year, months)), DataStore.Amt) + amount
  {
    var date := year + "-" + month + "-" + day;
    DateParts(year, month, day);
    var t := DataStore.Entry(gen(0), clock, Collection, "Payment: " + loan.name, amount, c.name, date, "");
    var d := DataStore.ProcessPaymentStep(db, loan.id, amount, c.name, date, clock, gen);
    assert d.ledger == [t] + db.ledger;
    var p := InPeriodBy(c.name, year, months);
    assert p(t);
    FilterAppend([t], db.ledger, p);
    assert Filter([t], p) == [t];
    DataStore.CashPrepend(t, Filter(db.ledger, p));
  }
}
