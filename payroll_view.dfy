/** The payroll screen: the employees, the month's preview computed from the
    attendance marks, the "already processed" guard, and the records handed to
    the engine. */
module PayrollView {
  import opened Types
  import opened Lists
  import opened Views
  import DataStore

  // The employees on the payroll are `Views.Staff`: every account but the administrator's.

  function InMonth(month: string): PayrollRecord -> bool
  {
    (p: PayrollRecord) => p.month == month
  }

  /** The month has been paid once some stored record carries it. */
  predicate IsProcessed(payroll: seq<PayrollRecord>, month: string)
  {
    |Filter(payroll, InMonth(month))| > 0
  }

  lemma IsProcessedIff(payroll: seq<PayrollRecord>, month: string)
    ensures IsProcessed(payroll, month) <==> exists i :: 0 <= i < |payroll| && payroll[i].month == month
  {
    var f := Filter(payroll, InMonth(month));
    if IsProcessed(payroll, month) {
      assert f[0] in payroll;
    }
  }

  /** A Present mark of the employee whose date starts with the month. */
  function PresentIn(empId: string, month: string): Attendance -> bool
  {
    (a: Attendance) => a.empId == empId && month <= a.date && a.status == Present
  }

  function DaysPresent(attendance: seq<Attendance>, empId: string, month: string): nat
  {
    |Filter(attendance, PresentIn(empId, month))|
  }

  /** One line of the preview. */
  datatype PreviewLine = PreviewLine(emp: Collector, daysPresent: nat, gross: real, deductions: real, net: real)

  /** One employee's line: Present days times the daily rate, nothing deducted. */
  function LineFor(attendance: seq<Attendance>, month: string, emp: Collector): PreviewLine
  {
    var days := DaysPresent(attendance, emp.id, month);
    var gross := days as real * emp.dailyRate;
    PreviewLine(emp, days, gross, 0.0, gross - 0.0)
  }

  function Line(attendance: seq<Attendance>, month: string): Collector -> PreviewLine
  {
    (emp: Collector) => LineFor(attendance, month, emp)
  }

  /** The preview: per employee, the Present days of the month times the daily
      rate, with no deductions. */
  function Preview(employees: seq<Collector>, attendance: seq<Attendance>, month: string): (r: seq<PreviewLine>)
    ensures |r| == |employees|
    ensures forall i :: 0 <= i < |r| ==>
      (&& r[i].emp == employees[i]
       && r[i].daysPresent == DaysPresent(attendance, employees[i].id, month)
       && r[i].deductions == 0.0
       && r[i].net == r[i].gross == r[i].daysPresent as real * employees[i].dailyRate)
  {
    var r := Map(employees, Line(attendance, month));
    assert forall i :: 0 <= i < |r| ==> r[i] == LineFor(attendance, month, employees[i]);
    r
  }

  function LineNet(p: PreviewLine): real { p.net }

  function TotalPayout(preview: seq<PreviewLine>): real
  {
    SumBy(preview, LineNet)
  }

  /** A first mark of Present for a day of the month adds one day, and one daily
      rate, to that employee's line of the preview. */
  lemma PresentMarkAddsADay(db: DataStore.Db, date: string, emp: Collector, month: string, gen: nat -> string)
    requires DataStore.FindMark(db.attendance, date, emp.id).None? && month <= date
    ensures var d := DataStore.MarkAttendanceStep(db, date, emp.id, Present, gen);
      && DaysPresent(d.attendance, emp.id, month) == DaysPresent(db.attendance, emp.id, month) + 1
      && LineFor(d.attendance, month, emp).net == LineFor(db.attendance, month, emp).net + emp.dailyRate
  {
    var d := DataStore.MarkAttendanceStep(db, date, emp.id, Present, gen);
    MarkPrepends(db, date, emp.id, gen);
    var n := DaysPresent(db.attendance, emp.id, month);
    FirstMarkCounted(Attendance(gen(0), date, emp.id, Present), db.attendance, emp.id, month);
    OneMoreDay(db.attendance, d.attendance, month, emp);
  }

  lemma OneMoreDay(before: seq<Attendance>, after: seq<Attendance>, month: string, emp: Collector)
    requires DaysPresent(after, emp.id, month) == DaysPresent(before, emp.id, month) + 1
    ensures LineFor(after, month, emp).net == LineFor(before, month, emp).net + emp.dailyRate
  {
  }

  lemma MarkPrepends(db: DataStore.Db, date: string, empId: string, gen: nat -> string)
    requires DataStore.FindMark(db.attendance, date, empId).None?
    ensures DataStore.MarkAttendanceStep(db, date, empId, Present, gen).attendance
         == [Attendance(gen(0), date, empId, Present)] + db.attendance
  {
  }

  lemma FirstMarkCounted(mark: Attendance, attendance: seq<Attendance>, empId: string, month: string)
    requires PresentIn(empId, month)(mark)
    ensures DaysPresent([mark] + attendance, empId, month) == DaysPresent(attendance, empId, month) + 1
  {
    FilterAppend([mark], attendance, PresentIn(empId, month));
    assert Filter([mark], PresentIn(empId, month)) == [mark];
  }

  /** The record handed to the engine for one preview line; `id` is `genId()`. */
  function RecordFor(p: PreviewLine, id: string, month: string, clock: Clock): PayrollRecord
  {
    PayrollRecord(id, clock.now, month, p.emp.id, p.emp.name, p.daysPresent, p.emp.dailyRate,
                  p.gross, p.deductions, p.net, PayrollPaid)
  }

  /** `handleProcess`'s records: one per preview line, in preview order. */
  function BuildRecords(preview: seq<PreviewLine>, month: string, ids: nat -> string, clock: Clock): (r: seq<PayrollRecord>)
    ensures |r| == |preview|
    ensures forall i :: 0 <= i < |r| ==>
      (&& r[i].month == month && r[i].empId == preview[i].emp.id
       && r[i].netPay == preview[i].net && r[i].grossPay == preview[i].gross
       && r[i].daysPresent == preview[i].daysPresent && r[i].status == PayrollPaid)
    ensures SumBy(r, DataStore.NetPay) == TotalPayout(preview)
  {
    var r := seq(|preview|, i requires 0 <= i < |preview| => RecordFor(preview[i], ids(i), month, clock));
    assert forall i :: 0 <= i < |r| ==> r[i] == RecordFor(preview[i], ids(i), month, clock);
    SumByPointwise(r, DataStore.NetPay, preview, LineNet);
    r
  }

  /** The Process button: offered only while the month is unpaid and the total is
      not 0, and acting only once the user confirms. */
  function HandleProcess(payroll: seq<PayrollRecord>, preview: seq<PreviewLine>, month: string, confirmed: bool,
                         ids: nat -> string, clock: Clock): (r: Option<seq<PayrollRecord>>)
    ensures r.Some? <==> !IsProcessed(payroll, month) && TotalPayout(preview) != 0.0 && confirmed
    ensures r.Some? ==> r.value == BuildRecords(preview, month, ids, clock)
  {
    if IsProcessed(payroll, month) || TotalPayout(preview) == 0.0 || !confirmed then None
    else Some(BuildRecords(preview, month, ids, clock))
  }

  /** Processing pays out exactly the previewed total, and afterwards the month
      counts as processed, so the button is not offered again. */
  lemma ProcessingPaysPreview(db: DataStore.Db, preview: seq<PreviewLine>, month: string, confirmed: bool,
                              ids: nat -> string, clock: Clock, gen: nat -> string)
    requires HandleProcess(db.payroll, preview, month, confirmed, ids, clock).Some?
    ensures var records := HandleProcess(db.payroll, preview, month, confirmed, ids, clock).value;
      var d := DataStore.ProcessPayrollStep(db, records, "Admin", clock, gen);
      && DataStore.Cash(d.ledger) == DataStore.Cash(db.ledger) - TotalPayout(preview)
      && IsProcessed(d.payroll, month)
      && HandleProcess(d.payroll, preview, month, confirmed, ids, clock).None?
  {
    var records := BuildRecords(preview, month, ids, clock);
    var d := DataStore.ProcessPayrollStep(db, records, "Admin", clock, gen);
    DataStore.PayrollWritesEffect(db, records, "Admin", clock, gen);
    DataStore.PayrollWritesRecords(db, records, "Admin", clock, gen);
    DataStore.SalaryEntriesCash(records, "Admin", clock, gen);
    SumByAppend(DataStore.SalaryEntries(records, "Admin", clock, gen), db.ledger, DataStore.Amt);
    assert |preview| > 0;
    assert d.payroll[0] == records[|records| - 1];
    assert InMonth(month)(d.payroll[0]);
    IsProcessedIff(d.payroll, month);
  }
}
