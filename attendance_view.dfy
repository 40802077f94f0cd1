/** The attendance tracker: the staff tracked, each one's mark for the chosen
    day, the day's counts, and the three marking buttons. */
module AttendanceView {
  import opened Types
  import opened Lists
  import opened Views
  import DataStore

  // The tracked staff are `Views.Staff`: every account but the administrator's.

  /** `getStatus`: the status of the first mark for that day and employee, if any. */
  function GetStatus(attendance: seq<Attendance>, date: string, empId: string): (s: Option<AttendanceStatus>)
    ensures s.None? <==> forall i :: 0 <= i < |attendance| ==> !(attendance[i].date == date && attendance[i].empId == empId)
    ensures s.Some? ==> exists i :: 0 <= i < |attendance| && attendance[i].date == date
                                    && attendance[i].empId == empId && attendance[i].status == s.value
                                    && forall j :: 0 <= j < i ==> !(attendance[j].date == date && attendance[j].empId == empId)
  {
    match DataStore.FindMark(attendance, date, empId)
    case None => None
    case Some(a) => Some(a.status)
  }

  /** A marking button calls `markAttendance` with the day, the employee and its
      status; afterwards the row shows exactly that status. */
  lemma ButtonShowsItsStatus(db: DataStore.Db, date: string, empId: string, status: AttendanceStatus, gen: nat -> string)
    ensures GetStatus(DataStore.MarkAttendanceStep(db, date, empId, status, gen).attendance, date, empId) == Some(status)
  {
    DataStore.MarkAttendanceThenFind(db, date, empId, status, gen);
  }

  function OnDate(date: string): Attendance -> bool
  {
    (a: Attendance) => a.date == date
  }

  function WithStatus(status: AttendanceStatus): Attendance -> bool
  {
    (a: Attendance) => a.status == status
  }

  /** The day's counts; `pending` is the staff count less the marks of the day. */
  datatype DayCounts = DayCounts(present: nat, absent: nat, rest: nat, pending: int)

  function Stats(attendance: seq<Attendance>, date: string, staffCount: nat): (c: DayCounts)
    ensures c.present == |Filter(Filter(attendance, OnDate(date)), WithStatus(Present))|
    ensures c.absent == |Filter(Filter(attendance, OnDate(date)), WithStatus(Absent))|
    ensures c.rest == |Filter(Filter(attendance, OnDate(date)), WithStatus(RestDay))|
    ensures c.present + c.absent + c.rest == |Filter(attendance, OnDate(date))|
    ensures c.pending == staffCount - |Filter(attendance, OnDate(date))|
    ensures c.present + c.absent + c.rest + c.pending == staffCount
  {
    var records := Filter(attendance, OnDate(date));
    StatusesPartition(records);
    var present := |Filter(records, WithStatus(Present))|;
    var absent := |Filter(records, WithStatus(Absent))|;
    var rest := |Filter(records, WithStatus(RestDay))|;
    DayCounts(present, absent, rest, staffCount - (present + absent + rest))
  }

  /** Every mark has exactly one of the three statuses. */
  lemma {:induction false} StatusesPartition(records: seq<Attendance>)
    ensures |Filter(records, WithStatus(Present))| + |Filter(records, WithStatus(Absent))|
            + |Filter(records, WithStatus(RestDay))| == |records|
  {
    if records != [] {
      StatusesPartition(records[1..]);
    }
  }

  /** Marks are keyed by (day, employee), but nothing ties a mark to a tracked
      employee: a mark left by a deleted employee makes `pending` negative. */
  lemma PendingCanBeNegative()
    ensures Stats([Attendance("A1", "2026-10-14", "99", Present)], "2026-10-14", 0).pending == -1
  {
    assert Filter([Attendance("A1", "2026-10-14", "99", Present)], OnDate("2026-10-14"))
        == [Attendance("A1", "2026-10-14", "99", Present)];
  }
}
