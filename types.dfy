/** The records the system stores (one collection each in the database). Money is
    an exact `real`; a calendar date is a "YYYY-MM-DD" string, except a loan's
    origination date, which is a day number so that due dates are arithmetic.
    An optional text field that the user left out is the empty string, which is
    what JavaScript's `||` defaults treat it as. */
module Types {

  datatype LoanStatus = Active | Paid

  /** One lending contract. */
  datatype Loan = Loan(
    id: string,
    name: string,
    area: string,
    principal: real,
    total: real,
    balance: real,
    daily: int,
    term: int,
    date: int,
    status: LoanStatus,
    address: string,
    cellNumber: string,
    serviceFee: real,
    deliveryCharge: real,
    collateral: string,
    notes: string)

  datatype TxType = Collection | Disbursement | Expense | Capital | Payroll | Dividend

  /** One ledger entry: positive `amt` is money in, negative is money out. */
  datatype Transaction = Transaction(
    id: string,
    date: string,
    simpleDate: string,
    txType: TxType,
    desc: string,
    amt: real,
    user: string,
    category: string)

  /** A staff member: collector, employee and login identity in one. */
  datatype Collector = Collector(
    id: string,
    name: string,
    area: string,
    pass: string,
    startDate: string,
    dailyRate: real,
    monthlyRate: real,
    quota: real)

  datatype AttendanceStatus = Present | Absent | RestDay

  /** One day's attendance mark; `id` is "" for a record stored without one. */
  datatype Attendance = Attendance(id: string, date: string, empId: string, status: AttendanceStatus)

  datatype PayrollStatus = PayrollPaid

  datatype PayrollRecord = PayrollRecord(
    id: string,
    date: string,
    month: string,
    empId: string,
    empName: string,
    daysPresent: nat,
    dailyRate: real,
    grossPay: real,
    deductions: real,
    netPay: real,
    status: PayrollStatus)

  /** `dividendRate` is a percentage: 5 means 5%. */
  datatype Investor = Investor(
    id: string,
    name: string,
    capitalInvested: real,
    dateJoined: string,
    dividendRate: real,
    totalPayouts: real)

  datatype AuditAction = Create | Update | Delete | System

  datatype AuditLog = AuditLog(id: string, timestamp: string, user: string, action: AuditAction, details: string)

  /** The logged-in user as the views see them. */
  datatype Viewer = Viewer(name: string, area: string, quota: real, isAdmin: bool)

  /** The environment's clock: today as "YYYY-MM-DD", the same day as a day number,
      and the full local timestamp. */
  datatype Clock = Clock(today: string, day: int, now: string)
}
