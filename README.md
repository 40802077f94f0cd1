# SkyLend in Dafny

SkyLend is a microfinance back office. Field collectors walk daily routes and
collect installments on short loans. An administrator creates, renews and
refinances those loans, runs payroll from attendance marks, and pays dividends
to investors. Every money movement goes into one ledger.

This project models the local-mode data engine and the figures the screens
compute from the database.

- `DataStore` (store.dfy) is the engine.
  - `Db` is the database record. Each action is a function from the database
    before to the database after: `CreateLoanStep`, `RefinanceStep`,
    `ProcessPaymentStep`, `MarkAttendanceStep`, `ProcessPayrollStep`,
    `PayDividendStep` and the others.
  - They are built from the three list primitives `Add`, `UpdateById` and
    `DeleteById`.
  - The class `DataStore.Store` holds the collections as `seq` fields. Its
    methods perform the same writes one after another, as the engine does.
    Each method ensures that its new state is the action applied to the old one.
  - Lemmas state what each action does. They also prove two things for whole
    sessions (`Run`) of the actions in `Action`, which leaves out `importData`:
    the ledger and the audit trail only ever grow at the front;
    and, in a session where no principal or payment is negative and every new
    loan id is fresh, every loan owes between nothing and its total, a Paid loan
    owes nothing, and no two loans share an id.
- `Terms` (terms.dfy) holds the rate table and the rounded-up daily installment,
  shared by loan creation, refinancing, the simulator and the invoices.
- `Utils` (utils.dfy) holds days overdue, the credit score with its tiers, and
  the CSV text of a table export.
- One module per screen:
  - `LoansView`, `ReportsView`, `CollectionView`, `PayrollView`, `AttendanceView`,
    `LedgerView`, `DashboardView`, `IntelligenceView`, `RankingView`,
    `MasterListView`, `PastDueView` and `InvestorsView`.
  - Each models the screen's projections and form checks, and proves what they
    show against the engine's actions.
- `Views`, `Lists` and `Strings` hold the shared filters, folds, a stable
  sort, and string search and splitting.

Modelling conventions:

- Money is `real`, so it is exact.
- A loan's origination date is a day number, so `today` is an `int`. Ledger
  and attendance dates stay `"YYYY-MM-DD"` strings, and month filters are prefixes.
- A number typed into a form is an `Option<real>`. `None` stands for what
  `parseFloat` gives on text that is not a number. The Pay box on the
  collection sheet is the exception; "## Left out" says why.
- The clock is a `Clock` value: `today`, `day` and `now`.
- The ids an action draws from `genId()` are `gen(0)`, `gen(1)` and so on.
- A `confirm` dialog's answer is a `bool` parameter.

## Model

| member | source | states |
|---|---|---|
| DataStore.DefaultDb | hooks/useData.ts:17-27 | a fresh database holds only the administrator account (id 1, area HQ) and empty collections |
| DataStore.Add | hooks/useData.ts:140-141 | `add` puts the item in front, so the old list is a suffix of the new one |
| DataStore.UpdateByIdAt | hooks/useData.ts:142-143 | `update` keeps length and positions, merges into exactly the items with the id and leaves every other item as it was |
| DataStore.DeleteById | hooks/useData.ts:144-145 | `delete` leaves no item with the id, keeps every other item and adds nothing |
| DataStore.AbsentIdUnchanged | hooks/useData.ts:142-145 | updating or deleting an id that is not in the list leaves it unchanged |
| DataStore.DeleteKeepsOrder | hooks/useData.ts:144-145 | the survivors of a delete keep their relative order |
| DataStore.Entry | hooks/useData.ts:166-175 | a ledger entry is booked on the override date, or on today's date when there is none, with the given type, description, amount, user and category |
| DataStore.AddLedgerStep | hooks/useData.ts:165-177 | `addLedger` puts exactly that entry in front of the ledger |
| DataStore.LogStep | hooks/useData.ts:154-163 | `logAction` puts one audit record, stamped with the clock, in front of the audit trail |
| DataStore.CashPrepend | hooks/useData.ts:140-141 | an entry added in front moves the ledger's cash by its signed amount |
| DataStore.FeeWrites | hooks/useData.ts:204-209 | only a fee that is above 0 is booked, as a Fee Collection; nothing below changes; cash rises by the positive fees |
| DataStore.NewLoan | hooks/useData.ts:185-199 | a new loan is Active, owes its whole total, is priced by the rate table, dated today, and has collateral 'Unsecured' when the field is blank |
| DataStore.CreateLoanEffect | hooks/useData.ts:184-212 | of `CreateLoanStep`: `createLoan` puts one new loan in front and adds one audit record; collectors, investors, attendance and payroll do not change |
| DataStore.CreateLoanLedgerEffect | hooks/useData.ts:201-209 | the ledger receives one Disbursement of minus the principal, with the positive fees above it and the old ledger below; cash moves by the fees less the principal |
| DataStore.PaymentApplied | hooks/useData.ts:257-264 | the payment is capped at balance + 0.5; a remainder of 0.5 or less is snapped to 0 and marked Paid, otherwise it is kept with the status unchanged; the balance is never negative, and a non-negative payment never raises it |
| DataStore.PaymentExamples | hooks/useData.ts:257-264 | paying 100, 99.6 or 500 on a balance of 100 settles it; paying 40 leaves 60 Active |
| DataStore.NegativePaymentReopensPaidLoan | hooks/useData.ts:257-264 | a negative amount raises the balance again but leaves the loan marked Paid |
| DataStore.ProcessPaymentEffect | hooks/useData.ts:253-268 | of `ProcessPaymentStep`: an unknown id changes nothing; otherwise every loan with the id is settled, the others are untouched, and one Collection of the full requested amount goes in front of the ledger |
| DataStore.OverpaymentBookedInFull | hooks/useData.ts:257-267 | paying 500 on a balance of 100 clears the loan, yet cash rises by 500 |
| DataStore.Successor | hooks/useData.ts:220-241 | the successor loan is Active and owes its full total, is priced by the rate table, and copies name, area, address, cell number and collateral from the old loan |
| DataStore.RefinanceBookings | hooks/useData.ts:244-248 | a refinance's bookings touch only the ledger |
| DataStore.RefinanceLoansEffect | hooks/useData.ts:214-242 | of `RefinanceStep`: an unknown id changes nothing; otherwise the old loan ends Paid with balance 0 and the successor goes in front, and every other loan is untouched |
| DataStore.RefinanceLoansAt | hooks/useData.ts:218-242 | closing the old id and adding the successor changes each loan by position exactly so, and leaves the ledger alone |
| DataStore.RefinanceLedgerEffect | hooks/useData.ts:244-248 | in writing order, the ledger receives the old balance as a Collection, then minus the new principal as a Disbursement, then the positive fees; nothing below changes; cash moves by their net |
| DataStore.RefinanceBookingsEffect | hooks/useData.ts:244-248 | the same order and cash movement, for the bookings on their own |
| DataStore.DeleteLoanEffect | hooks/useData.ts:270-276 | of `DeleteLoanStep`: an unknown id changes nothing; otherwise no loan with the id is left, every other loan survives in order, and the ledger is untouched |
| DataStore.UpdateCollectorEffect | hooks/useData.ts:278-286 | of `UpdateCollectorStep`: the collector is on file as given, other ids are untouched, and the list grows by one only when the id was new |
| DataStore.DeleteCollectorKeepsOthers | hooks/useData.ts:288-298 | of `DeleteCollectorStep`: every account with another id survives, and the administrator (id 1) always does |
| DataStore.DeleteCollectorRemoves | hooks/useData.ts:293-297 | deleting any id but the administrator's leaves no collector with that id |
| DataStore.MarkAttendanceEffect | hooks/useData.ts:300-307 | of `MarkAttendanceStep`: when a mark with an id already exists for (date, employee), only its status changes, in place; otherwise exactly one record is added in front |
| DataStore.FindMarkAfterUpdate | hooks/useData.ts:301-303 | after the in-place update, the first record for the day and employee is the same record with the new status |
| DataStore.MarkAttendanceThenFind | hooks/useData.ts:300-307 | after marking, the day's record for the employee carries the new status |
| DataStore.MarkAttendanceKeepsKeysUnique | hooks/useData.ts:300-307 | while every record has an id, marking never creates a second record for one (date, employee) |
| DataStore.PayrollWritesEffect | hooks/useData.ts:309-313 | the payroll loop puts one salary entry per record in front of the ledger, and changes neither loans nor collectors |
| DataStore.PayrollWritesRecords | hooks/useData.ts:310-311 | the records are put in front in reverse order, one per record |
| DataStore.SalaryEntriesAt | hooks/useData.ts:312 | each record gets one Payroll entry of minus its net pay |
| DataStore.SalaryEntriesCash | hooks/useData.ts:312 | a payroll run takes out exactly the sum of the net pays |
| DataStore.AddInvestorEffect | hooks/useData.ts:317-321 | of `AddInvestorStep`: the investor goes in front, and the capital comes in as one Capital entry that raises cash by that amount |
| DataStore.PayDividendEffect | hooks/useData.ts:323-330 | of `PayDividendStep`: an unknown id changes nothing; otherwise each investor with the id has its payouts raised by the amount, and one Dividend of minus the amount is booked |
| DataStore.PayInvestorEffect | hooks/useData.ts:326-328 | the writes of a known investor's dividend, position by position |
| DataStore.PayDividendThenFind | hooks/useData.ts:323-330 | afterwards the investor shows payouts raised by exactly the amount |
| DataStore.FindInvestorAfterUpdate | hooks/useData.ts:324-326 | an id-preserving merge into an id is what the next lookup of that id finds |
| DataStore.AddCapitalEffect | hooks/useData.ts:179-182 | of `AddCapitalStep`: `addCapital` puts one Capital entry of the amount in front, raises cash by it, and adds one audit record |
| DataStore.ImportRoundTrip | hooks/useData.ts:363-375 | of `ImportStep`: restoring a full backup reproduces the database, whatever was loaded before; a backup without collectors falls back to the administrator account |
| DataStore.ImportRewritesHistory | hooks/useData.ts:363-375 | `importData` replaces the ledger: restoring a backup with no entries over a database with entries leaves the old ledger no suffix of the new one |
| DataStore.StepOnlyPrepends | hooks/useData.ts:140-141 | of `Step`: no action of `Action` (every action but `importData`) rewrites history: the old ledger and audit trail are suffixes of the new ones |
| DataStore.CreateLoanOnlyPrepends | hooks/useData.ts:201-211 | `createLoan` only prepends to the ledger and the audit trail |
| DataStore.RefinanceOnlyPrepends | hooks/useData.ts:242-250 | `refinanceLoan` only prepends to the ledger and the audit trail |
| DataStore.PaymentOnlyPrepends | hooks/useData.ts:266-267 | `processPayment` only prepends to the ledger |
| DataStore.PayrollOnlyPrepends | hooks/useData.ts:309-315 | of `ProcessPayrollStep`: `processPayroll` only prepends to the ledger and the audit trail |
| DataStore.RunOnlyPrepends | hooks/useData.ts:136-148 | over any session of actions without `importData`, the ledger and the audit trail only grow at the front |
| DataStore.CreateLoanKeepsLoansSound | hooks/useData.ts:189-199 | a new loan with a non-negative principal and a fresh id owes its whole total, so every loan still owes between 0 and its total, Paid loans owe 0, and ids stay distinct |
| DataStore.RefinanceKeepsLoansSound | hooks/useData.ts:218-242 | refinancing with a non-negative principal and a fresh id keeps every loan sound (the old one closes at 0) and ids distinct |
| DataStore.PaymentKeepsLoansSound | hooks/useData.ts:257-266 | with distinct ids, a non-negative payment only lowers the settled loan's balance or clears it, so every loan stays between 0 and its total, with Paid loans at 0 |
| DataStore.DeleteLoanKeepsLoansSound | hooks/useData.ts:270-276 | deleting keeps every remaining loan sound and their ids distinct |
| DataStore.DeleteLoanSurvivor | hooks/useData.ts:273 | every loan left after a delete was there before |
| DataStore.DuplicateIdPaymentExceedsTotal | hooks/useData.ts:253-264 | when two loans share an id, a payment gives the second one the first one's balance, and it then owes 100 on a total of 10 |
| DataStore.StepKeepsLoansSound | hooks/useData.ts:184-330 | every action of `Action` (all but `importData`) with non-negative amounts whose new loan id is fresh keeps every loan owing between 0 and its total, Paid loans at 0, and loan ids distinct |
| DataStore.RunKeepsLoansSound | hooks/useData.ts:184-330 | over any session without `importData`, with non-negative principals and payments and fresh loan ids, no loan owes less than 0 or more than its total, no Paid loan owes anything, and no two loans share an id |
| DataStore.Store.constructor | hooks/useData.ts:30 | the store starts from the default database |
| DataStore.Store.AddLedger | hooks/useData.ts:165-177 | the store's new state is `addLedger` applied to the old |
| DataStore.Store.LogAction | hooks/useData.ts:154-163 | the new state is `logAction` applied to the old |
| DataStore.Store.AddCapital | hooks/useData.ts:179-182 | the new state is `addCapital` applied to the old |
| DataStore.Store.WriteFees | hooks/useData.ts:204-209 | the two conditional fee writes |
| DataStore.Store.CreateLoan | hooks/useData.ts:184-212 | the loan write, the disbursement, the fees and the log, in that order |
| DataStore.Store.RefinanceLoan | hooks/useData.ts:214-251 | the lookup, then closing the old loan, adding the successor, the bookings and the log |
| DataStore.Store.ReplaceLoan | hooks/useData.ts:218-242 | close the old loan and add its successor |
| DataStore.Store.BookRefinance | hooks/useData.ts:244-248 | the payoff, the new disbursement and the fees |
| DataStore.Store.ProcessPayment | hooks/useData.ts:253-268 | the lookup, then the settlement and the Collection entry |
| DataStore.Store.DeleteLoan | hooks/useData.ts:270-276 | the delete and its log, only for a known id |
| DataStore.Store.UpdateCollector | hooks/useData.ts:278-286 | an update for a known id, an add otherwise, then the log |
| DataStore.Store.DeleteCollector | hooks/useData.ts:288-298 | refuses id 1, otherwise deletes a known id and logs it |
| DataStore.Store.MarkAttendance | hooks/useData.ts:300-307 | the upsert on (date, employee) |
| DataStore.Store.ProcessPayroll | hooks/useData.ts:309-315 | the `forEach` storing each record and its salary entry, then one log |
| DataStore.Store.AddInvestor | hooks/useData.ts:317-321 | store the investor, book the capital, log |
| DataStore.Store.PayDividend | hooks/useData.ts:323-330 | for a known investor, raise the payouts, book the dividend and log |
| DataStore.Store.ImportData | hooks/useData.ts:363-375 | the default database overlaid with what the backup holds |
| Terms.Rate | hooks/useData.ts:185 | the rate is 10%, 5% or 20% |
| Terms.Ceil | hooks/useData.ts:187 | `Math.ceil`: the least integer not below x |
| Terms.QuoteFor | hooks/useData.ts:185-187 | rate 0.10 for 40 days, 0.05 for 30, 0.20 otherwise; total = principal + principal × rate; daily = the total over the term, rounded up |
| Terms.TotalIsScaledPrincipal | hooks/useData.ts:186 | interest is flat: the total is the principal times one plus the rate |
| Terms.DailyCoversTotal | hooks/useData.ts:187 | paying the daily installment every day of the term covers the total, and one less a day would not |
| Terms.QuoteExamples | hooks/useData.ts:185-187 | 1000 over 60, 40 and 30 days gives 1200 at 20, 1100 at 28 and 1050 at 35 a day |
| Utils.OverdueDays | utils.ts:15-29 | 0 for a loan that is not Active; 0 up to the due day; otherwise today less the due day |
| Utils.IsOverdueIff | utils.ts:31-33 | overdue exactly when Active and past the due day: not on the due day, one day late the day after |
| Utils.OverdueDaysMonotone | utils.ts:15-33 | days late never fall as time passes, and grow by one a day once overdue |
| Utils.LabelFor | utils.ts:59-71 | Elite from 90, Good from 70, Fair from 50, Risk below; a score that is not a number is Risk |
| Utils.LabelMonotone | utils.ts:59-71 | a higher score never gets a lower tier |
| Utils.PaymentCountPrepend | utils.ts:52 | one more entry adds a payment exactly when it is a Collection whose description contains the borrower's name |
| Utils.EmbeddedNameCounts | utils.ts:52 | any Collection that embeds the name counts, fee and refinance entries included |
| Utils.Round | utils.ts:57 | `Math.round`: the nearest integer, halves up |
| Utils.Clamp | utils.ts:57 | the score is kept within 0 to 100, and one already in range is unchanged |
| Utils.CreditScore | utils.ts:35-74 | the score is base 70, plus 20 × the share repaid, less 2 a day late or plus 5 when current, plus 5 past 5 payments and 5 more past 10, rounded and clamped to 0 to 100; with a zero total the score is 0 when something is owed, 100 when the balance is negative, and not a number when both are 0; the tier is that score's label |
| Utils.FreshLoanScores75 | utils.ts:37-54 | a new, current loan with no payments scores 75 (Good) |
| Utils.PaidOffLoanScores100 | utils.ts:37-57 | a paid-off, current loan with more than 10 payments reaches 105 and is capped at 100 (Elite) |
| Utils.RoundMonotone | utils.ts:57 | rounding keeps order |
| Utils.ScoreMonotoneInPayments | utils.ts:51-54 | more recorded payments never lower the score |
| Utils.ScoreMonotoneInTime | utils.ts:43-49 | time passing never raises the score |
| Utils.UnescapeEscape | utils.ts:79 | doubling the quotes loses nothing: reading the field back gives the original text |
| Utils.EscapedQuotesPaired | utils.ts:79 | no lone double quote survives escaping |
| Utils.QuoteField | utils.ts:79 | a field is wrapped in double quotes, and its inside reads back as the original text |
| Utils.CsvLine | utils.ts:79 | every row line ends with a newline |
| Utils.CsvBodySnoc | utils.ts:78-80 | one more row adds exactly its line at the end |
| Utils.BuildCsv | utils.ts:76-80 | the loop's text is the header line, then one line per row in order |
| LoansView.Simulate | components/Loans.tsx:48-58 | the architect prices exactly as `createLoan` does; the net proceeds are the principal less the fees, and the fees never enter the total |
| LoansView.CreateRequest | components/Loans.tsx:60-68 | refused exactly when the name or area is empty or the principal is 0 or unparsable; otherwise the payload carries the form's fields, with blank collateral becoming 'Unsecured' |
| LoansView.NegativePrincipalAccepted | components/Loans.tsx:61 | a negative principal passes the check |
| LoansView.InvoiceMatchesStoredLoan | components/Loans.tsx:63-80 | the invoice's total and daily installment are those of the loan the engine stores |
| LoansView.Areas | components/Loans.tsx:37 | every non-empty collector area other than 'HQ' appears once, and nothing else does |
| LoansView.Portfolio | components/Loans.tsx:39-45 | exactly the Active loans, limited to the area unless 'All', in list order |
| LoansView.ExportRow | components/Loans.tsx:90-94 | an export row has one cell per header, and the cell under each header is that header's field of the loan |
| ReportsView.NameOrderIsTotal | components/Reports.tsx:29 | the name comparison is a total preorder |
| ReportsView.ReportList | components/Reports.tsx:29 | the report lists every loan once, sorted by name |
| ReportsView.ReportTotals | components/Reports.tsx:31-36 | the footer sums totals, amounts paid and balances |
| ReportsView.LoanedIsPaidPlusOutstanding | components/Reports.tsx:31-36 | loaned = paid + outstanding, and sorting does not change the footer |
| ReportsView.FirstPaymentEnablesRenew | components/Reports.tsx:174 | a fresh loan cannot be renewed, and any first payment of real money makes it renewable |
| ReportsView.HandleRefinance | components/Reports.tsx:47-62 | refused without a selected loan, for a principal that is unparsable or not above 0, and for one below the old balance unless confirmed; otherwise the admin's request carries the form's figures |
| ReportsView.RefinanceInvoice | components/Reports.tsx:64-86 | the invoice prices by the engine's rate table; net cash = new principal − old balance − fees, and may be negative |
| ReportsView.PreviewNetCash | components/Reports.tsx:94-102 | 0 with no loan selected; otherwise, for any term, the invoice's net cash for the typed principal and fees, with a field that is not a number read as 0 |
| ReportsView.InvoiceMatchesRefinance | components/Reports.tsx:62-70 | the successor is priced as the invoice says; with non-negative fees, the invoice's net cash is exactly what leaves the ledger |
| ReportsView.CollateralRegistry | components/Reports.tsx:206 | exactly the loans whose collateral is set and not 'Unsecured', in report (name) order |
| ReportsView.Holding | components/Reports.tsx:212 | 'Held' exactly for Active loans |
| ReportsView.BlankCollateralNotRegistered | components/Reports.tsx:206 | a loan created with blank collateral never shows in the registry |
| CollectionView.FilteredLoans | components/Collection.tsx:106-118 | exactly the Active loans of the area unless 'All', whose name contains the search text ignoring case unless the search is empty, in list order |
| CollectionView.PastDueLoans | components/Collection.tsx:120-123 | empty for the administrator; for a collector, exactly the overdue loans of the sheet, most days late first |
| CollectionView.TargetQuota | components/Collection.tsx:130 | a collector's own quota; for the administrator, the quota of the first collector (by list position) whose area is the chosen one, and 0 when there is none |
| CollectionView.AdminCollectedAlwaysZero | components/Collection.tsx:132-146 | as written (`CollectedAsWritten`), the administrator's collected figure is 0 for every ledger |
| CollectionView.AdminCollectedCounterexample | components/Collection.tsx:133 | a payment of 250 for the listed loan shows 0 as written and 250 as intended |
| CollectionView.CollectorCollectedAsIntended | components/Collection.tsx:132-146 | for a collector, the figure as written (`CollectedAsWritten`) equals the intended one (`Collected`): the sum of their own Collection entries on the date |
| CollectionView.CollectorFiltersAgree | components/Collection.tsx:133-144 | for a collector, the two filters as written keep exactly the intended entries |
| CollectionView.PaymentRaisesCollected | components/Collection.tsx:132-146 | a payment booked on the panel's date raises the intended figure (`Collected`) by its amount |
| CollectionView.DailyStats | components/Collection.tsx:125-156 | no panel exactly when the administrator views all areas; otherwise the collected figure, the quota, and the number of sheet loans with no payment that day (never more than the sheet) |
| CollectionView.PayClick | components/Collection.tsx:74-82 | Pay acts unless the row is paid and the date is today; a date other than today needs confirming; a compact row pays the daily installment |
| CollectionView.PayThenPaid | components/Collection.tsx:76-82 | once paid, the row counts as paid for that date and, for today, its button is disabled |
| CollectionView.PaidStaysPaid | components/Collection.tsx:158-160 | a row paid on a date stays paid whatever is booked later |
| PayrollView.IsProcessedIff | components/Payroll.tsx:18-22 | the month counts as processed exactly when some record carries it |
| PayrollView.Preview | components/Payroll.tsx:25-48 | one line per employee: the Present days of the month, gross = days × daily rate, no deductions, net = gross |
| PayrollView.PresentMarkAddsADay | components/Payroll.tsx:28-38 | a first Present mark on a day of the month adds one day and one daily rate to the line |
| PayrollView.OneMoreDay | components/Payroll.tsx:35-38 | one more day raises net pay by one daily rate |
| PayrollView.MarkPrepends | hooks/useData.ts:301-306 | a first mark of the day for the employee is a new record put in front |
| PayrollView.FirstMarkCounted | components/Payroll.tsx:28-34 | a Present mark of the month adds one to the count |
| PayrollView.BuildRecords | components/Payroll.tsx:54-66 | one record per preview line, in order, with the month, status Paid and the line's figures; the records' net pays sum to the total payout |
| PayrollView.HandleProcess | components/Payroll.tsx:52-99 | records go out exactly when the month is not yet processed, the total is not 0 and the user confirms |
| PayrollView.ProcessingPaysPreview | components/Payroll.tsx:50-68 | processing takes exactly the previewed total out of cash, and the month then counts as processed |
| AttendanceView.GetStatus | components/AttendanceTracker.tsx:16-19 | none exactly when no record matches the day and employee; otherwise the status of the first such record |
| AttendanceView.ButtonShowsItsStatus | components/AttendanceTracker.tsx:104-122 | after a button is pressed, the row shows exactly that button's status |
| AttendanceView.Stats | components/AttendanceTracker.tsx:21-28 | present, absent and rest count the day's records with each status; together they are the day's record count, and with pending the four sum to the staff count |
| AttendanceView.StatusesPartition | components/AttendanceTracker.tsx:23-25 | every record has exactly one of the three statuses |
| AttendanceView.PendingCanBeNegative | components/AttendanceTracker.tsx:26 | a mark left by a deleted employee makes pending negative |
| LedgerView.FilteredTx | components/Ledger.tsx:22-31 | an exact type match unless 'All', a month prefix unless empty, in ledger order |
| LedgerView.TwoFiltersAreShown | components/Ledger.tsx:23-30 | the two successive filters keep what one combined filter keeps |
| LedgerView.Totals | components/Ledger.tsx:33-39 | inflow sums the positive amounts and outflow the sizes of the others; both are non-negative |
| LedgerView.NetOfTotals | components/Ledger.tsx:33-39 | inflow less outflow is the net of the shown entries |
| LedgerView.AddExpense | components/Ledger.tsx:41-45 | refused exactly for an empty description or an amount that is unparsable or not above 0; otherwise minus the amount, booked by 'Admin' today under the category |
| LedgerView.ExpenseRecorded | components/Ledger.tsx:45 | an accepted expense is the newest entry and lowers cash by the amount typed |
| DashboardView.Source | components/Dashboard.tsx:20 | every entry for the administrator, otherwise exactly the viewer's own |
| DashboardView.LedgerFigures | components/Dashboard.tsx:17-25 | the loop's money in, money out and the month's collections are the corresponding sums |
| DashboardView.DashboardStats | components/Dashboard.tsx:16-53 | liquidity is money in less money out, the net of the source; income, active count, past-due count, portfolio and client count are the stated filters and sums; the day figures are 0 for the administrator |
| DashboardView.RecentActivity | components/Dashboard.tsx:55-59 | the first five source entries, or all of them when there are fewer: a prefix of the source of length min(5, n) |
| DashboardView.NewestEntryFirst | components/Dashboard.tsx:55-59 | a new entry the viewer may see heads the recent activity, followed by what was there before |
| IntelligenceView.Analyse | components/Intelligence.tsx:11-22 | collected is the signed sum of Collection entries; disbursed, expenses and dividends are the sums of the sizes of their entries, so never negative; net profit = collected − disbursed − expenses − dividends; the portfolio is what Active loans owe |
| IntelligenceView.AbsSumNonNegative | components/Intelligence.tsx:13-15 | a sum of sizes is never negative |
| IntelligenceView.RoiBase | components/Intelligence.tsx:82 | the denominator is never 0, falling back to 1 |
| IntelligenceView.NetProfitIsCashLessCapitalAndPayroll | components/Intelligence.tsx:12-16 | with outflows booked as negative, net profit is the ledger's cash less capital and salaries |
| IntelligenceView.CapitalAndPayrollDoNotCount | components/Intelligence.tsx:16 | Capital and Payroll entries leave net profit unchanged |
| IntelligenceView.CapitalInjectionLeavesProfit | components/Intelligence.tsx:16 | injecting capital raises cash but not net profit |
| IntelligenceView.PortfolioIsAllBalances | components/Intelligence.tsx:19 | when Paid loans owe nothing, the portfolio is everything owed |
| RankingView.PeriodsPartitionYear | components/Ranking.tsx:12-19 | the six periods are the twelve months, two consecutive ones each, in order |
| RankingView.MonthsDistinct | components/Ranking.tsx:12-19 | no month is listed twice |
| RankingView.DefaultPeriod | components/Ranking.tsx:21-23 | the period that holds the current month, or the first when none does |
| RankingView.RowCountsCoverArea | components/Ranking.tsx:43-57 | of `RowFor`: paid plus missed is the number of Active loans in the collector's area |
| RankingView.BuildRow | components/Ranking.tsx:31-66 | the loop's row is `RowFor`: the period sum, today's sum and the two counts of the `forEach` |
| RankingView.MoreCollectedIsTotalPreorder | components/Ranking.tsx:67 | the comparator is a total preorder |
| RankingView.RowsFor | components/Ranking.tsx:31 | one row per collector, in order |
| RankingView.BuildRows | components/Ranking.tsx:31-66 | the `map` over the collectors |
| RankingView.RowsBelongToCollectors | components/Ranking.tsx:31 | each row belongs to a listed collector |
| RankingView.Rankings | components/Ranking.tsx:26-67 | exactly one row per collector other than the administrator, ranked by period collections, most first |
| RankingView.DateParts | components/Ranking.tsx:35-37 | a "YYYY-MM-DD" date splits into its year, month and day |
| RankingView.PaymentCountsTowardsPeriod | components/Ranking.tsx:33-40 | a payment the collector books in the selected year and period raises their total by its amount |
| MasterListView.LoansToPrint | components/MasterList.tsx:20-30 | Active loans and Paid loans still owing; only overdue ones under 'PastDue'; only the filtered area unless 'All', in list order |
| MasterListView.TargetCollectors | components/MasterList.tsx:15-28 | every account but the administrator's, in the filtered area unless 'All' |
| MasterListView.GroupedPush | components/MasterList.tsx:34-36 | pushing a loan onto its area's list keeps the grouping exact |
| MasterListView.GroupByArea | components/MasterList.tsx:33-37 | each area with a loan maps to its loans in list order, and no other area has a key |
| MasterListView.RouteOrderIsTotal | components/MasterList.tsx:42-48 | overdue first, then by name, is a total preorder |
| MasterListView.GroupFor | components/MasterList.tsx:39-49 | a sheet holds exactly its area's loans, overdue first and then by name, with their balances summed |
| MasterListView.GroupsSound | components/MasterList.tsx:50 | every sheet in `Groups` is a non-empty sheet (`GroupFor`) of a target collector |
| MasterListView.GroupsComplete | components/MasterList.tsx:39-50 | every target collector whose area has a loan to print gets a sheet in `Groups` |
| MasterListView.PrintableData | components/MasterList.tsx:19-52 | grouping, then one sorted sheet per target collector with empty sheets dropped |
| MasterListView.GroupForMembers | components/MasterList.tsx:40 | a loan is on a sheet exactly when it is to be printed and in the sheet's area |
| MasterListView.SheetsHoldTheirAreasLoans | components/MasterList.tsx:15-50 | a sheet's collector is never the administrator; it holds exactly the candidate loans of its area that pass the filters, overdue first, with their total |
| PastDueView.OverdueLoans | components/PastDue.tsx:11-31 | exactly the Active loans past their due day, most days late first, each at least a day late; the count is the list's length |
| PastDueView.OverdueListOnlyGrows | components/PastDue.tsx:11-15 | a loan on today's list is on tomorrow's, one day later |
| PastDueView.DueTodayJoinsTomorrow | components/PastDue.tsx:11-15 | an Active loan due today is not on today's list and is on tomorrow's, one day late |
| InvestorsView.AddRequest | components/Investors.tsx:22-33 | refused exactly for an empty name or a capital of 0 or unparsable; otherwise a new investor joining today with no payouts |
| InvestorsView.NegativeCapitalAccepted | components/Investors.tsx:24 | a negative capital passes the check |
| InvestorsView.AddedInvestorRecorded | components/Investors.tsx:35 | an accepted investor heads the list with no payouts, and the capital is booked in |
| InvestorsView.Payout | components/Investors.tsx:41 | the payout is the capital times the rate read as a percentage |
| InvestorsView.RateIsAPercentage | components/Investors.tsx:41 | a rate of 5 pays 5%; the 0.05 reading of the type's comment pays a hundredth of that |
| InvestorsView.HandlePay | components/Investors.tsx:40-45 | a dividend call with the investor's id and payout goes out exactly when confirmed |
| InvestorsView.PaymentRecorded | components/Investors.tsx:42-43 | paying any amount to a known investor raises that investor's payouts by it and takes it out of cash |
| InvestorsView.ConfirmedPayoutRecorded | components/Investors.tsx:42-43 | a confirmed payout raises the investor's payouts by the payout and takes it out of cash |
| Views.Staff | components/Ranking.tsx:26 | every account but the administrator's, in order; the payroll employees and the tracked staff of the attendance screen are this list |
| Views.ActiveIn | components/Loans.tsx:39-45 | exactly the Active loans of the area unless 'All', in list order |
| Views.Absentees | components/Collection.tsx:148-152 | exactly the loans with no Collection naming them on the date |
| Views.Attendees | components/Ranking.tsx:53-56 | exactly the loans with such a Collection |
| Views.PresentPlusAbsent | components/Ranking.tsx:53-57 | each loan is paid or missed on a date, never both |
| Views.CountAbsent | components/Collection.tsx:148-152 | the `forEach` counts the loans with no payment that day |
| Views.CountPresentAbsent | components/Ranking.tsx:51-57 | the `forEach` counts paid and missed loans |
| Views.ByLateness | components/PastDue.tsx:14 | the list keeps everyone, most days late first |

## Left out

- Cloud mode is not modelled: Firebase and Firestore subscriptions and writes, `uploadLocalToCloud` and the configuration save and disconnect. This is network I/O through library code.
- localStorage, `loadLocal` and `hardReset` are browser I/O and are not modelled.
- `importData`'s JSON parsing is left out. `ImportStep` takes the already-parsed backup; `None` stands for an unreadable file, which changes nothing.
- The actions read a possibly stale `db` captured by the callback. Each action is modelled as one atomic step on the current database, so concurrent renders are not modelled.
- Investors.tsx and Ledger.tsx call `useData()` again, which gives them a second hook instance with its own state. Both are modelled as acting on the one store.
- `genId`, `getToday`, `new Date()` and `toLocaleString` come from the clock and randomness. They are parameters: `gen(k)` is the k-th id of an action, and `Clock` holds `today`, `day` and `now`.
- Ranking's year and the current ISO time are parameters.
- JavaScript `Date` arithmetic, time zones and DST are not modelled. Loan dates are integer day numbers.
- Floating point is not modelled; money is exact `real`.
  - NaN from `parseFloat` is `None` where a form reads a number.
  - `|| 0` is `OrZero`.
  - `dailyRate || 0` and `quota || 0` read the stored number as it is.
  - A NaN dividend rate is not modelled: `rate` is a parsed `real`.
- Display formatting is not modelled: `formatMoney`, `profitMargin`, percentage bars, the ROI's `toFixed`, and the chart placeholder data.
- `String(d)` on a number in the CSV export is the parameter `show`. The Blob and URL download is left out.
- Rendering, navigation and `alert` are not modelled.
- Tasks, Assets, Settings, AuditLogs, Layout, LoanContract, Legal and App are not part of this model.
- `addTask`, `updateTaskStatus`, `addAsset`, `updateAsset` and `deleteAsset` are not part of this model.
- RunKeepsLoansSound: holds only for sessions whose principals and payments are non-negative. The new-loan form accepts a negative principal (LoansView.NegativePrincipalAccepted), and the Pay box has no minimum, so the screens do not enforce this.
- RunKeepsLoansSound: also requires every id drawn for a new loan to be fresh. `genId` is random, and with a duplicate id a payment gives the second loan the first one's balance (DataStore.DuplicateIdPaymentExceedsTotal).
- StepKeepsLoansSound: the same two conditions, for one action.
- StepOnlyPrepends, RunOnlyPrepends, StepKeepsLoansSound and RunKeepsLoansSound: `Action` has no case for `importData`, so sessions exclude it. Restoring a backup replaces the ledger, the audit trail and the loans with whatever the backup holds (DataStore.ImportRewritesHistory), so neither the only-prepends property nor the loan invariant holds across an import.
- LoansView.Areas: the choices appear in first-occurrence order, as `[...new Set(...)]` keeps them; the contract states membership and distinctness but not that order.
- CollectionView.PayClick: the typed amount is a `real`. A cleared Pay box sends `parseFloat('')`, which is NaN, to `processPayment`. A NaN amount is not modelled, because the engine's arithmetic on it is floating point.
- Terms.QuoteFor, DataStore.NewLoan, DataStore.Successor and LoansView.Simulate require a term above 0. The source divides by the term, and a term of 0 gives an infinite daily installment, which is not modelled.
- DataStore.Store.CreateLoan and DataStore.Store.RefinanceLoan require a term above 0 for the same reason.
- Ids are strings, and loose `==` on ids is string equality. The administrator's numeric id 1 is the string "1".
- `localeCompare` is modelled as code-point order (`StrLe`).
- `toLowerCase` folds only ASCII letters.
- The sort is a stable insertion sort. MasterListView.GroupFor states no order among loans that tie on both overdue status and name.
- MasterList sorts each area's array in place, and that array is shared by collectors of the same area. The model sorts a copy. This gives the same sheets, because sorting an already sorted list changes nothing.
- RankingView.Rankings takes the months of the selected period instead of its index `selectedPeriodIdx`. RankingView.DefaultPeriod gives that index.
- Optional text fields that are absent (address, collateral, category, attendance id) are the empty string, which JavaScript also treats as falsy.
- CollectionView.DailyStats returns the collected figure as intended, not as written; the Findings table below explains why.

## Findings

| source | as written | input that shows it | evidently intended | confidence | as-written member | corrected member |
|---|---|---|---|---|---|---|
| components/Collection.tsx:133 | for the administrator, the first filter compares `t.desc` with `undefined`, so no entry passes and "collected" is always 0 | one Collection entry "Payment: Ana" of 250 on the panel's date, with Ana's loan on the route sheet | the administrator sees the sum of the date's Collection entries that name a listed loan (250) | high, not executed | CollectionView.AdminCollectedCounterexample | CollectionView.PaymentRaisesCollected |
