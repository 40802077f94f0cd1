/** Overdue status, the heuristic credit score and the CSV text of a table export. */
module Utils {
  import opened Types
  import opened Lists
  import opened Strings

  // ---- overdue ---------------------------------------------------------------

  /** The day the loan falls due: its origination day plus its term. */
  function DueDay(loan: Loan): int
  {
    loan.date + loan.term
  }

  /** Whole days past the due day; a loan that is not Active is never late. */
  function OverdueDays(loan: Loan, today: int): (d: nat)
    ensures loan.status != Active ==> d == 0
    ensures d == 0 <==> loan.status != Active || today <= DueDay(loan)
    ensures d > 0 ==> today == DueDay(loan) + d
  {
    if loan.status != Active then 0
    else
      var diff := today - DueDay(loan);
      if diff > 0 then diff else 0
  }

  predicate IsOverdue(loan: Loan, today: int)
  {
    OverdueDays(loan, today) > 0
  }

  /** Overdue exactly from the day after the due day, and only while Active. */
  lemma IsOverdueIff(loan: Loan, today: int)
    ensures IsOverdue(loan, today) <==> loan.status == Active && today > DueDay(loan)
    ensures loan.status == Active && today == DueDay(loan) ==> !IsOverdue(loan, today)
    ensures loan.status == Active && today == DueDay(loan) + 1 ==> OverdueDays(loan, today) == 1
  {
  }

  /** Lateness only grows with time: one more day adds one day late once overdue. */
  lemma OverdueDaysMonotone(loan: Loan, t1: int, t2: int)
    requires t1 <= t2
    ensures OverdueDays(loan, t1) <= OverdueDays(loan, t2)
    ensures IsOverdue(loan, t1) ==> OverdueDays(loan, t2) == OverdueDays(loan, t1) + (t2 - t1)
  {
  }

  // ---- credit score ----------------------------------------------------------

  datatype Label = Risk | Fair | Good | Elite

  /** Position of a label in the order Risk < Fair < Good < Elite. */
  function LabelRank(l: Label): nat
  {
    match l
    case Risk => 0
    case Fair => 1
    case Good => 2
    case Elite => 3
  }

  /** The label of a score; a score that is not a number (`None`) falls through to Risk. */
  function LabelFor(score: Option<int>): (l: Label)
    ensures score.None? ==> l == Risk
    ensures score.Some? ==> (l == Elite <==> score.value >= 90)
    ensures score.Some? ==> (l == Good <==> 70 <= score.value < 90)
    ensures score.Some? ==> (l == Fair <==> 50 <= score.value < 70)
  {
    match score
    case None => Risk
    case Some(s) =>
      if s >= 90 then Elite else if s >= 70 then Good else if s >= 50 then Fair else Risk
  }

  /** A higher score never gets a lower label. */
  lemma LabelMonotone(a: int, b: int)
    requires a <= b
    ensures LabelRank(LabelFor(Some(a))) <= LabelRank(LabelFor(Some(b)))
  {
  }

  predicate CountsAsPayment(loan: Loan, t: Transaction)
  {
    Contains(t.desc, loan.name) && t.txType == Collection
  }

  /** Payments on record: Collection entries whose description mentions the borrower's name. */
  function PaymentCount(loan: Loan, ledger: seq<Transaction>): nat
  {
    |Filter(ledger, t => CountsAsPayment(loan, t))|
  }

  /** One more ledger entry adds one payment exactly when it is a Collection naming the borrower. */
  lemma PaymentCountPrepend(loan: Loan, t: Transaction, ledger: seq<Transaction>)
    ensures PaymentCount(loan, [t] + ledger) == PaymentCount(loan, ledger) + (if CountsAsPayment(loan, t) then 1 else 0)
  {
    assert ([t] + ledger)[1..] == ledger;
  }

  /** The name join is a substring test, so any Collection whose description embeds
      the name counts: fee and refinance entries, and other borrowers whose name
      contains this one. */
  lemma EmbeddedNameCounts(loan: Loan, t: Transaction, pre: string, post: string, ledger: seq<Transaction>)
    requires t.txType == Collection && t.desc == pre + loan.name + post
    ensures PaymentCount(loan, [t] + ledger) == PaymentCount(loan, ledger) + 1
  {
    ContainsInfix(pre, loan.name, post);
    PaymentCountPrepend(loan, t, ledger);
  }

  /** `Math.round`: the nearest integer, halves rounded up. */
  function Round(x: real): (n: int)
    ensures n as real - 0.5 <= x < n as real + 0.5
  {
    (x + 0.5).Floor
  }

  /** `Math.min(100, Math.max(0, n))`. */
  function Clamp(n: int): (c: int)
    ensures 0 <= c <= 100
    ensures 0 <= n <= 100 ==> c == n
  {
    if n < 0 then 0 else if n > 100 then 100 else n
  }

  /** The score before rounding: base 70, up to 20 for repayment progress, -2 per
      day late or +5 for being current, +5 past 5 payments and +5 more past 10. */
  function RawScore(balance: real, total: real, daysLate: nat, payments: nat): real
    requires total != 0.0
  {
    70.0
    + (1.0 - balance / total) * 20.0
    + (if daysLate > 0 then -(2 * daysLate) as real else 5.0)
    + (if payments > 5 then 5.0 else 0.0)
    + (if payments > 10 then 5.0 else 0.0)
  }

  datatype Rating = Rating(score: Option<int>, tier: Label)

  /** The credit score of a loan. A zero total makes `balance / total` infinite
      (score pinned to 0 or 100) or not a number when the balance is zero too. */
  function CreditScore(loan: Loan, ledger: seq<Transaction>, today: int): (r: Rating)
    ensures r.score.Some? ==> 0 <= r.score.value <= 100
    ensures r.score.None? <==> loan.total == 0.0 && loan.balance == 0.0
    ensures loan.total != 0.0 ==>
      r.score == Some(Clamp(Round(RawScore(loan.balance, loan.total, OverdueDays(loan, today), PaymentCount(loan, ledger)))))
    ensures loan.total == 0.0 && loan.balance > 0.0 ==> r.score == Some(0)
    ensures loan.total == 0.0 && loan.balance < 0.0 ==> r.score == Some(100)
    ensures r.tier == LabelFor(r.score)
  {
    var daysLate := OverdueDays(loan, today);
    var payments := PaymentCount(loan, ledger);
    var score :=
      if loan.total != 0.0 then Some(Clamp(Round(RawScore(loan.balance, loan.total, daysLate, payments))))
      else if loan.balance > 0.0 then Some(0)
      else if loan.balance < 0.0 then Some(100)
      else None;
    Rating(score, LabelFor(score))
  }

  /** A new loan that is current and has no payments yet scores 70 + 0 + 5 = 75. */
  lemma FreshLoanScores75(loan: Loan, ledger: seq<Transaction>, today: int)
    requires loan.total != 0.0 && loan.balance == loan.total
    requires !IsOverdue(loan, today) && PaymentCount(loan, ledger) == 0
    ensures CreditScore(loan, ledger, today) == Rating(Some(75), Good)
  {
    assert loan.balance / loan.total == 1.0;
    assert RawScore(loan.balance, loan.total, 0, 0) == 75.0;
  }

  /** A paid-off, current loan with more than 10 payments reaches 105 before the cap and scores 100. */
  lemma PaidOffLoanScores100(loan: Loan, ledger: seq<Transaction>, today: int)
    requires loan.total != 0.0 && loan.balance == 0.0
    requires !IsOverdue(loan, today) && PaymentCount(loan, ledger) > 10
    ensures CreditScore(loan, ledger, today) == Rating(Some(100), Elite)
  {
    assert RawScore(loan.balance, loan.total, 0, PaymentCount(loan, ledger)) == 105.0;
  }

  lemma RoundMonotone(x: real, y: real)
    requires x <= y
    ensures Round(x) <= Round(y)
  {
  }

  /** More recorded payments never lower the score. */
  lemma ScoreMonotoneInPayments(loan: Loan, l1: seq<Transaction>, l2: seq<Transaction>, today: int)
    requires loan.total != 0.0
    requires PaymentCount(loan, l1) <= PaymentCount(loan, l2)
    ensures CreditScore(loan, l1, today).score.value <= CreditScore(loan, l2, today).score.value
  {
    var d := OverdueDays(loan, today);
    RoundMonotone(RawScore(loan.balance, loan.total, d, PaymentCount(loan, l1)),
                  RawScore(loan.balance, loan.total, d, PaymentCount(loan, l2)));
  }

  /** Time passing never raises the score: being late costs at least the +5 bonus. */
  lemma ScoreMonotoneInTime(loan: Loan, ledger: seq<Transaction>, t1: int, t2: int)
    requires loan.total != 0.0 && t1 <= t2
    ensures CreditScore(loan, ledger, t2).score.value <= CreditScore(loan, ledger, t1).score.value
  {
    var p := PaymentCount(loan, ledger);
    OverdueDaysMonotone(loan, t1, t2);
    RoundMonotone(RawScore(loan.balance, loan.total, OverdueDays(loan, t2), p),
                  RawScore(loan.balance, loan.total, OverdueDays(loan, t1), p));
  }

  // ---- CSV export --------------------------------------------------------------

  /** A table cell: text, or a number to be shown with JavaScript's `String(d)`. */
  datatype Cell = Text(s: string) | Num(x: real)

  function CellString(c: Cell, show: real -> string): string
  {
    match c
    case Text(s) => s
    case Num(x) => show(x)
  }

  /** `s.replace(/"/g, '""')`: every double quote doubled. */
  function EscapeQuotes(s: string): string
  {
    if s == [] then []
    else (if s[0] == '"' then "\"\"" else [s[0]]) + EscapeQuotes(s[1..])
  }

  /** The reading of an escaped field: a doubled quote stands for one quote. */
  function UnescapeQuotes(s: string): string
    decreases |s|
  {
    if s == [] then []
    else if |s| >= 2 && s[0] == '"' && s[1] == '"' then "\"" + UnescapeQuotes(s[2..])
    else [s[0]] + UnescapeQuotes(s[1..])
  }

  /** Escaping loses nothing: reading the escaped text gives the original back. */
  lemma {:induction false} UnescapeEscape(s: string)
    ensures UnescapeQuotes(EscapeQuotes(s)) == s
  {
    if s != [] {
      UnescapeEscape(s[1..]);
      var e := EscapeQuotes(s[1..]);
      if s[0] == '"' {
        assert EscapeQuotes(s) == "\"\"" + e;
        assert (EscapeQuotes(s))[2..] == e;
      } else {
        assert EscapeQuotes(s) == [s[0]] + e;
        assert (EscapeQuotes(s))[1..] == e;
      }
    }
  }

  /** No lone quote survives escaping: quotes come in adjacent pairs. */
  lemma {:induction false} EscapedQuotesPaired(s: string, i: nat)
    requires i < |EscapeQuotes(s)| && EscapeQuotes(s)[i] == '"'
    ensures (i + 1 < |EscapeQuotes(s)| && EscapeQuotes(s)[i + 1] == '"') || (i > 0 && EscapeQuotes(s)[i - 1] == '"')
  {
    var head := if s[0] == '"' then "\"\"" else [s[0]];
    assert EscapeQuotes(s) == head + EscapeQuotes(s[1..]);
    if i >= |head| {
      EscapedQuotesPaired(s[1..], i - |head|);
    }
  }

  /** One field: wrapped in double quotes, inner quotes doubled. */
  function QuoteField(text: string): (f: string)
    ensures |f| >= 2 && f[0] == '"' && f[|f| - 1] == '"'
    ensures UnescapeQuotes(f[1..|f| - 1]) == text
  {
    var f := "\"" + EscapeQuotes(text) + "\"";
    assert f[1..|f| - 1] == EscapeQuotes(text);
    UnescapeEscape(text);
    f
  }

  /** One data row: its quoted fields joined by commas, ended by a newline. */
  function CsvLine(row: seq<Cell>, show: real -> string): (line: string)
    ensures |line| > 0 && line[|line| - 1] == '\n'
  {
    Join(Map(row, (d: Cell) => QuoteField(CellString(d, show))), ",") + "\n"
  }

  /** The data rows' lines, in row order. */
  function CsvBody(rows: seq<seq<Cell>>, show: real -> string): string
  {
    if rows == [] then "" else CsvLine(rows[0], show) + CsvBody(rows[1..], show)
  }

  /** The whole file: the header names joined by commas (not quoted), a newline,
      then one line per row. */
  function CsvText(headers: seq<string>, rows: seq<seq<Cell>>, show: real -> string): string
  {
    Join(headers, ",") + "\n" + CsvBody(rows, show)
  }

  lemma {:induction false} CsvBodySnoc(rows: seq<seq<Cell>>, row: seq<Cell>, show: real -> string)
    ensures CsvBody(rows + [row], show) == CsvBody(rows, show) + CsvLine(row, show)
  {
    if rows == [] {
      assert [] + [row] == [row];
    } else {
      assert (rows + [row])[1..] == rows[1..] + [row];
      CsvBodySnoc(rows[1..], row, show);
    }
  }

  /** One more row of the loop adds its line to the body. */
  lemma CsvBodyStep(data: seq<seq<Cell>>, i: int, show: real -> string)
    requires 0 <= i < |data|
    ensures CsvBody(data[..i + 1], show) == CsvBody(data[..i], show) + CsvLine(data[i], show)
  {
    assert data[..i + 1] == data[..i] + [data[i]];
    CsvBodySnoc(data[..i], data[i], show);
  }

  /** The string-building loop of the table export. */
  method BuildCsv(data: seq<seq<Cell>>, headers: seq<string>, show: real -> string) returns (csv: string)
    ensures csv == CsvText(headers, data, show)
  {
    var body := "";
    var i := 0;
    while i < |data|
      invariant 0 <= i <= |data|
      invariant body == CsvBody(data[..i], show)
    {
      CsvBodyStep(data, i, show);
      body := body + CsvLine(data[i], show);
      i := i + 1;
    }
    assert data[..i] == data;
    csv := Join(headers, ",") + "\n" + body;
  }
}
