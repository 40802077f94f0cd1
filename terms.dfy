/** The loan terms calculator shared by loan creation, refinancing, the loan
    simulator and the refinance invoice: a flat three-tier rate table and a daily
    installment rounded up. */
module Terms {

  /** The rate table: 40 days at 10%, 30 days at 5%, any other term at 20%. */
  function Rate(term: int): (r: real)
    ensures r == 0.05 || r == 0.10 || r == 0.20
  {
    if term == 40 then 0.10 else if term == 30 then 0.05 else 0.20
  }

  /** `Math.ceil`. */
  function Ceil(x: real): (n: int)
    ensures x <= n as real < x + 1.0
  {
    -((-x).Floor)
  }

  datatype Quote = Quote(rate: real, interest: real, total: real, daily: int)

  /** The terms of a loan of `principal` over `term` days. */
  function QuoteFor(principal: real, term: int): (q: Quote)
    requires term > 0
    ensures q.rate == Rate(term)
    ensures q.interest == principal * q.rate
    ensures q.total == principal + q.interest
    ensures q.total / term as real <= q.daily as real < q.total / term as real + 1.0
  {
    var rate := Rate(term);
    var interest := principal * rate;
    var total := principal + interest;
    Quote(rate, interest, total, Ceil(total / term as real))
  }

  /** Interest is flat: the total payable is the principal scaled by one plus the rate. */
  lemma TotalIsScaledPrincipal(principal: real, term: int)
    requires term > 0
    ensures QuoteFor(principal, term).total == principal * (1.0 + Rate(term))
  {
  }

  /** The daily installment is the smallest whole amount that, paid every day of
      the term, covers the total: the loan cannot under-collect. */
  lemma DailyCoversTotal(principal: real, term: int)
    requires term > 0
    ensures QuoteFor(principal, term).daily as real * term as real >= QuoteFor(principal, term).total
    ensures (QuoteFor(principal, term).daily - 1) as real * term as real < QuoteFor(principal, term).total
  {
    var q := QuoteFor(principal, term);
    var t := term as real;
    var share := q.total / t;
    assert share * t == q.total;
    assert q.daily as real >= share;
    MultiplyMonotone(share, q.daily as real, t);
    assert (q.daily - 1) as real < share;
    MultiplyStrict((q.daily - 1) as real, share, t);
    assert (q.daily - 1) as real * t < q.total;
  }

  lemma MultiplyMonotone(a: real, b: real, t: real)
    requires a <= b && t > 0.0
    ensures a * t <= b * t
  {
    assert b * t - a * t == (b - a) * t;
  }

  lemma MultiplyStrict(a: real, b: real, t: real)
    requires a < b && t > 0.0
    ensures a * t < b * t
  {
    assert b * t - a * t == (b - a) * t;
  }

  /** The worked examples: 1000 over 60, 40 and 30 days. */
  lemma QuoteExamples()
    ensures QuoteFor(1000.0, 60) == Quote(0.20, 200.0, 1200.0, 20)
    ensures QuoteFor(1000.0, 40) == Quote(0.10, 100.0, 1100.0, 28)
    ensures QuoteFor(1000.0, 30) == Quote(0.05, 50.0, 1050.0, 35)
  {
    assert Ceil(1200.0 / 60.0) == 20;
    assert Ceil(1100.0 / 40.0) == 28;
    assert Ceil(1050.0 / 30.0) == 35;
  }
}
