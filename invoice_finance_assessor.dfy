/** The financing offer for one invoice: Services/InvoiceFinanceAssessor.cs.
    `DateTime.Today` is the parameter `today`; the `double` and `decimal`
    arithmetic is exact real arithmetic. */
module InvoiceFinanceAssessor {
  import opened Wrappers
  import opened Exceptions
  import opened InvoiceModel

  /** The share of the amount due that is advanced. */
  const AdvanceRate: real := 0.9

  /** The rate for an invoice due today, and the amount by which it falls
      over the whole term. */
  const MaximumRate: real := 5.0
  const RateSpread: real := 4.0

  /** `x` is a whole number of tenths. */
  predicate IsWholeTenths(x: real) {
    (x * 10.0).Floor as real == x * 10.0
  }

  function Abs(x: real): real {
    if x < 0.0 then -x else x
  }

  /** `decimal.Round(x, 1)`: to one decimal place, halves to the even tenth. */
  function RoundToTenths(x: real): (r: real)
    ensures IsWholeTenths(r)
    ensures Abs(r - x) <= 0.05
    ensures Abs(r - x) == 0.05 ==> (r * 10.0).Floor % 2 == 0
    ensures IsWholeTenths(x) ==> r == x
  {
    var scaled := x * 10.0;
    var whole := scaled.Floor;
    var fraction := scaled - whole as real;
    var nearest :=
      if fraction < 0.5 then whole
      else if fraction > 0.5 then whole + 1
      else if whole % 2 == 0 then whole
      else whole + 1;
    assert (nearest as real / 10.0) * 10.0 == nearest as real;
    nearest as real / 10.0
  }

  /** No tenth is closer to `x` than the rounded value. */
  lemma RoundToTenthsIsNearest(x: real, n: int)
    ensures Abs(RoundToTenths(x) - x) <= Abs(n as real / 10.0 - x)
  {
    var r := RoundToTenths(x);
    var k := (r * 10.0).Floor;
    assert r == k as real / 10.0;
    if n < k {
      assert n as real / 10.0 <= r - 0.1;
    } else if n > k {
      assert n as real / 10.0 >= r + 0.1;
    }
  }

  /** Rounding preserves order. */
  lemma RoundToTenthsMonotonic(x: real, y: real)
    requires x <= y
    ensures RoundToTenths(x) <= RoundToTenths(y)
  {
    var rx, ry := RoundToTenths(x), RoundToTenths(y);
    var kx, ky := (rx * 10.0).Floor, (ry * 10.0).Floor;
    assert rx == kx as real / 10.0 && ry == ky as real / 10.0;
    if kx > ky {
      assert false;
    }
  }

  /** The length of the invoice's term in days. */
  function Terms(invoice: Invoice): (days: int)
    ensures invoice.issueDate + days == invoice.dueDate
  {
    invoice.dueDate - invoice.issueDate
  }

  /** The days from today to the due date; negative once it has passed. */
  function DaysLeftToPay(invoice: Invoice, today: Date): (days: int)
    ensures today + days == invoice.dueDate
  {
    invoice.dueDate - today
  }

  /** The rate before rounding: 5 less 4 times the part of the term still to run. */
  function InterpolatedRate(invoice: Invoice, today: Date): (rate: real)
    requires Terms(invoice) != 0
    ensures rate * Terms(invoice) as real == MaximumRate * Terms(invoice) as real - RateSpread * DaysLeftToPay(invoice, today) as real
    ensures 0 <= DaysLeftToPay(invoice, today) <= Terms(invoice) ==> MaximumRate - RateSpread <= rate <= MaximumRate
  {
    MaximumRate - RateSpread * (DaysLeftToPay(invoice, today) as real / Terms(invoice) as real)
  }

  /** `AssessInvoice`. The decision copies the invoice's id, number and amount,
      offers 90% of the amount and charges the interpolated rate rounded to one
      decimal place. A zero term divides by zero in `double`, and converting
      the infinite or undefined quotient to `decimal` throws. */
  function AssessInvoice(invoice: Invoice, today: Date): (r: Result<InvoiceDecision, Exception>)
    ensures r.Failure? <==> invoice.dueDate == invoice.issueDate
    ensures r.Failure? ==> r.error == OverflowException
    ensures r.Success? ==>
      && r.value.invoiceId == invoice.id
      && r.value.invoiceNo == invoice.invoiceNumber
      && r.value.amountDue == invoice.amountDue
      && r.value.offerAmount == invoice.amountDue * AdvanceRate
    ensures r.Success? ==> r.value.rate == RoundToTenths(InterpolatedRate(invoice, today))
  {
    var terms := Terms(invoice);
    var daysLeftToPay := DaysLeftToPay(invoice, today);
    if terms == 0 then Failure(OverflowException)
    else
      var ratio := daysLeftToPay as real / terms as real;
      var rate := RoundToTenths(MaximumRate - RateSpread * ratio);
      Success(InvoiceDecision(invoice.id, invoice.invoiceNumber, invoice.amountDue, invoice.amountDue * AdvanceRate, rate))
  }

  /** With the whole term still to run the rate is 1; on the due date it is 5. */
  lemma RateAtEndsOfTerm(invoice: Invoice, today: Date)
    requires Terms(invoice) != 0
    ensures DaysLeftToPay(invoice, today) == Terms(invoice) ==> AssessInvoice(invoice, today).value.rate == 1.0
    ensures DaysLeftToPay(invoice, today) == 0 ==> AssessInvoice(invoice, today).value.rate == 5.0
  {
    var t := Terms(invoice) as real;
    if DaysLeftToPay(invoice, today) == Terms(invoice) {
      assert t / t == 1.0;
      assert InterpolatedRate(invoice, today) == 1.0;
      assert IsWholeTenths(1.0);
    }
    if DaysLeftToPay(invoice, today) == 0 {
      assert InterpolatedRate(invoice, today) == 5.0;
      assert IsWholeTenths(5.0);
    }
  }

  /** The rate is not clamped: an invoice issued after today has more days
      left than its term, and a rate below 1. */
  lemma RateNotClamped(invoice: Invoice, today: Date)
    requires invoice.issueDate == today + 10 && invoice.dueDate == today + 20
    ensures AssessInvoice(invoice, today).value.rate == -3.0
  {
    assert InterpolatedRate(invoice, today) == -3.0;
    assert IsWholeTenths(-3.0);
  }

  /** For a fixed positive term, more days left never raise the rate. */
  lemma RateFallsAsDaysRemain(invoice: Invoice, later: Invoice, today: Date)
    requires Terms(invoice) > 0 && Terms(later) == Terms(invoice)
    requires DaysLeftToPay(invoice, today) <= DaysLeftToPay(later, today)
    ensures AssessInvoice(later, today).value.rate <= AssessInvoice(invoice, today).value.rate
  {
    var t := Terms(invoice) as real;
    var d1, d2 := DaysLeftToPay(invoice, today) as real, DaysLeftToPay(later, today) as real;
    assert d1 / t <= d2 / t by {
      assert (d2 / t - d1 / t) * t == d2 - d1;
    }
    RoundToTenthsMonotonic(InterpolatedRate(later, today), InterpolatedRate(invoice, today));
  }

  /** The worked example: issued ten days ago, due in twenty, 200 due:
      180 is offered at 2.3. */
  lemma WorkedExample(invoice: Invoice, today: Date)
    requires invoice.issueDate == today - 10 && invoice.dueDate == today + 20 && invoice.amountDue == 200.0
    ensures AssessInvoice(invoice, today).value.offerAmount == 180.0
    ensures AssessInvoice(invoice, today).value.rate == 2.3
  {
    assert InterpolatedRate(invoice, today) == 7.0 / 3.0;
    assert (7.0 / 3.0 * 10.0).Floor == 23;
  }
}
