/** Invoices and the financing decisions made about them: Models/Invoice.cs. */
module InvoiceModel {
  import opened Sequences
  import opened CustomerModel

  /** A calendar date, as a number of days. */
  type Date = int

  /** An unpaid invoice. Of its customer reference only the id is read. */
  datatype Invoice = Invoice(
    id: string,
    invoiceNumber: string,
    issueDate: Date,
    dueDate: Date,
    amountDue: real,
    customerRef: Customer)

  /** The financing offer for one invoice. */
  datatype InvoiceDecision = InvoiceDecision(
    invoiceId: string,
    invoiceNo: string,
    amountDue: real,
    offerAmount: real,
    rate: real)

  /** `invoices.Sum(x => x.AmountDue)`. */
  function TotalAmountDue(invoices: seq<Invoice>): (total: real)
    ensures NonNegativeAmounts(invoices) ==> total >= 0.0
  {
    if invoices == [] then 0.0
    else
      assert NonNegativeAmounts(invoices) ==> NonNegativeAmounts(invoices[1..]) by {
        if NonNegativeAmounts(invoices) {
          forall i | 0 <= i < |invoices[1..]| ensures invoices[1..][i].amountDue >= 0.0 {
            assert invoices[1..][i] == invoices[i + 1];
          }
        }
      }
      invoices[0].amountDue + TotalAmountDue(invoices[1..])
  }

  /** The total of two lists of invoices together is the sum of their totals. */
  lemma {:induction false} TotalAmountDueAppend(a: seq<Invoice>, b: seq<Invoice>)
    ensures TotalAmountDue(a + b) == TotalAmountDue(a) + TotalAmountDue(b)
  {
    if a == [] {
      assert a + b == b;
    } else {
      assert (a + b)[0] == a[0] && (a + b)[1..] == a[1..] + b;
      TotalAmountDueAppend(a[1..], b);
    }
  }

  predicate NonNegativeAmounts(invoices: seq<Invoice>) {
    forall i :: 0 <= i < |invoices| ==> invoices[i].amountDue >= 0.0
  }

  /** With no negative amounts, the total of any selection of invoices lies
      between zero and the total of all of them. */
  lemma {:induction false} TotalOfSelectionBounded(invoices: seq<Invoice>, p: Invoice -> bool)
    requires NonNegativeAmounts(invoices)
    ensures 0.0 <= TotalAmountDue(Where(invoices, p)) <= TotalAmountDue(invoices)
  {
    if invoices != [] {
      assert NonNegativeAmounts(invoices[1..]) by {
        forall i | 0 <= i < |invoices[1..]| ensures invoices[1..][i].amountDue >= 0.0 {
          assert invoices[1..][i] == invoices[i + 1];
        }
      }
      TotalOfSelectionBounded(invoices[1..], p);
      assert invoices[0].amountDue >= 0.0;
    }
  }
}
