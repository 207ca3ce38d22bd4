/** Concentration risk of one customer: Services/CustomerRiskAssessor.cs.
    The number of the customer's paid invoices, which the source fetches
    from the accounting API, is an input here. */
module CustomerRiskAssessor {
  import opened Wrappers
  import opened Sequences
  import opened Exceptions
  import opened CustomerModel
  import opened InvoiceModel

  /** Customers with fewer paid invoices than this get the maximum risk. */
  const MinimumPaidInvoices: nat := 2

  const MaximumRisk: real := 1.0

  /** The company's unpaid invoices that reference `customer`. */
  function CustomerUnpaidInvoices(customer: Customer, unpaidInvoicesForCompany: seq<Invoice>): (r: seq<Invoice>)
    ensures |r| <= |unpaidInvoicesForCompany|
  {
    Where(unpaidInvoicesForCompany, (x: Invoice) => x.customerRef.id == customer.id)
  }

  /** The customer's unpaid invoices are exactly the company's unpaid
      invoices that reference the customer's id. */
  lemma CustomerUnpaidInvoicesReferenceCustomer(customer: Customer, unpaidInvoicesForCompany: seq<Invoice>, invoice: Invoice)
    ensures invoice in CustomerUnpaidInvoices(customer, unpaidInvoicesForCompany) <==>
      invoice in unpaidInvoicesForCompany && invoice.customerRef.id == customer.id
  {
  }

  /** `AssessCustomerRisk`. With too few paid invoices the risk is 1;
      otherwise it is the customer's share of the company's total amount
      due, and a zero total is a division by zero. */
  function AssessCustomerRisk(
    customer: Customer,
    unpaidInvoicesForCompany: seq<Invoice>,
    totalAmountDueForCompany: real,
    paidInvoiceCount: nat
  ): (r: Result<CustomerRisk, Exception>)
    ensures r.Success? ==> r.value.customerId == customer.id
    ensures paidInvoiceCount < MinimumPaidInvoices ==> r == Success(CustomerRisk(customer.id, MaximumRisk))
    ensures paidInvoiceCount >= MinimumPaidInvoices ==> (r.Failure? <==> totalAmountDueForCompany == 0.0)
    ensures r.Failure? ==> r.error == DivideByZeroException
    ensures paidInvoiceCount >= MinimumPaidInvoices && r.Success? ==>
      r.value.risk * totalAmountDueForCompany ==
        TotalAmountDue(CustomerUnpaidInvoices(customer, unpaidInvoicesForCompany))
  {
    if paidInvoiceCount < MinimumPaidInvoices then
      Success(CustomerRisk(customer.id, MaximumRisk))
    else
      var totalAmountDueForCustomer := TotalAmountDue(CustomerUnpaidInvoices(customer, unpaidInvoicesForCompany));
      if totalAmountDueForCompany == 0.0 then Failure(DivideByZeroException)
      else Success(CustomerRisk(customer.id, totalAmountDueForCustomer / totalAmountDueForCompany))
  }

  /** When the company total is the sum over the same invoices and no amount
      is negative, every risk lies between 0 and 1. */
  lemma RiskIsAShare(customer: Customer, unpaidInvoicesForCompany: seq<Invoice>, paidInvoiceCount: nat)
    requires NonNegativeAmounts(unpaidInvoicesForCompany)
    ensures var r := AssessCustomerRisk(customer, unpaidInvoicesForCompany, TotalAmountDue(unpaidInvoicesForCompany), paidInvoiceCount);
      r.Success? ==> 0.0 <= r.value.risk <= MaximumRisk
  {
    var total := TotalAmountDue(unpaidInvoicesForCompany);
    var r := AssessCustomerRisk(customer, unpaidInvoicesForCompany, total, paidInvoiceCount);
    if paidInvoiceCount >= MinimumPaidInvoices && r.Success? {
      var part := TotalAmountDue(CustomerUnpaidInvoices(customer, unpaidInvoicesForCompany));
      TotalOfSelectionBounded(unpaidInvoicesForCompany, (x: Invoice) => x.customerRef.id == customer.id);
      assert 0.0 <= part <= total && total != 0.0;
      ShareOfTotal(part, total);
    }
  }

  lemma ShareOfTotal(part: real, total: real)
    requires 0.0 <= part <= total && total != 0.0
    ensures 0.0 <= part / total <= 1.0
  {
    var q := part / total;
    assert q * total == part;
  }

  /** A customer with fewer than two paid invoices is never below a
      threshold of at most 1. */
  lemma FewPaidInvoicesNeverLowRisk(
    customer: Customer, unpaidInvoicesForCompany: seq<Invoice>, totalAmountDueForCompany: real,
    paidInvoiceCount: nat, threshold: real)
    requires paidInvoiceCount < MinimumPaidInvoices && threshold <= MaximumRisk
    ensures var r := AssessCustomerRisk(customer, unpaidInvoicesForCompany, totalAmountDueForCompany, paidInvoiceCount);
      r.Success? && !(r.value.risk < threshold)
  {
  }
}
