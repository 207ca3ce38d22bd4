/** The financing run of one application: Orchestrators/FinancingProcessor.cs.
    The accounting data comes from the client's replies; `today` stands for
    `DateTime.Today`; the concurrent risk assessments are evaluated one
    customer after another. */
module FinancingProcessor {
  import opened Wrappers
  import opened Sequences
  import opened Exceptions
  import opened CustomerModel
  import opened InvoiceModel
  import opened ApplicationModel
  import opened DataClient
  import opened CustomerRiskAssessor
  import opened InvoiceFinanceAssessor
  import opened ApplicationStore

  /** Invoices with fewer days than this left to pay are not financed. */
  const MinimumDaysLeftToPay: int := 14

  /** The configured parameters of the run. */
  datatype InvoiceFinancingParameters = InvoiceFinancingParameters(riskConcentrationThreshold: real)

  /** `Select(x => x.CustomerRef.Id).Distinct()`: only membership is used. */
  function CustomerIds(invoices: seq<Invoice>): (ids: set<string>)
    ensures forall i :: 0 <= i < |invoices| ==> invoices[i].customerRef.id in ids
    ensures forall id :: id in ids ==> exists i :: 0 <= i < |invoices| && invoices[i].customerRef.id == id
  {
    set x | x in invoices :: x.customerRef.id
  }

  /** A customer is risk-assessed when an unpaid invoice references it, all of
      its addresses are in the United States and it has a registration number. */
  function QualifiesForRiskAssessment(customer: Customer, customerIds: set<string>): (r: bool)
    ensures r <==>
      && customer.id in customerIds
      && (forall i :: 0 <= i < |customer.addresses| ==> customer.addresses[i].country == UnitedStates)
      && customer.registrationNumber != None && customer.registrationNumber != Some("")
  {
    customer.id in customerIds && customer.IsUnitedStatesCustomer() && customer.HasRegistrationNumber()
  }

  /** `GetCustomersAsync`: all customers of the company, filtered in memory. */
  function GetCustomers(companyId: Guid, customerIds: set<string>, client: CodatDataClient): (r: Result<seq<Customer>, Exception>)
    ensures client.getCustomers(companyId).Failure? ==> r == Failure(client.getCustomers(companyId).error)
    ensures client.getCustomers(companyId).Success? ==> (r.Success? &&
      forall c :: c in r.value <==> c in client.getCustomers(companyId).value && QualifiesForRiskAssessment(c, customerIds))
  {
    var customers :- client.getCustomers(companyId);
    Success(Where(customers, (x: Customer) => QualifiesForRiskAssessment(x, customerIds)))
  }

  /** One risk task: fetch the customer's paid invoices, then assess. */
  function RiskForCustomer(companyId: Guid, customer: Customer, unpaidInvoices: seq<Invoice>, totalAmountDue: real, client: CodatDataClient)
    : (r: Result<CustomerRisk, Exception>)
    ensures r.Success? ==> r.value.customerId == customer.id
    ensures client.getPaidInvoicesForCustomer(companyId, customer.id).Failure? ==>
      r == Failure(client.getPaidInvoicesForCustomer(companyId, customer.id).error)
  {
    var paidInvoices :- client.getPaidInvoicesForCustomer(companyId, customer.id);
    AssessCustomerRisk(customer, unpaidInvoices, totalAmountDue, |paidInvoices|)
  }

  /** `await Task.WhenAll(customers.Select(AssessCustomerRisk))`: one risk per
      customer, in order; when tasks fail, the first failed task's exception. */
  function AssessCustomerRisks(companyId: Guid, customers: seq<Customer>, unpaidInvoices: seq<Invoice>, totalAmountDue: real, client: CodatDataClient)
    : (r: Result<seq<CustomerRisk>, Exception>)
    ensures r.Success? ==> |r.value| == |customers| && forall k :: 0 <= k < |customers| ==>
      RiskForCustomer(companyId, customers[k], unpaidInvoices, totalAmountDue, client) == Success(r.value[k])
    ensures r.Failure? ==> exists k :: (0 <= k < |customers|
      && RiskForCustomer(companyId, customers[k], unpaidInvoices, totalAmountDue, client) == Failure(r.error)
      && forall j :: 0 <= j < k ==> RiskForCustomer(companyId, customers[j], unpaidInvoices, totalAmountDue, client).Success?)
  {
    if customers == [] then Success([])
    else
      var first := RiskForCustomer(companyId, customers[0], unpaidInvoices, totalAmountDue, client);
      if first.Failure? then Failure(first.error)
      else
        var rest :- AssessCustomerRisks(companyId, customers[1..], unpaidInvoices, totalAmountDue, client);
        Success([first.value] + rest)
  }

  /** The ids of the customers whose risk is strictly below the threshold. */
  function LowRiskCustomerIds(customerRisks: seq<CustomerRisk>, threshold: real): (ids: set<string>)
    ensures forall k :: 0 <= k < |customerRisks| && customerRisks[k].risk < threshold ==> customerRisks[k].customerId in ids
    ensures forall id :: id in ids ==>
      exists k :: 0 <= k < |customerRisks| && customerRisks[k].customerId == id && customerRisks[k].risk < threshold
  {
    set x | x in customerRisks && x.risk < threshold :: x.customerId
  }

  /** `x.DueDate - DateTime.Today >= TimeSpan.FromDays(14)`. */
  function HasTimeToPay(invoice: Invoice, today: Date): (r: bool)
    ensures r <==> today + MinimumDaysLeftToPay <= invoice.dueDate
  {
    DaysLeftToPay(invoice, today) >= MinimumDaysLeftToPay
  }

  /** Exactly 14 days left is enough; 13 is not. */
  lemma FourteenDaysLeftIsTheBoundary(invoice: Invoice, today: Date)
    ensures invoice.dueDate == today + 14 ==> HasTimeToPay(invoice, today)
    ensures invoice.dueDate == today + 13 ==> !HasTimeToPay(invoice, today)
  {
  }

  /** The unpaid invoices of low-risk customers with enough time left, in order. */
  function EligibleInvoices(unpaidInvoices: seq<Invoice>, lowRiskCustomerIds: set<string>, today: Date): (r: seq<Invoice>)
    ensures |r| <= |unpaidInvoices|
    ensures forall x :: x in r <==>
      x in unpaidInvoices && x.customerRef.id in lowRiskCustomerIds && HasTimeToPay(x, today)
  {
    Where(unpaidInvoices, (x: Invoice) => x.customerRef.id in lowRiskCustomerIds && HasTimeToPay(x, today))
  }

  /** `Select(AssessInvoice).ToList()`: one decision per invoice, in order;
      the first invoice that cannot be assessed throws. */
  function AssessInvoices(invoices: seq<Invoice>, today: Date): (r: Result<seq<InvoiceDecision>, Exception>)
    ensures r.Success? ==> (|r.value| == |invoices| &&
      forall k :: 0 <= k < |invoices| ==> AssessInvoice(invoices[k], today) == Success(r.value[k]))
    ensures r.Failure? ==> exists k :: (0 <= k < |invoices|
      && AssessInvoice(invoices[k], today) == Failure(r.error)
      && forall j :: 0 <= j < k ==> AssessInvoice(invoices[j], today).Success?)
  {
    if invoices == [] then Success([])
    else
      var first := AssessInvoice(invoices[0], today);
      if first.Failure? then Failure(first.error)
      else
        var rest :- AssessInvoices(invoices[1..], today);
        Success([first.value] + rest)
  }

  /** `ProcessInvoicesAsync`: the decisions for the company's unpaid invoices. */
  function ProcessInvoices(companyId: Guid, client: CodatDataClient, parameters: InvoiceFinancingParameters, today: Date)
    : (r: Result<seq<InvoiceDecision>, Exception>)
    ensures client.getUnpaidInvoices(companyId).Failure? ==> r == Failure(client.getUnpaidInvoices(companyId).error)
    ensures client.getUnpaidInvoices(companyId).Success? && client.getCustomers(companyId).Failure? ==>
      r == Failure(client.getCustomers(companyId).error)
  {
    var unpaidInvoices :- client.getUnpaidInvoices(companyId);
    var totalAmountDueForCompany := TotalAmountDue(unpaidInvoices);
    var customerIds := CustomerIds(unpaidInvoices);
    var customers :- GetCustomers(companyId, customerIds, client);
    var customerRisks :- AssessCustomerRisks(companyId, customers, unpaidInvoices, totalAmountDueForCompany, client);
    var lowRiskCustomerIds := LowRiskCustomerIds(customerRisks, parameters.riskConcentrationThreshold);
    AssessInvoices(EligibleInvoices(unpaidInvoices, lowRiskCustomerIds, today), today)
  }

  /** The decision rule, stated invoice by invoice: the invoice has at least
      14 days left to pay, and some customer of the company with the
      invoice's customer id has only United States addresses, a registration
      number, and a risk, assessed against all unpaid invoices and their
      total, strictly below the threshold. */
  predicate Financeable(
    companyId: Guid, invoice: Invoice, unpaidInvoices: seq<Invoice>,
    client: CodatDataClient, parameters: InvoiceFinancingParameters, today: Date)
  {
    && HasTimeToPay(invoice, today)
    && client.getCustomers(companyId).Success?
    && exists c :: (c in client.getCustomers(companyId).value
      && c.id == invoice.customerRef.id && c.IsUnitedStatesCustomer() && c.HasRegistrationNumber()
      && var risk := RiskForCustomer(companyId, c, unpaidInvoices, TotalAmountDue(unpaidInvoices), client);
         risk.Success? && risk.value.risk < parameters.riskConcentrationThreshold)
  }

  /** An invoice the pipeline keeps is financeable. */
  lemma KeptInvoiceIsFinanceable(
    companyId: Guid, client: CodatDataClient, parameters: InvoiceFinancingParameters, today: Date,
    unpaid: seq<Invoice>, customers: seq<Customer>, risks: seq<CustomerRisk>, x: Invoice)
    requires client.getUnpaidInvoices(companyId) == Success(unpaid)
    requires GetCustomers(companyId, CustomerIds(unpaid), client) == Success(customers)
    requires AssessCustomerRisks(companyId, customers, unpaid, TotalAmountDue(unpaid), client) == Success(risks)
    requires x.customerRef.id in LowRiskCustomerIds(risks, parameters.riskConcentrationThreshold) && HasTimeToPay(x, today)
    ensures Financeable(companyId, x, unpaid, client, parameters, today)
  {
    var risk :| risk in risks && risk.risk < parameters.riskConcentrationThreshold && risk.customerId == x.customerRef.id;
    var k :| 0 <= k < |risks| && risks[k] == risk;
    var c := customers[k];
    assert RiskForCustomer(companyId, c, unpaid, TotalAmountDue(unpaid), client) == Success(risk);
    assert c in customers;
    assert c in client.getCustomers(companyId).value && QualifiesForRiskAssessment(c, CustomerIds(unpaid));
  }

  /** A financeable unpaid invoice is kept by the pipeline. */
  lemma FinanceableInvoiceIsKept(
    companyId: Guid, client: CodatDataClient, parameters: InvoiceFinancingParameters, today: Date,
    unpaid: seq<Invoice>, customers: seq<Customer>, risks: seq<CustomerRisk>, x: Invoice)
    requires client.getUnpaidInvoices(companyId) == Success(unpaid)
    requires GetCustomers(companyId, CustomerIds(unpaid), client) == Success(customers)
    requires AssessCustomerRisks(companyId, customers, unpaid, TotalAmountDue(unpaid), client) == Success(risks)
    requires x in unpaid && Financeable(companyId, x, unpaid, client, parameters, today)
    ensures x.customerRef.id in LowRiskCustomerIds(risks, parameters.riskConcentrationThreshold)
  {
    var c :| c in client.getCustomers(companyId).value
      && c.id == x.customerRef.id && c.IsUnitedStatesCustomer() && c.HasRegistrationNumber()
      && var risk := RiskForCustomer(companyId, c, unpaid, TotalAmountDue(unpaid), client);
         risk.Success? && risk.value.risk < parameters.riskConcentrationThreshold;
    assert x.customerRef.id in CustomerIds(unpaid);
    assert QualifiesForRiskAssessment(c, CustomerIds(unpaid));
    assert c in customers;
    var k :| 0 <= k < |customers| && customers[k] == c;
    assert risks[k] in risks && risks[k].customerId == c.id;
  }

  /** A successful run decides exactly the financeable unpaid invoices, one
      decision each, in the order of the unpaid-invoice list. */
  lemma ProcessInvoicesDecidesFinanceableInvoices(
    companyId: Guid, client: CodatDataClient, parameters: InvoiceFinancingParameters, today: Date)
    requires ProcessInvoices(companyId, client, parameters, today).Success?
    ensures client.getUnpaidInvoices(companyId).Success?
    ensures var unpaid := client.getUnpaidInvoices(companyId).value;
      var financed := Where(unpaid, (x: Invoice) => Financeable(companyId, x, unpaid, client, parameters, today));
      var decisions := ProcessInvoices(companyId, client, parameters, today).value;
      |decisions| == |financed| &&
      forall k :: 0 <= k < |financed| ==> AssessInvoice(financed[k], today) == Success(decisions[k])
  {
    var unpaid := client.getUnpaidInvoices(companyId).value;
    var customers := GetCustomers(companyId, CustomerIds(unpaid), client).value;
    var risks := AssessCustomerRisks(companyId, customers, unpaid, TotalAmountDue(unpaid), client).value;
    var low := LowRiskCustomerIds(risks, parameters.riskConcentrationThreshold);
    var eligible := (x: Invoice) => x.customerRef.id in low && HasTimeToPay(x, today);
    var financeable := (x: Invoice) => Financeable(companyId, x, unpaid, client, parameters, today);
    forall i | 0 <= i < |unpaid| ensures eligible(unpaid[i]) == financeable(unpaid[i]) {
      if eligible(unpaid[i]) {
        KeptInvoiceIsFinanceable(companyId, client, parameters, today, unpaid, customers, risks, unpaid[i]);
      }
      if financeable(unpaid[i]) {
        FinanceableInvoiceIsKept(companyId, client, parameters, today, unpaid, customers, risks, unpaid[i]);
      }
    }
    WhereCongruent(unpaid, eligible, financeable);
    assert EligibleInvoices(unpaid, low, today) == Where(unpaid, eligible);
  }

  /** `ProcessFinancingForApplication` as a change of the store: the record
      ends Complete with the new decisions, or ProcessingError with its
      decisions untouched and the failure passed on. */
  function FinancingStep(s: StoreState, id: Guid, client: CodatDataClient, parameters: InvoiceFinancingParameters, today: Date)
    : (r: Step)
    requires Consistent(s)
    ensures Consistent(r.state)
  {
    match Lookup(s, id)
    case Failure(e) => Step(s, Fail(e))
    case Success(app) => WriteBack(s, app, ProcessInvoices(app.codatCompanyId, client, parameters, today))
  }

  /** The end of the run for a stored record: the decisions and Complete, or
      ProcessingError and the failure. */
  function WriteBack(s: StoreState, app: Application, invoiceDecisions: Result<seq<InvoiceDecision>, Exception>): (r: Step)
    requires Consistent(s) && app.id in s.data && s.data[app.id] == app
    ensures Consistent(r.state)
  {
    match invoiceDecisions
    case Success(decisions) => Step(Put(s, app.(status := Complete, decisions := Some(decisions))), Pass)
    case Failure(e) => Step(Put(s, app.(status := ProcessingError)), Fail(e))
  }

  /** Writing the result over an earlier rewrite of the record (such as the
      Processing status) is writing it over the original record. */
  lemma WriteBackAfterPut(s: StoreState, app: Application, rewritten: Application, invoiceDecisions: Result<seq<InvoiceDecision>, Exception>)
    requires Consistent(s) && app.id in s.data && s.data[app.id] == app
    requires rewritten == app.(status := rewritten.status) && NoDuplicates(rewritten.requirements)
    ensures Put(s, rewritten).data[app.id] == rewritten
    ensures WriteBack(Put(s, rewritten), rewritten, invoiceDecisions) == WriteBack(s, app, invoiceDecisions)
  {
    match invoiceDecisions
    case Success(decisions) =>
      PutOverwrites(s, rewritten, app.(status := Complete, decisions := Some(decisions)));
    case Failure(_) =>
      PutOverwrites(s, rewritten, app.(status := ProcessingError));
  }

  /** A run never leaves the record at Processing: it passes exactly when
      the status is Complete, with the pipeline's decisions stored, and
      otherwise fails with ProcessingError and the pipeline's own failure. It
      changes no other record and neither the company, the connection nor
      the requirements of this one. */
  lemma FinancingEndsCompleteOrInError(s: StoreState, id: Guid, client: CodatDataClient, parameters: InvoiceFinancingParameters, today: Date)
    requires Consistent(s)
    ensures var r := FinancingStep(s, id, client, parameters, today);
      && r.state.order == s.order && r.state.data.Keys == s.data.Keys
      && (id !in s.data ==> r == Step(s, Fail(ApplicationStoreException(NoApplicationWithId(id)))))
      && (id in s.data ==>
        && (r.state.data[id].status == Complete <==> r.outcome == Pass)
        && (r.state.data[id].status == ProcessingError <==> r.outcome.Fail?)
        && (r.outcome.Pass? ==>
          r.state.data[id].decisions == Some(ProcessInvoices(s.data[id].codatCompanyId, client, parameters, today).value))
        && (r.outcome.Fail? ==> ProcessInvoices(s.data[id].codatCompanyId, client, parameters, today) == Failure(r.outcome.error))
        && (r.outcome.Fail? ==> r.state.data[id].decisions == s.data[id].decisions)
        && r.state.data[id].codatCompanyId == s.data[id].codatCompanyId
        && r.state.data[id].accountingConnection == s.data[id].accountingConnection
        && r.state.data[id].requirements == s.data[id].requirements)
      && (forall other :: other in s.data && other != id ==> r.state.data[other] == s.data[other])
  {
  }

  class FinancingProcessor {
    const store: ApplicationStore
    const parameters: InvoiceFinancingParameters

    constructor (store: ApplicationStore, parameters: InvoiceFinancingParameters)
      ensures this.store == store && this.parameters == parameters
    {
      this.store := store;
      this.parameters := parameters;
    }

    /** Sets the status to Processing, computes the decisions, then stores
        them and sets Complete; on a failure sets ProcessingError and
        rethrows. The status writes are logged in that order. */
    method ProcessFinancingForApplication(id: Guid, client: CodatDataClient, today: Date) returns (r: Outcome<Exception>)
      requires store.Valid()
      modifies store
      ensures store.Valid()
      ensures Step(store.State(), r) == FinancingStep(old(store.State()), id, client, parameters, today)
      ensures id !in old(store.data) ==> store.statusLog == old(store.statusLog)
      ensures id in old(store.data) ==>
        store.statusLog == old(store.statusLog) + [(id, Processing), (id, if r.Pass? then Complete else ProcessingError)]
    {
      ghost var s0 := store.State();
      var processing := store.UpdateApplicationStatus(id, Processing);
      if processing.Fail? {
        return processing;
      }
      ghost var app := s0.data[id];
      var application := store.GetApplication(id);
      assert application.value == app.(status := Processing);
      var invoiceDecisions := ProcessInvoices(application.value.codatCompanyId, client, parameters, today);
      r := RecordResult(id, invoiceDecisions);
      WriteBackAfterPut(s0, app, app.(status := Processing), invoiceDecisions);
    }

    /** The `try` body after the computation, and its `catch`: the decisions
        and Complete, or ProcessingError and the failure passed on. */
    method RecordResult(id: Guid, invoiceDecisions: Result<seq<InvoiceDecision>, Exception>) returns (r: Outcome<Exception>)
      requires store.Valid() && id in store.data
      modifies store
      ensures store.Valid()
      ensures Step(store.State(), r) == WriteBack(old(store.State()), old(store.data[id]), invoiceDecisions)
      ensures store.statusLog == old(store.statusLog) + [(id, if r.Pass? then Complete else ProcessingError)]
    {
      ghost var s0 := store.State();
      ghost var app := store.data[id];
      if invoiceDecisions.Success? {
        ghost var decided := app.(decisions := Some(invoiceDecisions.value));
        var added := store.AddInvoiceDecisions(id, invoiceDecisions.value);
        var completed := store.UpdateApplicationStatus(id, Complete);
        PutOverwrites(s0, decided, decided.(status := Complete));
        r := Pass;
      } else {
        var failed := store.UpdateApplicationStatus(id, ProcessingError);
        r := Fail(invoiceDecisions.error);
      }
    }
  }
}
