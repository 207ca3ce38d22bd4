# Invoice financing demo: a Dafny model

This project models the core of the Codat invoice-financing demo API.
An applicant creates an **application**. The application is linked to a
Codat company. The applicant then connects an accounting platform. Two
kinds of webhook alert drive the application's status:

- data-connection status alerts;
- data-sync-complete alerts.

Once both the customers and the invoices have been synchronised, the
**financing run** does the following:

1. it fetches the company's unpaid invoices and customers;
2. it risk-assesses every qualifying customer by its share of the amount due;
3. it keeps the customers whose risk is below the configured threshold;
4. it offers 90% of each of their invoices that have at least 14 days left
   to pay, at a rate interpolated by the time remaining.

The model has these modules:

- `ApplicationStore`: the in-memory store. It is a class over a map from
  id to record, plus the insertion order of the ids. Its methods are proved
  against pure functions on a `StoreState` value (`Lookup`,
  `LookupByCompany`, `Put`, `Insert`, `WithRequirement`, and the steps
  `StatusStep`, `ConnectionStep`, `RequirementStep`), under the invariant
  `Consistent`.
- `ApplicationOrchestrator`: the alert handling. Each handler is a class
  method. It is proved equal to a pure `Step` function, which chains the
  same store steps in the same order. Lemmas then say what each sequence amounts
  to.
- `FinancingProcessor`: the pure decision pipeline (`ProcessInvoices`),
  proved equal to an invoice-by-invoice decision rule (`Financeable`). It
  also holds the class method that writes the result back.
- `CustomerRiskAssessor`, `InvoiceFinanceAssessor`, `CustomerModel`,
  `InvoiceModel`, `ApplicationModel` and `AlertModel`: the decision
  primitives and the records.
- `DataClient`: the accounting-data client, seen only through its replies.
- `Exceptions`, `Wrappers` and `Sequences`: the exceptions the core throws,
  `Option`/`Result`, and the LINQ `Where` filter.

Inputs the real code takes from the environment are explicit parameters
here:

- **The data client**: a value of functions from a call's arguments to
  either its reply or the exception it throws.
- **Today**: an integer day number.
- **The new application id**: passed in, instead of coming from
  `Guid.NewGuid()`.

Exceptions are values. Every operation returns a `Result` or an
`Outcome`, and a failure leaves the state as the source leaves it at the
point of the throw.

## Model

| member | source | states |
|---|---|---|
| ApplicationModel.NewApplicationDetails.LinkUrl | Codat.Demos.InvoiceFinancing.Api/Models/Application.cs:38-40 | the link is the fixed prefix "https://link.codat.io/company/" followed by the company id, and is never empty |
| ApplicationModel.LinkUrlIdentifiesCompany | Codat.Demos.InvoiceFinancing.Api/Models/Application.cs:40 | two details have the same link exactly when they name the same company |
| ApplicationModel.ApplicationRequirementsAreEveryValue | Codat.Demos.InvoiceFinancing.Api/Orchestrators/ApplicationOrchestrator.cs:18-19 | the list of all requirements holds every requirement value (Invoices and Customers), each once |
| ApplicationModel.NewApplication | Codat.Demos.InvoiceFinancing.Api/Services/ApplicationStore.cs:24-29 | a new record has the given id and company and status Started, and no connection, no fulfilled requirement and no decisions (the initialisers of Models/Application.cs) |
| CustomerModel.Customer.IsUnitedStatesCustomer | Codat.Demos.InvoiceFinancing.Api/Models/Customer.cs:9-12 | true exactly when every address's country is exactly "United States" |
| CustomerModel.AllInUnitedStates | Codat.Demos.InvoiceFinancing.Api/Models/Customer.cs:11 | the `All` over the addresses: true exactly when every address's country is "United States" |
| CustomerModel.NoAddressIsUnitedStates | Codat.Demos.InvoiceFinancing.Api/Models/Customer.cs:11 | a customer without addresses passes the check |
| CustomerModel.CountryCheckReadsOnlyAddresses | Codat.Demos.InvoiceFinancing.Api/Models/Customer.cs:9-12 | customers with the same addresses get the same answer, whatever their id or registration number |
| CustomerModel.CountryCheckIsExact | Codat.Demos.InvoiceFinancing.Api/Models/Customer.cs:11 | an address in "US" or "united states" makes the check fail |
| CustomerModel.Customer.HasRegistrationNumber | Codat.Demos.InvoiceFinancing.Api/Orchestrators/FinancingProcessor.cs:91 | `!string.IsNullOrEmpty`: false exactly when the registration number is null or the empty string |
| Sequences.Where | Codat.Demos.InvoiceFinancing.Api/Orchestrators/FinancingProcessor.cs:70-78 | the filter keeps exactly the elements that satisfy the predicate, and never grows the list; order and multiplicity are fixed by `WhereOfOne` and `WhereAppend` |
| Sequences.WhereOfOne | Codat.Demos.InvoiceFinancing.Api/Orchestrators/FinancingProcessor.cs:70-78 | the empty list filters to the empty list, and a one-element list keeps its element exactly when it satisfies the predicate |
| Sequences.WhereAppend | Codat.Demos.InvoiceFinancing.Api/Orchestrators/FinancingProcessor.cs:70-78 | filtering a concatenation is the concatenation of the filtered parts, so kept elements stay in their order and keep their multiplicity |
| Sequences.WhereCongruent | Codat.Demos.InvoiceFinancing.Api/Orchestrators/FinancingProcessor.cs:70-78 | two predicates that agree on every element select the same sublist |
| InvoiceModel.TotalOfSelectionBounded | Codat.Demos.InvoiceFinancing.Api/Services/CustomerRiskAssessor.cs:38-39 | with non-negative amounts, the amount due over any selection of invoices lies between 0 and the total amount due |
| InvoiceModel.TotalAmountDue | Codat.Demos.InvoiceFinancing.Api/Orchestrators/FinancingProcessor.cs:58 | `Sum(x => x.AmountDue)` over a list: never negative when no amount is negative |
| InvoiceModel.TotalAmountDueAppend | Codat.Demos.InvoiceFinancing.Api/Orchestrators/FinancingProcessor.cs:58 | the sum over two lists together is the sum of the two sums |
| CustomerRiskAssessor.AssessCustomerRisk | Codat.Demos.InvoiceFinancing.Api/Services/CustomerRiskAssessor.cs:20-47 | the result is for the input customer; fewer than 2 paid invoices give risk exactly 1; from 2 paid invoices on, the risk times the company total is the customer's unpaid amount due, and a zero company total is a division-by-zero failure |
| CustomerRiskAssessor.RiskIsAShare | Codat.Demos.InvoiceFinancing.Api/Services/CustomerRiskAssessor.cs:38-40 | when the company total is the sum over the same invoices and no amount is negative, every assessed risk lies in [0, 1] |
| CustomerRiskAssessor.FewPaidInvoicesNeverLowRisk | Codat.Demos.InvoiceFinancing.Api/Services/CustomerRiskAssessor.cs:28-36 | with fewer than 2 paid invoices the customer never falls below a threshold of at most 1 |
| CustomerRiskAssessor.CustomerUnpaidInvoices | Codat.Demos.InvoiceFinancing.Api/Services/CustomerRiskAssessor.cs:38 | the customer's unpaid invoices are a filter of the company's unpaid invoices, never more of them |
| CustomerRiskAssessor.CustomerUnpaidInvoicesReferenceCustomer | Codat.Demos.InvoiceFinancing.Api/Services/CustomerRiskAssessor.cs:38 | an invoice is among the customer's unpaid invoices exactly when it is an unpaid invoice of the company whose customer reference is the customer's id |
| InvoiceFinanceAssessor.RoundToTenths | Codat.Demos.InvoiceFinancing.Api/Services/InvoiceFinanceAssessor.cs:17 | `decimal.Round(x, 1)`: the result is a whole number of tenths within 0.05 of x; on a tie it is the even tenth; a value already in tenths is unchanged |
| InvoiceFinanceAssessor.RoundToTenthsIsNearest | Codat.Demos.InvoiceFinancing.Api/Services/InvoiceFinanceAssessor.cs:17 | no tenth is closer to x than the rounded value |
| InvoiceFinanceAssessor.RoundToTenthsMonotonic | Codat.Demos.InvoiceFinancing.Api/Services/InvoiceFinanceAssessor.cs:17 | rounding preserves order |
| InvoiceFinanceAssessor.AssessInvoice | Codat.Demos.InvoiceFinancing.Api/Services/InvoiceFinanceAssessor.cs:12-27 | a zero term is an overflow failure and nothing else fails; a decision copies the invoice id, number and amount due, offers 0.9 of the amount due, and its rate is 5 - 4 x (days left / term) rounded to tenths |
| InvoiceFinanceAssessor.RateAtEndsOfTerm | Codat.Demos.InvoiceFinancing.Api/Services/InvoiceFinanceAssessor.cs:14-17 | the rate is 1 when the whole term is left and 5 on the due date |
| InvoiceFinanceAssessor.RateNotClamped | Codat.Demos.InvoiceFinancing.Api/Services/InvoiceFinanceAssessor.cs:16-17 | an invoice issued 10 days after today and due 20 days after today has rate -3: the rate is not clamped to [1, 5] |
| InvoiceFinanceAssessor.RateFallsAsDaysRemain | Codat.Demos.InvoiceFinancing.Api/Services/InvoiceFinanceAssessor.cs:15-17 | for the same positive term, more days left never give a higher rate |
| InvoiceFinanceAssessor.WorkedExample | Codat.Demos.InvoiceFinancing.Api.Tests/Controllers/InvoiceFinancingTests.cs:56-63 | issued 10 days ago, due in 20 days, 200 due: the offer is 180 at rate 2.3 |
| InvoiceFinanceAssessor.Terms | Codat.Demos.InvoiceFinancing.Api/Services/InvoiceFinanceAssessor.cs:14 | the term is the number of days from issue date to due date |
| InvoiceFinanceAssessor.DaysLeftToPay | Codat.Demos.InvoiceFinancing.Api/Services/InvoiceFinanceAssessor.cs:15 | the days left are the number of days from today to the due date, negative once it has passed |
| InvoiceFinanceAssessor.InterpolatedRate | Codat.Demos.InvoiceFinancing.Api/Services/InvoiceFinanceAssessor.cs:16-17 | the unrounded rate r satisfies r x term = 5 x term - 4 x days left; while the invoice is within its term (0 <= days left <= term) it lies in [1, 5] |
| ApplicationStore.FirstForCompany | Codat.Demos.InvoiceFinancing.Api/Services/ApplicationStore.cs:65 | `FirstOrDefault` in insertion order: the first position whose record has the company, or none when no record has it |
| ApplicationStore.FirstForCompanyReadsOnlyCompanies | Codat.Demos.InvoiceFinancing.Api/Services/ApplicationStore.cs:65 | the first match depends only on the records' company ids |
| ApplicationStore.Lookup | Codat.Demos.InvoiceFinancing.Api/Services/ApplicationStore.cs:40-43 | succeeds exactly when the id is stored, with the record stored under it; otherwise fails with "No application exists with id …" |
| ApplicationStore.LookupByCompany | Codat.Demos.InvoiceFinancing.Api/Services/ApplicationStore.cs:63-72 | succeeds exactly when some record has the company; the result is a stored record of that company, and no earlier record has it; otherwise fails with "No application exists for codat company id …" |
| ApplicationStore.Put | Codat.Demos.InvoiceFinancing.Api/Services/ApplicationStore.cs:54 | the indexed write (here and at lines 60 and 83) replaces one record and keeps every other record, the ids and their order |
| ApplicationStore.PutOverwrites | Codat.Demos.InvoiceFinancing.Api/Orchestrators/FinancingProcessor.cs:38-45 | two writes to the same id amount to the last one |
| ApplicationStore.Insert | Codat.Demos.InvoiceFinancing.Api/Services/ApplicationStore.cs:30 | `Dictionary.Add` of a new id adds the record at the end of the order, keeps every other record, and keeps the store consistent |
| ApplicationStore.LookupByCompanyAfterPut | Codat.Demos.InvoiceFinancing.Api/Orchestrators/ApplicationOrchestrator.cs:56-60 | rewriting a record without changing its company leaves every lookup by company on the same record |
| ApplicationStore.WithRequirement | Codat.Demos.InvoiceFinancing.Api/Services/ApplicationStore.cs:86-92 | set insertion: the requirement is present afterwards, earlier requirements are kept in place, at most one entry is added and no duplicate is created |
| ApplicationStore.WithRequirementIdempotent | Codat.Demos.InvoiceFinancing.Api/Services/ApplicationStore.cs:88 | adding the same requirement twice is adding it once |
| ApplicationStore.StatusStep | Codat.Demos.InvoiceFinancing.Api/Services/ApplicationStore.cs:57-61 | `UpdateApplicationStatus` as a step: it passes exactly when the id is stored, and then only that record's status changes; otherwise it fails with the missing-id message and changes nothing; ids and order are kept |
| ApplicationStore.ConnectionStep | Codat.Demos.InvoiceFinancing.Api/Services/ApplicationStore.cs:50-55 | `SetAccountingConnectionForCompany` as a step: it passes exactly when some record has the company, and then the first such record holds the connection id; it fails otherwise with nothing changed, and keeps the ids and their order |
| ApplicationStore.RequirementStep | Codat.Demos.InvoiceFinancing.Api/Services/ApplicationStore.cs:74-78 | `AddFulfilledRequirementForCompany` as a step: it passes exactly when some record has the company, and then the company's first record holds the requirement; otherwise nothing changes; ids and order are kept |
| ApplicationStore.ApplicationStore.constructor | Codat.Demos.InvoiceFinancing.Api/Services/ApplicationStore.cs:20 | a new store is empty |
| ApplicationStore.ApplicationStore.CreateApplication | Codat.Demos.InvoiceFinancing.Api/Services/ApplicationStore.cs:22-37 | a new id stores a record with the given id and company, status Started, no connection, no requirements and no decisions, and returns that id, status and company; an id already present fails with a duplicate-key error and changes nothing |
| ApplicationStore.ApplicationStore.GetApplication | Codat.Demos.InvoiceFinancing.Api/Services/ApplicationStore.cs:40-43 | the result is `Lookup` on the current contents |
| ApplicationStore.ApplicationStore.GetApplicationStatus | Codat.Demos.InvoiceFinancing.Api/Services/ApplicationStore.cs:45-48 | succeeds exactly when the id is stored, with its status; otherwise fails with the missing-id message |
| ApplicationStore.ApplicationStore.GetApplicationByCompanyId | Codat.Demos.InvoiceFinancing.Api/Services/ApplicationStore.cs:63-72 | the result is `LookupByCompany` on the current contents |
| ApplicationStore.ApplicationStore.SetAccountingConnectionForCompany | Codat.Demos.InvoiceFinancing.Api/Services/ApplicationStore.cs:50-55 | performs `ConnectionStep`: the company's first record gets the connection id, overwriting any earlier one, and nothing else changes; with no such record it fails with the missing-company message and changes nothing |
| ApplicationStore.ApplicationStore.UpdateApplicationStatus | Codat.Demos.InvoiceFinancing.Api/Services/ApplicationStore.cs:57-61 | performs `StatusStep`: only that record's status is overwritten, with no check of the transition, and the write is logged; a missing id fails and changes nothing |
| ApplicationStore.ApplicationStore.AddFulfilledRequirementForCompany | Codat.Demos.InvoiceFinancing.Api/Services/ApplicationStore.cs:74-78 | performs `RequirementStep`: the company's first record gets the requirement added as a set insertion; with no such record it fails with the missing-company message and changes nothing |
| ApplicationStore.ApplicationStore.AddInvoiceDecisions | Codat.Demos.InvoiceFinancing.Api/Services/ApplicationStore.cs:80-84 | the record's decisions are replaced wholesale by the given list; a missing id fails and changes nothing |
| ApplicationStore.ApplicationStore.AddToRequirements | Codat.Demos.InvoiceFinancing.Api/Services/ApplicationStore.cs:86-92 | the record's requirement list is extended in place, as by `WithRequirement`, and nothing else changes |
| FinancingProcessor.CustomerIds | Codat.Demos.InvoiceFinancing.Api/Orchestrators/FinancingProcessor.cs:61 | the distinct customer ids of the unpaid invoices: every invoice's customer id is in the set, and every id in it is some invoice's customer id |
| FinancingProcessor.QualifiesForRiskAssessment | Codat.Demos.InvoiceFinancing.Api/Orchestrators/FinancingProcessor.cs:91 | a customer qualifies exactly when an unpaid invoice references its id, every one of its addresses is in "United States", and its registration number is neither null nor empty |
| FinancingProcessor.GetCustomers | Codat.Demos.InvoiceFinancing.Api/Orchestrators/FinancingProcessor.cs:85-92 | a failed fetch passes on its exception; otherwise the result holds exactly those fetched customers that an unpaid invoice references, that pass the country check and that have a non-empty registration number |
| FinancingProcessor.RiskForCustomer | Codat.Demos.InvoiceFinancing.Api/Services/CustomerRiskAssessor.cs:27-28 | a failed fetch of the paid invoices passes on its exception; the risk is for the customer it was asked about |
| FinancingProcessor.AssessCustomerRisks | Codat.Demos.InvoiceFinancing.Api/Orchestrators/FinancingProcessor.cs:65-66 | `Task.WhenAll`: on success one risk per customer, in order, each assessed against the full unpaid list and total; on failure, the exception of the first failing customer |
| FinancingProcessor.LowRiskCustomerIds | Codat.Demos.InvoiceFinancing.Api/Orchestrators/FinancingProcessor.cs:67 | an id is a low-risk id exactly when some assessed risk for that customer id lies strictly below the threshold |
| FinancingProcessor.HasTimeToPay | Codat.Demos.InvoiceFinancing.Api/Orchestrators/FinancingProcessor.cs:74-76 | an invoice has time to pay exactly when its due date is at least 14 days after today |
| FinancingProcessor.FourteenDaysLeftIsTheBoundary | Codat.Demos.InvoiceFinancing.Api/Orchestrators/FinancingProcessor.cs:74-76 | exactly 14 days left to pay is kept; 13 is dropped |
| FinancingProcessor.EligibleInvoices | Codat.Demos.InvoiceFinancing.Api/Orchestrators/FinancingProcessor.cs:70-78 | the kept invoices are exactly the unpaid invoices of a low-risk customer that have time to pay, and never more than the unpaid list |
| FinancingProcessor.AssessInvoices | Codat.Demos.InvoiceFinancing.Api/Orchestrators/FinancingProcessor.cs:79-80 | one decision per kept invoice, in order, each from `AssessInvoice`; on failure, the first invoice's failure |
| FinancingProcessor.ProcessInvoices | Codat.Demos.InvoiceFinancing.Api/Orchestrators/FinancingProcessor.cs:54-83 | a failed fetch of unpaid invoices is passed on before anything else, then a failed fetch of customers |
| FinancingProcessor.KeptInvoiceIsFinanceable | Codat.Demos.InvoiceFinancing.Api/Orchestrators/FinancingProcessor.cs:67-76 | an unpaid invoice whose customer is among the low-risk ids and that has 14 days left is financeable |
| FinancingProcessor.FinanceableInvoiceIsKept | Codat.Demos.InvoiceFinancing.Api/Orchestrators/FinancingProcessor.cs:61-70 | a financeable unpaid invoice's customer is among the low-risk ids the pipeline computes |
| FinancingProcessor.ProcessInvoicesDecidesFinanceableInvoices | Codat.Demos.InvoiceFinancing.Api/Orchestrators/FinancingProcessor.cs:56-80 | a successful run produces one decision per unpaid invoice that is financeable, in the order of the unpaid-invoice list. An invoice is financeable when it has at least 14 days left and a fetched customer with its id qualifies (United States addresses, a registration number) and has a risk strictly below the threshold, assessed against all unpaid invoices and their total |
| FinancingProcessor.FinancingStep | Codat.Demos.InvoiceFinancing.Api/Orchestrators/FinancingProcessor.cs:36-52 | the financing run as a change of the store keeps the store consistent |
| FinancingProcessor.WriteBack | Codat.Demos.InvoiceFinancing.Api/Orchestrators/FinancingProcessor.cs:44-50 | the end of the run keeps the store consistent |
| FinancingProcessor.WriteBackAfterPut | Codat.Demos.InvoiceFinancing.Api/Orchestrators/FinancingProcessor.cs:38-49 | the final write wipes out the earlier Processing write: writing the result over the rewritten record is writing it over the original |
| FinancingProcessor.FinancingEndsCompleteOrInError | Codat.Demos.InvoiceFinancing.Api/Orchestrators/FinancingProcessor.cs:43-51 | the run never leaves the record at Processing: it passes exactly when the final status is Complete, fails exactly when it is ProcessingError, stores the pipeline's decisions on success, passes on the pipeline's own failure and keeps the old decisions on failure, and changes no other record and none of the record's other fields |
| FinancingProcessor.FinancingProcessor.constructor | Codat.Demos.InvoiceFinancing.Api/Orchestrators/FinancingProcessor.cs:21-34 | the processor keeps the given store and the configured parameters |
| FinancingProcessor.FinancingProcessor.ProcessFinancingForApplication | Codat.Demos.InvoiceFinancing.Api/Orchestrators/FinancingProcessor.cs:36-52 | performs `FinancingStep` on the store; the status writes are Processing first and then the final status |
| FinancingProcessor.FinancingProcessor.RecordResult | Codat.Demos.InvoiceFinancing.Api/Orchestrators/FinancingProcessor.cs:44-50 | stores the decisions and sets Complete, or sets ProcessingError and passes the failure on, as `WriteBack`, logging the one status write |
| ApplicationOrchestrator.GetRequirementByDataType | Codat.Demos.InvoiceFinancing.Api/Orchestrators/ApplicationOrchestrator.cs:91-99 | "customers" gives Customers, "invoices" gives Invoices, and any other string gives nothing |
| ApplicationOrchestrator.DataTypeNameRoundTrip | Codat.Demos.InvoiceFinancing.Api/Orchestrators/ApplicationOrchestrator.cs:91-99 | each requirement is recognised from its own data-type name and from no other |
| ApplicationOrchestrator.StatusGivenRequirements | Codat.Demos.InvoiceFinancing.Api/Orchestrators/ApplicationOrchestrator.cs:113-114 | DataCollectionComplete exactly when both Invoices and Customers are among the requirements, CollectingData otherwise |
| ApplicationOrchestrator.AnyPlatformHasKey | Codat.Demos.InvoiceFinancing.Api/Orchestrators/ApplicationOrchestrator.cs:121 | true exactly when some platform has the key |
| ApplicationOrchestrator.IsAccountingPlatform | Codat.Demos.InvoiceFinancing.Api/Orchestrators/ApplicationOrchestrator.cs:118-122 | a failed platform listing passes on its exception; otherwise the answer is whether some listed platform has the key |
| ApplicationOrchestrator.ConnectionAlertStep | Codat.Demos.InvoiceFinancing.Api/Orchestrators/ApplicationOrchestrator.cs:51-63 | the connection alert as a step keeps the store consistent |
| ApplicationOrchestrator.StatusGivenRequirementsStep | Codat.Demos.InvoiceFinancing.Api/Orchestrators/ApplicationOrchestrator.cs:110-116 | the status recomputation as a step keeps the store consistent |
| ApplicationOrchestrator.TryProcessFinancingStep | Codat.Demos.InvoiceFinancing.Api/Orchestrators/ApplicationOrchestrator.cs:101-108 | the recomputation followed by the conditional financing run keeps the store consistent |
| ApplicationOrchestrator.SyncAlertStep | Codat.Demos.InvoiceFinancing.Api/Orchestrators/ApplicationOrchestrator.cs:65-89 | the sync alert as a step keeps the store consistent |
| ApplicationOrchestrator.ConnectionAlertEffect | Codat.Demos.InvoiceFinancing.Api/Orchestrators/ApplicationOrchestrator.cs:51-63 | a failed platform listing fails and changes nothing; an alert for a key that is not an accounting platform changes nothing; otherwise the company's first application gets the connection id whatever the new status (for example "PendingAuth"), and the status becomes AccountsLinked exactly when the new status is exactly "Linked"; nothing else changes |
| ApplicationOrchestrator.ConnectionAlertIdempotent | Codat.Demos.InvoiceFinancing.Api/Orchestrators/ApplicationOrchestrator.cs:51-63 | delivering the same connection alert a second time, after a first delivery that passed or failed, changes nothing more and gives the same outcome |
| ApplicationOrchestrator.SyncAlertEffect | Codat.Demos.InvoiceFinancing.Api/Orchestrators/ApplicationOrchestrator.cs:65-116 | a company without an application fails; an application without a connection fails with "Cannot update data type sync status as no accounting data connection exists with id …" and nothing changes; another connection id or an unknown data type changes nothing; otherwise the result is `SyncAlertCollected`: the requirement is added, the status becomes DataCollectionComplete or CollectingData from the grown list, and financing runs exactly in the first case |
| ApplicationOrchestrator.SyncAlertCollected | Codat.Demos.InvoiceFinancing.Api/Orchestrators/ApplicationOrchestrator.cs:86-116 | the state after a requirement is collected (requirement added, status recomputed, financing run when complete) is consistent |
| ApplicationOrchestrator.SyncAlertCollects | Codat.Demos.InvoiceFinancing.Api/Orchestrators/ApplicationOrchestrator.cs:86-88 | for a connected application and a known data type, the alert's literal sequence of store calls (add by company, look up by id, write status, read status, finance) amounts to `SyncAlertCollected` on the company's first application |
| ApplicationOrchestrator.TryProcessFinancingEffect | Codat.Demos.InvoiceFinancing.Api/Orchestrators/ApplicationOrchestrator.cs:101-116 | for a stored id, the status is recomputed from the record's own requirements and the financing runs on the result exactly when it is DataCollectionComplete |
| ApplicationOrchestrator.FinancingRunsOnceAllDataSynced | Codat.Demos.InvoiceFinancing.Api/Orchestrators/ApplicationOrchestrator.cs:101-116 | when the alert's requirement completes the set, the application ends Complete or ProcessingError; when another requirement is still missing, the status is CollectingData and the call passes |
| ApplicationOrchestrator.FinancingKeepsRequirements | Codat.Demos.InvoiceFinancing.Api/Orchestrators/FinancingProcessor.cs:36-52 | the financing run keeps every application and every fulfilled requirement |
| ApplicationOrchestrator.SyncAlertKeepsRequirements | Codat.Demos.InvoiceFinancing.Api/Orchestrators/ApplicationOrchestrator.cs:86 | a sync alert never removes a fulfilled requirement from any application and never adds or drops an application |
| ApplicationOrchestrator.ReplayedSyncAlertRerunsFinancing | Codat.Demos.InvoiceFinancing.Api/Orchestrators/ApplicationOrchestrator.cs:110-116 | the status is overwritten unconditionally, so a sync alert replayed after collection resets the status and runs the financing again: Complete and ProcessingError are not final |
| ApplicationOrchestrator.ApplicationOrchestrator.constructor | Codat.Demos.InvoiceFinancing.Api/Orchestrators/ApplicationOrchestrator.cs:25-30 | the orchestrator uses the given store and a financing processor on that same store, and starts valid |
| ApplicationOrchestrator.ApplicationOrchestrator.CreateApplicationAsync | Codat.Demos.InvoiceFinancing.Api/Orchestrators/ApplicationOrchestrator.cs:32-37 | a failed company creation passes on its exception and changes nothing; otherwise the store's application is created for the id, under the company id that company creation returned, and the store's details are returned |
| ApplicationOrchestrator.ApplicationOrchestrator.GetApplication | Codat.Demos.InvoiceFinancing.Api/Orchestrators/ApplicationOrchestrator.cs:39-49 | the stored record for a stored id; a missing id fails with an orchestrator error carrying the store's message |
| ApplicationOrchestrator.ApplicationOrchestrator.UpdateCodatDataConnectionAsync | Codat.Demos.InvoiceFinancing.Api/Orchestrators/ApplicationOrchestrator.cs:51-63 | performs `ConnectionAlertStep` on the store |
| ApplicationOrchestrator.ApplicationOrchestrator.UpdateDataTypeSyncStatusAsync | Codat.Demos.InvoiceFinancing.Api/Orchestrators/ApplicationOrchestrator.cs:65-89 | performs `SyncAlertStep` on the store |
| ApplicationOrchestrator.ApplicationOrchestrator.TryProcessFinancingAsync | Codat.Demos.InvoiceFinancing.Api/Orchestrators/ApplicationOrchestrator.cs:101-108 | performs `TryProcessFinancingStep` on the store |
| ApplicationOrchestrator.ApplicationOrchestrator.UpdateApplicationStatusGivenRequirements | Codat.Demos.InvoiceFinancing.Api/Orchestrators/ApplicationOrchestrator.cs:110-116 | performs `StatusGivenRequirementsStep` on the store |
| ApplicationOrchestrator.ApplicationOrchestrator.IsAccountingPlatformAsync | Codat.Demos.InvoiceFinancing.Api/Orchestrators/ApplicationOrchestrator.cs:118-122 | the answer of `IsAccountingPlatform` for the client's platform listing |

## How the model reads the source

- **Dictionary order.** `GetApplicationByCompanyId` takes the first record
  of the company in dictionary enumeration order. Nothing is ever removed
  from the store, so that order is insertion order, which the model keeps as
  `order`. The lookup is therefore deterministic and needs no assumption
  that company ids are unique.
- **Failures instead of preconditions.** A zero company total on the
  ratio path of `AssessCustomerRisk` is a `DivideByZeroException`
  failure. A zero term in `AssessInvoice` is an `OverflowException`
  failure (`TimeSpan` division by zero gives an infinite or undefined
  double, and the cast to `decimal` throws). Neither is excluded by a
  precondition. The source throws in both cases, and `FinancingProcessor`
  catches the throw and sets ProcessingError, so the failure is part of the
  behaviour.
- **Status writes.** The store has a ghost `statusLog` that records every
  status write. It states that the financing run writes Processing before
  the final status.
- **The impossible failure.** In `UpdateCodatDataConnectionAsync`, the
  second `GetApplicationByCompanyId` cannot fail, because the connection
  was just written to that company's application. The model proves this
  rather than modelling the throw.

## Left out

- HTTP, JSON, paging and query strings of the data client (`CodatDataClient.cs`): each client call is a function from its arguments to its reply or its exception. Which invoices count as "unpaid" is decided by the server and is not modelled.
- Asynchrony and concurrency. `Task.WhenAll` is evaluated customer by customer, and it reports the first failing customer's exception. Races between concurrent webhooks are not modelled.
- `DateTime.Today` and `TimeSpan`: dates are integer day numbers and `today` is a parameter. Times of day are not modelled.
- InvoiceFinanceAssessor.AssessInvoice: the ratio is a `double` and the rate a `decimal` in the source, but both are exact reals here. Agreement with the binary floating-point result is not claimed where double rounding would change a tenth.
- CustomerRiskAssessor.AssessCustomerRisk: `decimal` sums and division are exact reals here. The 28-digit rounding of `decimal` division is not modelled.
- `Guid.NewGuid()`: the new application id is a parameter. Guids are their canonical text, and only equality and text concatenation are used.
- Aliasing of the `Requirements` list between versions of a record (`with` copies the reference, and `AddToRequirements` appends in place): the model keeps requirements as a value. Only the current record is ever read again, so nothing observable is lost.
- Null values: a null address list, country or customer reference never occurs in the model. A null registration number is `None`.
- The mappers from the SDK types (`InvoiceMapper.cs`, `CustomerMapper.cs`), controllers, `Program.cs`, `BindingModule.cs`, logging and configuration loading: they are not part of this model. The threshold is a parameter of the financing processor.
- The end-to-end controller test: its customers use the country "US", which the country check rejects, and it depends on a threshold that it does not show. The invoice arithmetic of that test is `WorkedExample`.
