/** The workflow of an application: Orchestrators/ApplicationOrchestrator.cs.
    Each operation is specified by a function from the store's contents to a
    `Step`: the new contents and what the call returned or threw. Each alert
    is stated as the same sequence of store steps (`StatusStep`,
    `ConnectionStep`, `RequirementStep`) the orchestrator makes; lemmas then
    say what the sequence amounts to. */
module ApplicationOrchestrator {
  import opened Wrappers
  import opened Exceptions
  import opened InvoiceModel
  import opened ApplicationModel
  import opened AlertModel
  import opened DataClient
  import opened ApplicationStore
  import opened FinancingProcessor

  /** The data-connection status that marks the accounts as linked. */
  const LinkedStatus: string := "Linked"

  function NoAccountingConnection(dataConnectionId: Guid): string {
    "Cannot update data type sync status as no accounting data connection exists with id " + dataConnectionId
  }

  /** The name under which each requirement's data type is synchronised. */
  function DataTypeName(requirement: ApplicationDataRequirements): string {
    match requirement
    case Invoices => "invoices"
    case Customers => "customers"
  }

  /** `GetRequirementByDataType`: the requirement a synchronised data type
      fulfils, if any; names are compared exactly. */
  function GetRequirementByDataType(dataType: string): (r: Option<ApplicationDataRequirements>)
    ensures r == Some(Customers) <==> dataType == "customers"
    ensures r == Some(Invoices) <==> dataType == "invoices"
    ensures r.None? <==> dataType != "customers" && dataType != "invoices"
  {
    match dataType
    case "customers" => Some(Customers)
    case "invoices" => Some(Invoices)
    case _ => None
  }

  /** Each requirement is recognised from its own data type name, and no other. */
  lemma DataTypeNameRoundTrip(requirement: ApplicationDataRequirements, dataType: string)
    ensures GetRequirementByDataType(DataTypeName(requirement)) == Some(requirement)
    ensures GetRequirementByDataType(dataType) == Some(requirement) ==> dataType == DataTypeName(requirement)
  {
  }

  /** The status `UpdateApplicationStatusGivenRequirements` writes: collection
      is complete when every requirement value has been fulfilled. */
  function StatusGivenRequirements(requirements: seq<ApplicationDataRequirements>): (status: ApplicationStatus)
    ensures status == DataCollectionComplete || status == CollectingData
    ensures status == DataCollectionComplete <==> Invoices in requirements && Customers in requirements
  {
    if forall x :: x in ApplicationRequirements ==> x in requirements then DataCollectionComplete else CollectingData
  }

  /** `platforms.Any(x => x.Key == platformKey)` */
  function AnyPlatformHasKey(platforms: seq<Platform>, platformKey: string): (r: bool)
    ensures r <==> exists p :: p in platforms && p.key == platformKey
  {
    if platforms == [] then false
    else platforms[0].key == platformKey || AnyPlatformHasKey(platforms[1..], platformKey)
  }

  /** `IsAccountingPlatformAsync`: whether the key names one of the platforms
      the client lists; a failed listing throws. */
  function IsAccountingPlatform(client: CodatDataClient, platformKey: string): (r: Result<bool, Exception>)
    ensures client.getAccountingPlatforms.Failure? ==> r == Failure(client.getAccountingPlatforms.error)
    ensures client.getAccountingPlatforms.Success? ==>
      r == Success(exists p :: p in client.getAccountingPlatforms.value && p.key == platformKey)
  {
    var platforms :- client.getAccountingPlatforms;
    Success(AnyPlatformHasKey(platforms, platformKey))
  }

  /** `UpdateCodatDataConnectionAsync`: an alert about an accounting platform
      records the connection on the company's application and, when the new
      status is exactly "Linked", looks the application up again and marks
      it AccountsLinked. Alerts about other platforms change nothing. */
  function ConnectionAlertStep(s: StoreState, alert: CodatDataConnectionStatusAlert, client: CodatDataClient): (r: Step)
    requires Consistent(s)
    ensures Consistent(r.state)
  {
    match IsAccountingPlatform(client, alert.data.platformKey)
    case Failure(e) => Step(s, Fail(e))
    case Success(isAccountingPlatform) =>
      if !isAccountingPlatform then Step(s, Pass)
      else
        var connected := ConnectionStep(s, alert.companyId, alert.data.dataConnectionId);
        if connected.outcome.Fail? || alert.data.newStatus != LinkedStatus then connected
        else match LookupByCompany(connected.state, alert.companyId)
          case Failure(e) => Step(connected.state, Fail(e))
          case Success(application) => StatusStep(connected.state, application.id, AccountsLinked)
  }

  /** `UpdateApplicationStatusGivenRequirements` */
  function StatusGivenRequirementsStep(s: StoreState, id: Guid): (r: Step)
    requires Consistent(s)
    ensures Consistent(r.state)
  {
    match Lookup(s, id)
    case Failure(e) => Step(s, Fail(e))
    case Success(updatedApplication) => StatusStep(s, id, StatusGivenRequirements(updatedApplication.requirements))
  }

  /** `TryProcessFinancingAsync`: recompute the status and run the financing
      when data collection is complete. */
  function TryProcessFinancingStep(
    s: StoreState, id: Guid, client: CodatDataClient, parameters: InvoiceFinancingParameters, today: Date)
    : (r: Step)
    requires Consistent(s)
    ensures Consistent(r.state)
  {
    var updated := StatusGivenRequirementsStep(s, id);
    if updated.outcome.Fail? then updated
    else match Lookup(updated.state, id)
      case Failure(e) => Step(updated.state, Fail(e))
      case Success(app) =>
        if app.status == DataCollectionComplete then FinancingStep(updated.state, id, client, parameters, today)
        else Step(updated.state, Pass)
  }

  /** `UpdateDataTypeSyncStatusAsync` */
  function SyncAlertStep(
    s: StoreState, alert: CodatDataSyncCompleteAlert, client: CodatDataClient,
    parameters: InvoiceFinancingParameters, today: Date)
    : (r: Step)
    requires Consistent(s)
    ensures Consistent(r.state)
  {
    match LookupByCompany(s, alert.companyId)
    case Failure(e) => Step(s, Fail(e))
    case Success(application) =>
      if application.accountingConnection.None? then
        Step(s, Fail(ApplicationOrchestratorException(NoAccountingConnection(alert.dataConnectionId))))
      else if application.accountingConnection.value != alert.dataConnectionId then Step(s, Pass)
      else match GetRequirementByDataType(alert.data.dataType)
        case None => Step(s, Pass)
        case Some(requirement) =>
          var added := RequirementStep(s, alert.companyId, requirement);
          if added.outcome.Fail? then added
          else TryProcessFinancingStep(added.state, application.id, client, parameters, today)
  }

  /** What a connection alert amounts to: when the platforms can be listed,
      the key is an accounting platform's and the company has an
      application, its first application gets the connection, and also the
      status AccountsLinked exactly when the new status is "Linked";
      nothing else changes. Otherwise the store is unchanged, and the call
      fails unless the alert was simply about another platform. */
  lemma ConnectionAlertEffect(s: StoreState, alert: CodatDataConnectionStatusAlert, client: CodatDataClient)
    requires Consistent(s)
    ensures var r := ConnectionAlertStep(s, alert, client);
      var lookup := LookupByCompany(s, alert.companyId);
      && (client.getAccountingPlatforms.Failure? ==> r == Step(s, Fail(client.getAccountingPlatforms.error)))
      && (IsAccountingPlatform(client, alert.data.platformKey) == Success(false) ==> r == Step(s, Pass))
      && (IsAccountingPlatform(client, alert.data.platformKey) == Success(true) && lookup.Failure? ==>
            r == Step(s, Fail(lookup.error)))
      && (IsAccountingPlatform(client, alert.data.platformKey) == Success(true) && lookup.Success? ==>
            r == Step(Put(s, lookup.value.(
                      accountingConnection := Some(alert.data.dataConnectionId),
                      status := if alert.data.newStatus == LinkedStatus then AccountsLinked else lookup.value.status)),
                    Pass))
  {
    var lookup := LookupByCompany(s, alert.companyId);
    if IsAccountingPlatform(client, alert.data.platformKey) == Success(true) && lookup.Success? {
      var app := lookup.value;
      var connected := app.(accountingConnection := Some(alert.data.dataConnectionId));
      LookupByCompanyAfterPut(s, connected, alert.companyId);
      if alert.data.newStatus == LinkedStatus {
        PutOverwrites(s, connected, connected.(status := AccountsLinked));
      }
    }
  }

  /** Delivering the same connection alert again changes nothing more, and
      gives the same outcome, whether the first delivery passed or failed. */
  lemma ConnectionAlertIdempotent(s: StoreState, alert: CodatDataConnectionStatusAlert, client: CodatDataClient)
    requires Consistent(s)
    ensures var once := ConnectionAlertStep(s, alert, client);
      ConnectionAlertStep(once.state, alert, client) == once
  {
    var once := ConnectionAlertStep(s, alert, client);
    ConnectionAlertEffect(s, alert, client);
    ConnectionAlertEffect(once.state, alert, client);
    var lookup := LookupByCompany(s, alert.companyId);
    if IsAccountingPlatform(client, alert.data.platformKey) == Success(true) && lookup.Success? {
      var app := lookup.value;
      var updated := app.(
        accountingConnection := Some(alert.data.dataConnectionId),
        status := if alert.data.newStatus == LinkedStatus then AccountsLinked else app.status);
      LookupByCompanyAfterPut(s, updated, alert.companyId);
      PutOverwrites(s, updated, updated);
    }
  }

  /** What a sync-complete alert amounts to. The company's first application
      must exist and have a connection, else the call fails and nothing
      changes; an alert over another connection, or for a data type that is
      not a requirement, changes nothing. Otherwise the requirement is added,
      the status becomes DataCollectionComplete or CollectingData from the
      grown list, and in the first case the financing runs on the result. */
  lemma SyncAlertEffect(
    s: StoreState, alert: CodatDataSyncCompleteAlert, client: CodatDataClient,
    parameters: InvoiceFinancingParameters, today: Date)
    requires Consistent(s)
    ensures var r := SyncAlertStep(s, alert, client, parameters, today);
      var lookup := LookupByCompany(s, alert.companyId);
      var requirement := GetRequirementByDataType(alert.data.dataType);
      && (lookup.Failure? ==> r == Step(s, Fail(lookup.error)))
      && (lookup.Success? && lookup.value.accountingConnection.None? ==>
            r == Step(s, Fail(ApplicationOrchestratorException(NoAccountingConnection(alert.dataConnectionId)))))
      && (lookup.Success? && lookup.value.accountingConnection.Some? &&
          (lookup.value.accountingConnection.value != alert.dataConnectionId || requirement.None?) ==>
            r == Step(s, Pass))
      && (lookup.Success? && lookup.value.accountingConnection == Some(alert.dataConnectionId) && requirement.Some? ==>
            r == SyncAlertCollected(s, lookup.value, requirement.value, client, parameters, today))
  {
    var lookup := LookupByCompany(s, alert.companyId);
    var requirement := GetRequirementByDataType(alert.data.dataType);
    if lookup.Success? && lookup.value.accountingConnection == Some(alert.dataConnectionId) && requirement.Some? {
      SyncAlertCollects(s, alert, client, parameters, today);
    }
  }

  /** The state a sync alert that fulfils `requirement` leads to: the
      requirement added, the status recomputed from the grown list, and the
      financing run on the result when collection is complete. */
  function SyncAlertCollected(
    s: StoreState, app: Application, requirement: ApplicationDataRequirements, client: CodatDataClient,
    parameters: InvoiceFinancingParameters, today: Date)
    : (r: Step)
    requires Consistent(s) && app.id in s.data && s.data[app.id] == app
    ensures Consistent(r.state)
  {
    var requirements := WithRequirement(app.requirements, requirement);
    var status := StatusGivenRequirements(requirements);
    var collected := Put(s, app.(requirements := requirements, status := status));
    if status == DataCollectionComplete then FinancingStep(collected, app.id, client, parameters, today)
    else Step(collected, Pass)
  }

  lemma SyncAlertCollects(
    s: StoreState, alert: CodatDataSyncCompleteAlert, client: CodatDataClient,
    parameters: InvoiceFinancingParameters, today: Date)
    requires Consistent(s)
    requires LookupByCompany(s, alert.companyId).Success?
    requires LookupByCompany(s, alert.companyId).value.accountingConnection == Some(alert.dataConnectionId)
    requires GetRequirementByDataType(alert.data.dataType).Some?
    ensures SyncAlertStep(s, alert, client, parameters, today) ==
      SyncAlertCollected(s, LookupByCompany(s, alert.companyId).value, GetRequirementByDataType(alert.data.dataType).value,
        client, parameters, today)
  {
    var app := LookupByCompany(s, alert.companyId).value;
    var requirement := GetRequirementByDataType(alert.data.dataType).value;
    var added := app.(requirements := WithRequirement(app.requirements, requirement));
    assert RequirementStep(s, alert.companyId, requirement) == Step(Put(s, added), Pass);
    TryProcessFinancingEffect(Put(s, added), app.id, client, parameters, today);
    PutOverwrites(s, added, added.(status := StatusGivenRequirements(added.requirements)));
  }

  /** What `TryProcessFinancingAsync` amounts to for a stored id: the status
      is recomputed from the record's requirements, and the financing runs on
      the result when collection is complete. */
  lemma TryProcessFinancingEffect(
    s: StoreState, id: Guid, client: CodatDataClient, parameters: InvoiceFinancingParameters, today: Date)
    requires Consistent(s) && id in s.data
    ensures var app := s.data[id];
      var status := StatusGivenRequirements(app.requirements);
      var updated := Put(s, app.(status := status));
      TryProcessFinancingStep(s, id, client, parameters, today) ==
        if status == DataCollectionComplete then FinancingStep(updated, id, client, parameters, today)
        else Step(updated, Pass)
  {
    var app := s.data[id];
    var updated := Put(s, app.(status := StatusGivenRequirements(app.requirements)));
    assert StatusGivenRequirementsStep(s, id) == Step(updated, Pass);
    assert Lookup(updated, id) == Success(app.(status := StatusGivenRequirements(app.requirements)));
  }

  /** The financing runs on a sync alert exactly when the alert's data type
      completes the set of requirements: an application connected over the
      alert's connection that has already fulfilled every other requirement. */
  lemma FinancingRunsOnceAllDataSynced(
    s: StoreState, alert: CodatDataSyncCompleteAlert, client: CodatDataClient,
    parameters: InvoiceFinancingParameters, today: Date)
    requires Consistent(s)
    requires LookupByCompany(s, alert.companyId).Success?
    requires LookupByCompany(s, alert.companyId).value.accountingConnection == Some(alert.dataConnectionId)
    requires GetRequirementByDataType(alert.data.dataType).Some?
    ensures var app := LookupByCompany(s, alert.companyId).value;
      var requirement := GetRequirementByDataType(alert.data.dataType).value;
      var r := SyncAlertStep(s, alert, client, parameters, today);
      && r.state.data.Keys == s.data.Keys
      && ((forall req :: req in ApplicationRequirements && req != requirement ==> req in app.requirements) ==>
           r.state.data[app.id].status in {Complete, ProcessingError})
      && ((exists req :: req in ApplicationRequirements && req != requirement && req !in app.requirements) ==>
           r.outcome == Pass && r.state.data[app.id].status == CollectingData)
  {
    SyncAlertEffect(s, alert, client, parameters, today);
    var app := LookupByCompany(s, alert.companyId).value;
    var requirement := GetRequirementByDataType(alert.data.dataType).value;
    var requirements := WithRequirement(app.requirements, requirement);
    var collected := Put(s, app.(requirements := requirements, status := StatusGivenRequirements(requirements)));
    FinancingEndsCompleteOrInError(collected, app.id, client, parameters, today);
    SyncAlertKeepsRequirements(s, alert, client, parameters, today);
  }

  /** `t` has the same applications as `s`, and every requirement fulfilled
      in `s` is still fulfilled in `t`. */
  ghost predicate RequirementsKept(s: StoreState, t: StoreState) {
    && t.order == s.order && t.data.Keys == s.data.Keys
    && forall id, req :: id in s.data && req in s.data[id].requirements ==> req in t.data[id].requirements
  }

  lemma RequirementsKeptTransitive(a: StoreState, b: StoreState, c: StoreState)
    requires RequirementsKept(a, b) && RequirementsKept(b, c)
    ensures RequirementsKept(a, c)
  {
  }

  lemma FinancingKeepsRequirements(
    s: StoreState, id: Guid, client: CodatDataClient, parameters: InvoiceFinancingParameters, today: Date)
    requires Consistent(s)
    ensures RequirementsKept(s, FinancingStep(s, id, client, parameters, today).state)
  {
    FinancingEndsCompleteOrInError(s, id, client, parameters, today);
  }

  /** A sync alert never takes a fulfilled requirement away from any
      application, and never changes which applications exist. */
  lemma SyncAlertKeepsRequirements(
    s: StoreState, alert: CodatDataSyncCompleteAlert, client: CodatDataClient,
    parameters: InvoiceFinancingParameters, today: Date)
    requires Consistent(s)
    ensures RequirementsKept(s, SyncAlertStep(s, alert, client, parameters, today).state)
  {
    SyncAlertEffect(s, alert, client, parameters, today);
    var lookup := LookupByCompany(s, alert.companyId);
    var requirement := GetRequirementByDataType(alert.data.dataType);
    if lookup.Success? && lookup.value.accountingConnection == Some(alert.dataConnectionId) && requirement.Some? {
      var app := lookup.value;
      var requirements := WithRequirement(app.requirements, requirement.value);
      var collected := Put(s, app.(requirements := requirements, status := StatusGivenRequirements(requirements)));
      assert RequirementsKept(s, collected);
      if StatusGivenRequirements(requirements) == DataCollectionComplete {
        FinancingKeepsRequirements(collected, app.id, client, parameters, today);
        RequirementsKeptTransitive(s, collected, FinancingStep(collected, app.id, client, parameters, today).state);
      }
    }
  }

  /** The status is overwritten unconditionally, so a sync alert replayed
      after all data has been collected resets the status to
      DataCollectionComplete and runs the financing again, whatever the
      status was (Complete and ProcessingError are not final). */
  lemma ReplayedSyncAlertRerunsFinancing(
    s: StoreState, alert: CodatDataSyncCompleteAlert, client: CodatDataClient,
    parameters: InvoiceFinancingParameters, today: Date)
    requires Consistent(s)
    requires LookupByCompany(s, alert.companyId).Success?
    requires LookupByCompany(s, alert.companyId).value.accountingConnection == Some(alert.dataConnectionId)
    requires Invoices in LookupByCompany(s, alert.companyId).value.requirements
    requires Customers in LookupByCompany(s, alert.companyId).value.requirements
    requires GetRequirementByDataType(alert.data.dataType).Some?
    ensures var app := LookupByCompany(s, alert.companyId).value;
      SyncAlertStep(s, alert, client, parameters, today) ==
        FinancingStep(Put(s, app.(status := DataCollectionComplete)), app.id, client, parameters, today)
  {
    SyncAlertEffect(s, alert, client, parameters, today);
    var app := LookupByCompany(s, alert.companyId).value;
    var requirement := GetRequirementByDataType(alert.data.dataType).value;
    assert WithRequirement(app.requirements, requirement) == app.requirements;
  }

  class ApplicationOrchestrator {
    const store: ApplicationStore
    const financingProcessor: FinancingProcessor

    /** The financing processor works on the orchestrator's own store. */
    ghost predicate Valid()
      reads this, store
    {
      store.Valid() && financingProcessor.store == store
    }

    constructor (store: ApplicationStore, financingProcessor: FinancingProcessor)
      requires store.Valid() && financingProcessor.store == store
      ensures Valid()
      ensures this.store == store && this.financingProcessor == financingProcessor
    {
      this.store := store;
      this.financingProcessor := financingProcessor;
    }

    /** Creates a company named after the new application id, then the
        application for that company. */
    method CreateApplicationAsync(applicationId: Guid, client: CodatDataClient) returns (r: Result<NewApplicationDetails, Exception>)
      requires Valid()
      modifies store
      ensures Valid()
      ensures client.createCompany(applicationId).Failure? ==>
        r == Failure(client.createCompany(applicationId).error) && store.State() == old(store.State())
      ensures client.createCompany(applicationId).Success? && applicationId in old(store.data) ==>
        r == Failure(DuplicateKeyException(applicationId)) && store.State() == old(store.State())
      ensures client.createCompany(applicationId).Success? && applicationId !in old(store.data) ==>
        var company := client.createCompany(applicationId).value;
        && r == Success(NewApplicationDetails(applicationId, Started, company.id))
        && store.State() == Insert(old(store.State()), NewApplication(applicationId, company.id))
    {
      var company := client.createCompany(applicationId);
      if company.Failure? {
        return Failure(company.error);
      }
      r := store.CreateApplication(applicationId, company.value.id);
    }

    /** The stored application with that id; a missing id is reported as an
        orchestrator error carrying the store's message. */
    method GetApplication(id: Guid) returns (r: Result<Application, Exception>)
      requires Valid()
      ensures r.Success? <==> id in store.data
      ensures r.Success? ==> r.value == store.data[id] && r.value.id == id
      ensures r.Failure? ==> r.error == ApplicationOrchestratorException(NoApplicationWithId(id))
    {
      var application := store.GetApplication(id);
      if application.Failure? {
        return Failure(ApplicationOrchestratorException(application.error.message));
      }
      r := application;
    }

    method UpdateCodatDataConnectionAsync(alert: CodatDataConnectionStatusAlert, client: CodatDataClient)
      returns (r: Outcome<Exception>)
      requires Valid()
      modifies store
      ensures Valid()
      ensures Step(store.State(), r) == ConnectionAlertStep(old(store.State()), alert, client)
    {
      var isAccountingPlatform := IsAccountingPlatformAsync(alert.data.platformKey, client);
      if isAccountingPlatform.Failure? {
        return Fail(isAccountingPlatform.error);
      }
      if isAccountingPlatform.value {
        r := store.SetAccountingConnectionForCompany(alert.companyId, alert.data.dataConnectionId);
        if r.Fail? {
          return;
        }
        if alert.data.newStatus == LinkedStatus {
          var application := store.GetApplicationByCompanyId(alert.companyId);
          if application.Failure? {
            // The connection was just recorded on this company's application.
            assert false;
          }
          r := store.UpdateApplicationStatus(application.value.id, AccountsLinked);
        }
      } else {
        r := Pass;
      }
    }

    method UpdateDataTypeSyncStatusAsync(
      alert: CodatDataSyncCompleteAlert, client: CodatDataClient, today: Date)
      returns (r: Outcome<Exception>)
      requires Valid()
      modifies store
      ensures Valid()
      ensures Step(store.State(), r) ==
        SyncAlertStep(old(store.State()), alert, client, financingProcessor.parameters, today)
    {
      var application := store.GetApplicationByCompanyId(alert.companyId);
      if application.Failure? {
        return Fail(application.error);
      }
      if application.value.accountingConnection.None? {
        return Fail(ApplicationOrchestratorException(NoAccountingConnection(alert.dataConnectionId)));
      }
      if application.value.accountingConnection.value != alert.dataConnectionId {
        return Pass;
      }
      var requirement := GetRequirementByDataType(alert.data.dataType);
      if requirement.None? {
        return Pass;
      }
      r := store.AddFulfilledRequirementForCompany(alert.companyId, requirement.value);
      if r.Fail? {
        return;
      }
      r := TryProcessFinancingAsync(application.value.id, client, today);
    }

    method TryProcessFinancingAsync(id: Guid, client: CodatDataClient, today: Date) returns (r: Outcome<Exception>)
      requires Valid()
      modifies store
      ensures Valid()
      ensures Step(store.State(), r) ==
        TryProcessFinancingStep(old(store.State()), id, client, financingProcessor.parameters, today)
    {
      r := UpdateApplicationStatusGivenRequirements(id);
      if r.Fail? {
        return;
      }
      var status := store.GetApplicationStatus(id);
      if status.Failure? {
        return Fail(status.error);
      }
      if status.value == DataCollectionComplete {
        r := financingProcessor.ProcessFinancingForApplication(id, client, today);
      }
    }

    method UpdateApplicationStatusGivenRequirements(id: Guid) returns (r: Outcome<Exception>)
      requires Valid()
      modifies store
      ensures Valid()
      ensures Step(store.State(), r) == StatusGivenRequirementsStep(old(store.State()), id)
    {
      var updatedApplication := store.GetApplication(id);
      if updatedApplication.Failure? {
        return Fail(updatedApplication.error);
      }
      var status := StatusGivenRequirements(updatedApplication.value.requirements);
      r := store.UpdateApplicationStatus(id, status);
    }

    method IsAccountingPlatformAsync(platformKey: string, client: CodatDataClient) returns (r: Result<bool, Exception>)
      ensures r == IsAccountingPlatform(client, platformKey)
    {
      var platforms := client.getAccountingPlatforms;
      if platforms.Failure? {
        return Failure(platforms.error);
      }
      r := Success(AnyPlatformHasKey(platforms.value, platformKey));
    }
  }
}
