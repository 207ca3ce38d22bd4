/** The in-memory store of applications: Services/ApplicationStore.cs.
    The dictionary `_data` is the map `data` together with `order`, the ids in
    the order they were added. A dictionary from which nothing is removed
    enumerates its values in that order, so "the first application of a
    company" is the first one in `order`. */
module ApplicationStore {
  import opened Wrappers
  import opened Sequences
  import opened Exceptions
  import opened InvoiceModel
  import opened ApplicationModel

  function NoApplicationWithId(id: Guid): string {
    "No application exists with id " + id
  }

  function NoApplicationForCompany(companyId: Guid): string {
    "No application exists for codat company id " + companyId
  }

  /** The contents of the store. */
  datatype StoreState = StoreState(data: map<Guid, Application>, order: seq<Guid>)

  /** Each id is listed once, every record sits under its own id, and no
      record lists a requirement twice. */
  ghost predicate Consistent(s: StoreState) {
    && (forall id :: id in s.data <==> id in s.order)
    && NoDuplicates(s.order)
    && (forall id :: id in s.data ==> s.data[id].id == id && NoDuplicates(s.data[id].requirements))
  }

  /** The outcome of an operation on the store: the new contents and what
      the call returned or threw. */
  datatype Step = Step(state: StoreState, outcome: Outcome<Exception>)

  /** The position in `order` of the first record of the company. */
  function FirstForCompany(data: map<Guid, Application>, order: seq<Guid>, companyId: Guid): (r: Option<nat>)
    requires forall i :: 0 <= i < |order| ==> order[i] in data
    ensures r.Some? ==> r.value < |order| && data[order[r.value]].codatCompanyId == companyId
    ensures r.Some? ==> forall j :: 0 <= j < r.value ==> data[order[j]].codatCompanyId != companyId
    ensures r.None? ==> forall j :: 0 <= j < |order| ==> data[order[j]].codatCompanyId != companyId
  {
    if order == [] then None
    else if data[order[0]].codatCompanyId == companyId then Some(0)
    else match FirstForCompany(data, order[1..], companyId)
      case None => None
      case Some(i) => Some(i + 1)
  }

  /** The first position depends only on the company ids of the records. */
  lemma {:induction false} FirstForCompanyReadsOnlyCompanies(
    data: map<Guid, Application>, data': map<Guid, Application>, order: seq<Guid>, companyId: Guid)
    requires forall i :: 0 <= i < |order| ==> order[i] in data && order[i] in data'
    requires forall i :: 0 <= i < |order| ==> data[order[i]].codatCompanyId == data'[order[i]].codatCompanyId
    ensures FirstForCompany(data, order, companyId) == FirstForCompany(data', order, companyId)
  {
    if order != [] {
      FirstForCompanyReadsOnlyCompanies(data, data', order[1..], companyId);
    }
  }

  /** `GetApplication`: the record stored under `id`. */
  function Lookup(s: StoreState, id: Guid): (r: Result<Application, Exception>)
    requires Consistent(s)
    ensures r.Success? <==> id in s.data
    ensures r.Success? ==> r.value == s.data[id] && r.value.id == id
    ensures r.Failure? ==> r.error == ApplicationStoreException(NoApplicationWithId(id))
  {
    if id in s.data then Success(s.data[id])
    else Failure(ApplicationStoreException(NoApplicationWithId(id)))
  }

  /** `GetApplicationByCompanyId`: the first stored record of the company. */
  function LookupByCompany(s: StoreState, companyId: Guid): (r: Result<Application, Exception>)
    requires Consistent(s)
    ensures r.Success? ==> r.value.id in s.data && s.data[r.value.id] == r.value && r.value.codatCompanyId == companyId
    ensures r.Success? ==> exists i :: (0 <= i < |s.order| && s.order[i] == r.value.id
      && forall j :: 0 <= j < i ==> s.data[s.order[j]].codatCompanyId != companyId)
    ensures r.Failure? <==> forall id :: id in s.data ==> s.data[id].codatCompanyId != companyId
    ensures r.Failure? ==> r.error == ApplicationStoreException(NoApplicationForCompany(companyId))
  {
    match FirstForCompany(s.data, s.order, companyId)
    case Some(i) => Success(s.data[s.order[i]])
    case None =>
      assert forall id :: id in s.data ==> s.data[id].codatCompanyId != companyId by {
        forall id | id in s.data ensures s.data[id].codatCompanyId != companyId {
          var j :| 0 <= j < |s.order| && s.order[j] == id;
        }
      }
      Failure(ApplicationStoreException(NoApplicationForCompany(companyId)))
  }

  /** `_data[app.Id] = app`: replaces one record and nothing else. */
  function Put(s: StoreState, app: Application): (r: StoreState)
    requires app.id in s.data
    ensures r.order == s.order && r.data.Keys == s.data.Keys
    ensures r.data[app.id] == app
    ensures forall id :: id in s.data && id != app.id ==> r.data[id] == s.data[id]
    ensures Consistent(s) && NoDuplicates(app.requirements) ==> Consistent(r)
  {
    s.(data := s.data[app.id := app])
  }

  /** A second write to the same id overwrites the first. */
  lemma PutOverwrites(s: StoreState, first: Application, second: Application)
    requires first.id in s.data && second.id == first.id
    ensures Put(Put(s, first), second) == Put(s, second)
  {
    assert Put(Put(s, first), second).data == Put(s, second).data;
  }

  /** `_data.Add(app.Id, app)` for an id not yet present. */
  function Insert(s: StoreState, app: Application): (r: StoreState)
    requires app.id !in s.data
    ensures r.data.Keys == s.data.Keys + {app.id} && r.order == s.order + [app.id]
    ensures r.data[app.id] == app
    ensures forall id :: id in s.data ==> r.data[id] == s.data[id]
    ensures Consistent(s) && NoDuplicates(app.requirements) ==> Consistent(r)
  {
    var r := StoreState(s.data[app.id := app], s.order + [app.id]);
    assert Consistent(s) ==> NoDuplicates(r.order) by {
      if Consistent(s) {
        forall i, j | 0 <= i < j < |r.order| ensures r.order[i] != r.order[j] {
          if j == |s.order| {
            assert r.order[i] == s.order[i] && s.order[i] in s.data;
          } else {
            assert r.order[i] == s.order[i] && r.order[j] == s.order[j];
          }
        }
      }
    }
    r
  }

  /** Replacing a record without changing its company leaves every lookup
      by company on the same id. */
  lemma LookupByCompanyAfterPut(s: StoreState, app: Application, companyId: Guid)
    requires Consistent(s) && app.id in s.data && NoDuplicates(app.requirements)
    requires app.codatCompanyId == s.data[app.id].codatCompanyId && app.id == s.data[app.id].id
    ensures LookupByCompany(Put(s, app), companyId).Success? == LookupByCompany(s, companyId).Success?
    ensures LookupByCompany(s, companyId).Success? ==>
      LookupByCompany(Put(s, app), companyId).value == Put(s, app).data[LookupByCompany(s, companyId).value.id]
  {
    var s' := Put(s, app);
    FirstForCompanyReadsOnlyCompanies(s.data, s'.data, s.order, companyId);
  }

  /** Adds `requirement` to the list unless it is already there. */
  function WithRequirement(requirements: seq<ApplicationDataRequirements>, requirement: ApplicationDataRequirements)
    : (r: seq<ApplicationDataRequirements>)
    ensures requirement in r
    ensures forall x :: x in r <==> x in requirements || x == requirement
    ensures |requirements| <= |r| <= |requirements| + 1 && r[..|requirements|] == requirements
    ensures NoDuplicates(requirements) ==> NoDuplicates(r)
  {
    if requirement in requirements then requirements else requirements + [requirement]
  }

  /** Adding the same requirement twice is adding it once. */
  lemma WithRequirementIdempotent(requirements: seq<ApplicationDataRequirements>, requirement: ApplicationDataRequirements)
    ensures WithRequirement(WithRequirement(requirements, requirement), requirement) == WithRequirement(requirements, requirement)
  {
  }

  /** `UpdateApplicationStatus` as a step: the new contents and the outcome. */
  function StatusStep(s: StoreState, id: Guid, status: ApplicationStatus): (r: Step)
    requires Consistent(s)
    ensures Consistent(r.state) && r.state.order == s.order && r.state.data.Keys == s.data.Keys
    ensures r.outcome.Pass? <==> id in s.data
    ensures r.outcome.Pass? ==> r.state.data[id] == s.data[id].(status := status)
    ensures r.outcome.Fail? ==> r.state == s && r.outcome.error == ApplicationStoreException(NoApplicationWithId(id))
  {
    match Lookup(s, id)
    case Failure(e) => Step(s, Fail(e))
    case Success(app) => Step(Put(s, app.(status := status)), Pass)
  }

  /** `SetAccountingConnectionForCompany` as a step. */
  function ConnectionStep(s: StoreState, companyId: Guid, dataConnectionId: Guid): (r: Step)
    requires Consistent(s)
    ensures Consistent(r.state) && r.state.order == s.order && r.state.data.Keys == s.data.Keys
    ensures r.outcome.Pass? <==> LookupByCompany(s, companyId).Success?
    ensures r.outcome.Pass? ==>
      r.state.data[LookupByCompany(s, companyId).value.id].accountingConnection == Some(dataConnectionId)
    ensures r.outcome.Fail? ==> r.state == s
  {
    match LookupByCompany(s, companyId)
    case Failure(e) => Step(s, Fail(e))
    case Success(app) => Step(Put(s, app.(accountingConnection := Some(dataConnectionId))), Pass)
  }

  /** `AddFulfilledRequirementForCompany` as a step. */
  function RequirementStep(s: StoreState, companyId: Guid, requirement: ApplicationDataRequirements): (r: Step)
    requires Consistent(s)
    ensures Consistent(r.state) && r.state.order == s.order && r.state.data.Keys == s.data.Keys
    ensures r.outcome.Pass? <==> LookupByCompany(s, companyId).Success?
    ensures r.outcome.Pass? ==> requirement in r.state.data[LookupByCompany(s, companyId).value.id].requirements
    ensures r.outcome.Fail? ==> r.state == s
  {
    match LookupByCompany(s, companyId)
    case Failure(e) => Step(s, Fail(e))
    case Success(app) => Step(Put(s, app.(requirements := WithRequirement(app.requirements, requirement))), Pass)
  }

  class ApplicationStore {
    var data: map<Guid, Application>
    var order: seq<Guid>
    /** Every status written by `UpdateApplicationStatus`, oldest first. */
    ghost var statusLog: seq<(Guid, ApplicationStatus)>

    function State(): StoreState
      reads this
    {
      StoreState(data, order)
    }

    ghost predicate Valid()
      reads this
    {
      Consistent(State())
    }

    constructor ()
      ensures Valid() && data == map[] && order == [] && statusLog == []
    {
      data, order := map[], [];
      statusLog := [];
    }

    /** Stores a new application with status Started; an id already present
        throws and leaves the store as it was. */
    method CreateApplication(applicationId: Guid, codatCompanyId: Guid) returns (r: Result<NewApplicationDetails, Exception>)
      requires Valid()
      modifies this
      ensures Valid() && statusLog == old(statusLog)
      ensures applicationId in old(data) ==>
        r == Failure(DuplicateKeyException(applicationId)) && State() == old(State())
      ensures applicationId !in old(data) ==>
        && r == Success(NewApplicationDetails(applicationId, Started, codatCompanyId))
        && State() == Insert(old(State()), NewApplication(applicationId, codatCompanyId))
    {
      var application := NewApplication(applicationId, codatCompanyId);
      if application.id in data {
        return Failure(DuplicateKeyException(application.id));
      }
      data := data[application.id := application];
      order := order + [application.id];
      r := Success(NewApplicationDetails(application.id, application.status, application.codatCompanyId));
    }

    method GetApplication(id: Guid) returns (r: Result<Application, Exception>)
      requires Valid()
      ensures r == Lookup(State(), id)
    {
      if id in data {
        r := Success(data[id]);
      } else {
        r := Failure(ApplicationStoreException(NoApplicationWithId(id)));
      }
    }

    method GetApplicationStatus(id: Guid) returns (r: Result<ApplicationStatus, Exception>)
      requires Valid()
      ensures r.Success? <==> id in data
      ensures r.Success? ==> r.value == data[id].status
      ensures r.Failure? ==> r.error == ApplicationStoreException(NoApplicationWithId(id))
    {
      var application := GetApplication(id);
      if application.Failure? {
        return Failure(application.error);
      }
      r := Success(application.value.status);
    }

    method GetApplicationByCompanyId(companyId: Guid) returns (r: Result<Application, Exception>)
      requires Valid()
      ensures r == LookupByCompany(State(), companyId)
    {
      r := LookupByCompany(State(), companyId);
    }

    /** Overwrites the connection of the company's application. */
    method SetAccountingConnectionForCompany(companyId: Guid, dataConnectionId: Guid) returns (r: Outcome<Exception>)
      requires Valid()
      modifies this
      ensures Valid() && statusLog == old(statusLog)
      ensures Step(State(), r) == ConnectionStep(old(State()), companyId, dataConnectionId)
    {
      var application := GetApplicationByCompanyId(companyId);
      if application.Failure? {
        return Fail(application.error);
      }
      data := data[application.value.id := application.value.(accountingConnection := Some(dataConnectionId))];
      r := Pass;
    }

    /** Overwrites the status of one application, whatever it was. */
    method UpdateApplicationStatus(id: Guid, status: ApplicationStatus) returns (r: Outcome<Exception>)
      requires Valid()
      modifies this
      ensures Valid()
      ensures statusLog == if id in old(data) then old(statusLog) + [(id, status)] else old(statusLog)
      ensures Step(State(), r) == StatusStep(old(State()), id, status)
    {
      var application := GetApplication(id);
      if application.Failure? {
        return Fail(application.error);
      }
      data := data[application.value.id := application.value.(status := status)];
      statusLog := statusLog + [(id, status)];
      r := Pass;
    }

    /** Adds the requirement to the company's application. */
    method AddFulfilledRequirementForCompany(companyId: Guid, requirement: ApplicationDataRequirements) returns (r: Outcome<Exception>)
      requires Valid()
      modifies this
      ensures Valid() && statusLog == old(statusLog)
      ensures Step(State(), r) == RequirementStep(old(State()), companyId, requirement)
    {
      var application := GetApplicationByCompanyId(companyId);
      if application.Failure? {
        return Fail(application.error);
      }
      AddToRequirements(application.value.id, requirement);
      r := Pass;
    }

    /** Replaces the decisions of one application. */
    method AddInvoiceDecisions(id: Guid, invoiceDecisions: seq<InvoiceDecision>) returns (r: Outcome<Exception>)
      requires Valid()
      modifies this
      ensures Valid() && statusLog == old(statusLog)
      ensures match old(Lookup(State(), id))
        case Failure(e) => r == Fail(e) && State() == old(State())
        case Success(app) => r == Pass && State() == Put(old(State()), app.(decisions := Some(invoiceDecisions)))
    {
      var application := GetApplication(id);
      if application.Failure? {
        return Fail(application.error);
      }
      data := data[application.value.id := application.value.(decisions := Some(invoiceDecisions))];
      r := Pass;
    }

    /** Appends the requirement to the record's list when it is not there yet. */
    method AddToRequirements(id: Guid, requirement: ApplicationDataRequirements)
      requires Valid() && id in data
      modifies this
      ensures Valid() && statusLog == old(statusLog)
      ensures State() == Put(old(State()), old(data[id]).(requirements := WithRequirement(old(data[id].requirements), requirement)))
    {
      if requirement !in data[id].requirements {
        data := data[id := data[id].(requirements := data[id].requirements + [requirement])];
      }
    }
  }
}
