/** Financing applications and their life-cycle values: Models/Application.cs. */
module ApplicationModel {
  import opened Wrappers
  import opened InvoiceModel

  /** A GUID, represented by its canonical text. Only equality and the
      text form (in URLs and messages) are used. */
  type Guid = string

  datatype ApplicationStatus =
    | Started
    | AccountsLinked
    | CollectingData
    | DataCollectionComplete
    | Processing
    | ProcessingError
    | Complete

  /** The kinds of accounting data an application must collect. */
  datatype ApplicationDataRequirements = Invoices | Customers

  /** Every requirement, in declaration order (`Enum.GetValues`). */
  const ApplicationRequirements: seq<ApplicationDataRequirements> := [Invoices, Customers]

  const LinkUrlPrefix: string := "https://link.codat.io/company/"

  /** What creating an application returns. */
  datatype NewApplicationDetails = NewApplicationDetails(id: Guid, status: ApplicationStatus, codatCompanyId: Guid) {

    /** The hosted link through which the applicant connects an accounting
        platform: the fixed prefix followed by the company id. */
    function LinkUrl(): (url: string)
      ensures |url| >= 1
      ensures |url| == |LinkUrlPrefix| + |codatCompanyId|
      ensures url[..|LinkUrlPrefix|] == LinkUrlPrefix && url[|LinkUrlPrefix|..] == codatCompanyId
    {
      LinkUrlPrefix + codatCompanyId
    }
  }

  /** Two sets of details have the same link exactly when they name the same company. */
  lemma LinkUrlIdentifiesCompany(a: NewApplicationDetails, b: NewApplicationDetails)
    ensures a.LinkUrl() == b.LinkUrl() <==> a.codatCompanyId == b.codatCompanyId
  {
    if a.LinkUrl() == b.LinkUrl() {
      assert a.codatCompanyId == a.LinkUrl()[|LinkUrlPrefix|..];
    }
  }

  /** A financing application. `Requirements` lists the data kinds fulfilled
      so far; `Decisions` is absent until financing has been computed. */
  datatype Application = Application(
    id: Guid,
    codatCompanyId: Guid,
    accountingConnection: Option<Guid>,
    requirements: seq<ApplicationDataRequirements>,
    status: ApplicationStatus,
    decisions: Option<seq<InvoiceDecision>>)

  /** `new Application { Id, CodatCompanyId, Status = Started }`: the other
      members keep their initial values. */
  function NewApplication(id: Guid, codatCompanyId: Guid): (a: Application)
    ensures a.id == id && a.codatCompanyId == codatCompanyId && a.status == Started
    ensures a.accountingConnection == None && a.decisions == None
    ensures forall r: ApplicationDataRequirements :: r !in a.requirements
  {
    Application(id, codatCompanyId, None, [], Started, None)
  }

  /** "All requirements" is the whole enumeration. */
  lemma ApplicationRequirementsAreEveryValue()
    ensures forall r: ApplicationDataRequirements :: r in ApplicationRequirements
    ensures |ApplicationRequirements| == 2 && ApplicationRequirements[0] != ApplicationRequirements[1]
  {
    forall r: ApplicationDataRequirements ensures r in ApplicationRequirements {
      if r.Invoices? { assert ApplicationRequirements[0] == r; } else { assert ApplicationRequirements[1] == r; }
    }
  }
}
