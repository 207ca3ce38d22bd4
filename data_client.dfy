/** The accounting-data client (DataClients/CodatDataClient.cs, interface
    `ICodatDataClient`), seen only through the replies it gives: each call is
    a function from its arguments to a list or to the exception it throws. */
module DataClient {
  import opened Wrappers
  import opened Exceptions
  import opened ApplicationModel
  import opened InvoiceModel
  import opened CustomerModel

  /** Models/Company.cs */
  datatype Company = Company(id: Guid, name: string)

  datatype Platform = Platform(key: string)

  datatype CodatDataClient = CodatDataClient(
    createCompany: string -> Result<Company, Exception>,
    getAccountingPlatforms: Result<seq<Platform>, Exception>,
    getUnpaidInvoices: Guid -> Result<seq<Invoice>, Exception>,
    getCustomers: Guid -> Result<seq<Customer>, Exception>,
    getPaidInvoicesForCustomer: (Guid, string) -> Result<seq<Invoice>, Exception>)
}
