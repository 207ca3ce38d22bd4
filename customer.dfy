/** Customers of the applicant's company, as read from the accounting
    platform: Models/Customer.cs. */
module CustomerModel {
  import opened Wrappers

  /** The only country whose customers are financed. */
  const UnitedStates: string := "United States"

  datatype Address = Address(country: string)

  /** A customer record. A registration number the platform does not
      provide (a `null` string) is `None`. */
  datatype Customer = Customer(id: string, registrationNumber: Option<string>, addresses: seq<Address>) {

    /** `IsUnitedStatesCustomer`: every address of the customer is in the
        United States (compared exactly, character by character). */
    function IsUnitedStatesCustomer(): (r: bool)
      ensures r <==> forall i :: 0 <= i < |addresses| ==> addresses[i].country == UnitedStates
    {
      AllInUnitedStates(addresses)
    }

    /** `!string.IsNullOrEmpty(RegistrationNumber)`: false exactly when the
        number is missing or the empty string. */
    function HasRegistrationNumber(): (r: bool)
      ensures !r <==> registrationNumber == None || registrationNumber == Some("")
    {
      registrationNumber.Some? && registrationNumber.value != ""
    }
  }

  /** `Addresses.All(x => x.Country == "United States")`, one address at a time. */
  function AllInUnitedStates(addresses: seq<Address>): (r: bool)
    ensures r <==> forall i :: 0 <= i < |addresses| ==> addresses[i].country == UnitedStates
  {
    if addresses == [] then true
    else addresses[0].country == UnitedStates && AllInUnitedStates(addresses[1..])
  }

  /** The concentration risk computed for one customer. */
  datatype CustomerRisk = CustomerRisk(customerId: string, risk: real)

  /** A customer without addresses passes the country check. */
  lemma NoAddressIsUnitedStates(c: Customer)
    requires c.addresses == []
    ensures c.IsUnitedStatesCustomer()
  {
  }

  /** The country check reads only the addresses: neither the id nor the
      registration number affect it. */
  lemma CountryCheckReadsOnlyAddresses(c: Customer, d: Customer)
    requires c.addresses == d.addresses
    ensures c.IsUnitedStatesCustomer() == d.IsUnitedStatesCustomer()
  {
  }

  /** The comparison is exact: an abbreviation or a different case does not qualify. */
  lemma CountryCheckIsExact(c: Customer)
    requires |c.addresses| > 0
    requires c.addresses[0].country == "US" || c.addresses[0].country == "united states"
    ensures !c.IsUnitedStatesCustomer()
  {
  }
}
