/** The WHMCS records that the lookups, the login decision and the decoders share. */
module Whmcs {
  import opened Basics

  datatype Client = Client(id: string, email: string)

  /** A row of GetClientsProducts. `status` is None when WHMCS left the field out. */
  datatype ClientProduct = ClientProduct(pid: int, name: string, status: Option<string>)

  /** A row of GetProducts. */
  datatype Product = Product(pid: int, gid: int, name: string, kind: string, payType: string, groupName: string)

  datatype ClientDetails =
    ClientDetails(id: string, email: string, firstName: string, lastName: string, customFields: map<string, string>)

  /** Custom fields without a name are never kept. */
  predicate Named(details: ClientDetails) { "" !in details.customFields }
}
