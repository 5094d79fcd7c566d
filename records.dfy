/**
 * The two tables of the store, as values: a customer and an address, the
 * request bodies that carry their fields, and the rows a SELECT returns.
 */
module Records {

  /** The fields of a customer row other than its id (also the POST and PUT body). */
  datatype Customer = Customer(firstName: string, lastName: string, phoneNumber: string)

  /** The fields of an address that a POST or PUT body supplies. */
  datatype AddressFields = AddressFields(details: string, city: string, state: string, pinCode: string)

  /** An address row other than its id: the owning customer and the body fields. */
  datatype Address = Address(customerId: int, fields: AddressFields)

  /** A row of `SELECT * FROM customers`. */
  datatype CustomerRow = CustomerRow(id: int, customer: Customer)

  /** A row of `SELECT * FROM addresses`. */
  datatype AddressRow = AddressRow(id: int, address: Address)
}
