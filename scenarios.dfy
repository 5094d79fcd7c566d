/**
 * Clients of the handlers: sequences of requests and what the API promises
 * about the later answer, derived from the handlers' contracts alone.
 */
module Scenarios {
  import opened Records
  import opened Responses
  import opened Handlers

  /** A created customer is read back with exactly the submitted fields and the returned id. */
  method CreateThenGet(db: Database, body: Customer) returns (created: Response, fetched: Response)
    requires db.Valid()
    modifies db
    ensures db.Valid()
    ensures created.status == StatusCreated && created.payload.Created?
    ensures fetched == Response(StatusOk, CustomerData("success", CustomerRow(created.payload.id, body)))
  {
    created := db.CreateCustomer(body, Ok);
    fetched := db.GetCustomer(created.payload.id, Ok);
  }

  /** An update replaces all three fields: the row read back is the new body, nothing merged. */
  method UpdateThenGet(db: Database, id: int, body: Customer) returns (updated: Response, fetched: Response)
    requires db.Valid() && id in db.customers
    modifies db
    ensures db.Valid()
    ensures updated == Response(StatusOk, Message("Customer updated"))
    ensures fetched == Response(StatusOk, CustomerData("success", CustomerRow(id, body)))
  {
    updated := db.UpdateCustomer(id, body, Ok);
    fetched := db.GetCustomer(id, Ok);
  }

  /** After a delete the customer is not found, whether or not it existed before. */
  method DeleteThenGet(db: Database, id: int) returns (deleted: Response, fetched: Response)
    requires db.Valid()
    modifies db
    ensures db.Valid()
    ensures deleted == Response(StatusOk, Message("Customer deleted"))
    ensures fetched == Response(StatusNotFound, Error("Customer not found"))
  {
    deleted := db.DeleteCustomer(id, Ok);
    fetched := db.GetCustomer(id, Ok);
  }

  /** Updating an address that does not exist answers 200 and changes no table. */
  method UpdateMissingAddress(db: Database, addressId: int, body: AddressFields) returns (updated: Response)
    requires db.Valid() && addressId !in db.addresses
    modifies db
    ensures db.Valid()
    ensures updated == Response(StatusOk, Message("Address updated"))
    ensures db.addresses == old(db.addresses) && db.customers == old(db.customers)
  {
    updated := db.UpdateAddress(addressId, body, Ok);
  }

  /** Deleting an address that does not exist answers 200 and changes no table. */
  method DeleteMissingAddress(db: Database, addressId: int) returns (deleted: Response)
    requires db.Valid() && addressId !in db.addresses
    modifies db
    ensures db.Valid()
    ensures deleted == Response(StatusOk, Message("Address deleted"))
    ensures db.addresses == old(db.addresses) && db.customers == old(db.customers)
  {
    deleted := db.DeleteAddress(addressId, Ok);
  }

  /** An address added for a customer is listed among that customer's addresses. */
  method AddAddressThenList(db: Database, customerId: int, body: AddressFields)
    returns (created: Response, listed: Response)
    requires db.Valid()
    modifies db
    ensures db.Valid()
    ensures created.status == StatusCreated && created.payload.Created?
    ensures listed.payload.AddressList? &&
      AddressRow(created.payload.id, Address(customerId, body)) in listed.payload.addresses
  {
    created := db.CreateAddress(customerId, body, Ok);
    assert db.addresses[created.payload.id] == Address(customerId, body);
    listed := db.ListAddresses(customerId, Ok);
  }

  /** A customer with no addresses gets an empty list, not an error. */
  method ListWithoutAddresses(db: Database, customerId: int) returns (listed: Response)
    requires db.Valid()
    requires forall id :: id in db.addresses ==> db.addresses[id].customerId != customerId
    ensures listed == Response(StatusOk, AddressList("success", []))
  {
    listed := db.ListAddresses(customerId, Ok);
  }

  /**
   * On a fresh store: create Asha Rao, 555-0100, then read the customer back
   * by the id the create returned.
   */
  method AshaRao() returns (created: Response, fetched: Response)
    ensures created == Response(StatusCreated, Created("Customer created", 1))
    ensures fetched == Response(StatusOk, CustomerData("success", CustomerRow(1, Customer("Asha", "Rao", "555-0100"))))
  {
    var db := new Database();
    created := db.CreateCustomer(Customer("Asha", "Rao", "555-0100"), Ok);
    fetched := db.GetCustomer(created.payload.id, Ok);
  }
}
