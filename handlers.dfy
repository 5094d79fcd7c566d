/**
 * The request handlers of the customer and address routes, over an abstract
 * store. Each handler issues one statement; the store either runs it or
 * reports an error, and the handler maps that outcome to a response. Whether
 * the store fails (a constraint, a lost connection, a foreign key) is decided
 * outside the handlers, so it is an input here.
 */
module Handlers {
  import opened Records
  import opened Responses
  import opened CustomerListQuery

  /** What the store reports after running a statement: success, or an error message. */
  datatype StoreStatus = Ok | Failed(message: string)

  /** What the store returns for a SELECT of many rows. */
  datatype Fetched<T> = Fetched(rows: T) | FetchFailed(message: string)

  /**
   * GET /api/customers: the store is asked with the query built from the
   * options; its rows come back as 200 "success", its error as 400.
   * Which rows match, their order and the paging are the store's business.
   */
  function ListCustomers(opts: ListOptions, outcome: Fetched<seq<CustomerRow>>): (r: (ListQuery, Response))
    ensures r.0 == BuildListQuery(opts)
    ensures ListSql(r.0) in AllowedListSql()
    ensures outcome.FetchFailed? ==> r.1 == BadRequest(outcome.message)
    ensures outcome.Fetched? ==> r.1 == Response(StatusOk, CustomerList("success", outcome.rows))
  {
    ListSqlIsFixed(opts);
    var q := BuildListQuery(opts);
    match outcome
    case FetchFailed(message) => (q, BadRequest(message))
    case Fetched(rows) => (q, Response(StatusOk, CustomerList("success", rows)))
  }

  /**
   * The rows of `SELECT * FROM addresses WHERE customer_id = cid` among the
   * ids 1..n, in ascending id order.
   */
  function AddressRowsOf(addresses: map<int, Address>, cid: int, n: int): (rows: seq<AddressRow>)
    ensures forall row :: row in rows ==>
      1 <= row.id <= n && row.id in addresses &&
      addresses[row.id] == row.address && row.address.customerId == cid
    ensures forall id :: 1 <= id <= n && id in addresses && addresses[id].customerId == cid ==>
      AddressRow(id, addresses[id]) in rows
    ensures forall i, j :: 0 <= i < j < |rows| ==> rows[i].id < rows[j].id
    ensures rows == [] <==>
      forall id :: 1 <= id <= n && id in addresses ==> addresses[id].customerId != cid
    decreases n
  {
    if n <= 0 then []
    else
      var earlier := AddressRowsOf(addresses, cid, n - 1);
      if n in addresses && addresses[n].customerId == cid
      then earlier + [AddressRow(n, addresses[n])]
      else earlier
  }

  /**
   * The store: the customers and addresses tables, keyed by id, and the last
   * id handed out in each (new rows take the next one).
   */
  class Database {
    var customers: map<int, Customer>
    var addresses: map<int, Address>
    var lastCustomerId: nat
    var lastAddressId: nat

    /** Every id in a table is positive and no larger than the last id handed out. */
    ghost predicate Valid()
      reads this
    {
      (forall id :: id in customers ==> 1 <= id <= lastCustomerId) &&
      (forall id :: id in addresses ==> 1 <= id <= lastAddressId)
    }

    /** An empty store. */
    constructor ()
      ensures Valid()
      ensures customers == map[] && addresses == map[]
      ensures lastCustomerId == 0 && lastAddressId == 0
    {
      customers := map[];
      addresses := map[];
      lastCustomerId := 0;
      lastAddressId := 0;
    }

    /**
     * POST /api/customers: insert the body's fields as a new row; 201 with
     * the new row's id, or 400 with the store's message.
     */
    method CreateCustomer(body: Customer, status: StoreStatus) returns (resp: Response)
      requires Valid()
      modifies this
      ensures Valid()
      ensures status.Failed? ==> resp == BadRequest(status.message) && unchanged(this)
      ensures status.Ok? ==>
        resp.status == StatusCreated && resp.payload.Created? &&
        resp.payload.message == "Customer created" &&
        resp.payload.id == old(lastCustomerId) + 1 == lastCustomerId &&
        resp.payload.id !in old(customers) &&
        customers == old(customers)[resp.payload.id := body] &&
        addresses == old(addresses) && lastAddressId == old(lastAddressId)
    {
      if status.Failed? {
        return BadRequest(status.message);
      }
      var id := lastCustomerId + 1;
      customers := customers[id := body];
      lastCustomerId := id;
      resp := Response(StatusCreated, Created("Customer created", id));
    }

    /**
     * GET /api/customers/:id: 400 on a store error, 404 when there is no such
     * row, otherwise 200 "success" with the row.
     */
    method GetCustomer(id: int, status: StoreStatus) returns (resp: Response)
      ensures status.Failed? ==> resp == BadRequest(status.message)
      ensures status.Ok? && id !in customers ==>
        resp == Response(StatusNotFound, Error("Customer not found"))
      ensures status.Ok? && id in customers ==>
        resp == Response(StatusOk, CustomerData("success", CustomerRow(id, customers[id])))
    {
      if status.Failed? {
        return BadRequest(status.message);
      }
      if id !in customers {
        return Response(StatusNotFound, Error("Customer not found"));
      }
      resp := Response(StatusOk, CustomerData("success", CustomerRow(id, customers[id])));
    }

    /**
     * PUT /api/customers/:id: replace all three fields of the row with that
     * id, if there is one; 200 "Customer updated" whenever the store reports
     * no error, whether or not a row matched.
     */
    method UpdateCustomer(id: int, body: Customer, status: StoreStatus) returns (resp: Response)
      requires Valid()
      modifies this
      ensures Valid()
      ensures status.Failed? ==> resp == BadRequest(status.message) && unchanged(this)
      ensures status.Ok? ==>
        resp == Response(StatusOk, Message("Customer updated")) &&
        customers == (if id in old(customers) then old(customers)[id := body] else old(customers)) &&
        addresses == old(addresses) &&
        lastCustomerId == old(lastCustomerId) && lastAddressId == old(lastAddressId)
    {
      if status.Failed? {
        return BadRequest(status.message);
      }
      if id in customers {
        customers := customers[id := body];
      }
      resp := Response(StatusOk, Message("Customer updated"));
    }

    /**
     * DELETE /api/customers/:id: remove the row with that id, if there is
     * one; 200 "Customer deleted" whenever the store reports no error.
     */
    method DeleteCustomer(id: int, status: StoreStatus) returns (resp: Response)
      requires Valid()
      modifies this
      ensures Valid()
      ensures status.Failed? ==> resp == BadRequest(status.message) && unchanged(this)
      ensures status.Ok? ==>
        resp == Response(StatusOk, Message("Customer deleted")) &&
        customers == old(customers) - {id} &&
        addresses == old(addresses) &&
        lastCustomerId == old(lastCustomerId) && lastAddressId == old(lastAddressId)
    {
      if status.Failed? {
        return BadRequest(status.message);
      }
      customers := customers - {id};
      resp := Response(StatusOk, Message("Customer deleted"));
    }

    /**
     * POST /api/customers/:id/addresses: insert a new address row owned by
     * the route's customer id; 201 with the new row's id, or 400 with the
     * store's message (a foreign-key violation among them).
     */
    method CreateAddress(customerId: int, body: AddressFields, status: StoreStatus) returns (resp: Response)
      requires Valid()
      modifies this
      ensures Valid()
      ensures status.Failed? ==> resp == BadRequest(status.message) && unchanged(this)
      ensures status.Ok? ==>
        resp.status == StatusCreated && resp.payload.Created? &&
        resp.payload.message == "Address added" &&
        resp.payload.id == old(lastAddressId) + 1 == lastAddressId &&
        resp.payload.id !in old(addresses) &&
        addresses == old(addresses)[resp.payload.id := Address(customerId, body)] &&
        customers == old(customers) && lastCustomerId == old(lastCustomerId)
    {
      if status.Failed? {
        return BadRequest(status.message);
      }
      var id := lastAddressId + 1;
      addresses := addresses[id := Address(customerId, body)];
      lastAddressId := id;
      resp := Response(StatusCreated, Created("Address added", id));
    }

    /**
     * GET /api/customers/:id/addresses: 200 "success" with exactly the
     * address rows owned by that customer id (an empty list when there are
     * none, whether or not the customer exists), or 400 on a store error.
     */
    method ListAddresses(customerId: int, status: StoreStatus) returns (resp: Response)
      requires Valid()
      ensures status.Failed? ==> resp == BadRequest(status.message)
      ensures status.Ok? ==>
        resp.status == StatusOk && resp.payload.AddressList? && resp.payload.message == "success"
      ensures status.Ok? && resp.payload.AddressList? ==>
        var rows := resp.payload.addresses;
        (forall row :: row in rows ==>
          row.id in addresses && addresses[row.id] == row.address &&
          row.address.customerId == customerId) &&
        (forall id :: id in addresses && addresses[id].customerId == customerId ==>
          AddressRow(id, addresses[id]) in rows) &&
        (forall i, j :: 0 <= i < j < |rows| ==> rows[i].id < rows[j].id) &&
        (rows == [] <==> forall id :: id in addresses ==> addresses[id].customerId != customerId)
    {
      if status.Failed? {
        return BadRequest(status.message);
      }
      var rows := AddressRowsOf(addresses, customerId, lastAddressId);
      resp := Response(StatusOk, AddressList("success", rows));
    }

    /**
     * PUT /api/addresses/:addressId: replace the four body fields of the
     * address with that id, if there is one, keeping its owner; 200
     * "Address updated" whenever the store reports no error.
     */
    method UpdateAddress(addressId: int, body: AddressFields, status: StoreStatus) returns (resp: Response)
      requires Valid()
      modifies this
      ensures Valid()
      ensures status.Failed? ==> resp == BadRequest(status.message) && unchanged(this)
      ensures status.Ok? ==>
        resp == Response(StatusOk, Message("Address updated")) &&
        addresses == (if addressId in old(addresses)
                      then old(addresses)[addressId := old(addresses)[addressId].(fields := body)]
                      else old(addresses)) &&
        customers == old(customers) &&
        lastCustomerId == old(lastCustomerId) && lastAddressId == old(lastAddressId)
    {
      if status.Failed? {
        return BadRequest(status.message);
      }
      if addressId in addresses {
        addresses := addresses[addressId := addresses[addressId].(fields := body)];
      }
      resp := Response(StatusOk, Message("Address updated"));
    }

    /**
     * DELETE /api/addresses/:addressId: remove the address with that id, if
     * there is one; 200 "Address deleted" whenever the store reports no error.
     */
    method DeleteAddress(addressId: int, status: StoreStatus) returns (resp: Response)
      requires Valid()
      modifies this
      ensures Valid()
      ensures status.Failed? ==> resp == BadRequest(status.message) && unchanged(this)
      ensures status.Ok? ==>
        resp == Response(StatusOk, Message("Address deleted")) &&
        addresses == old(addresses) - {addressId} &&
        customers == old(customers) &&
        lastCustomerId == old(lastCustomerId) && lastAddressId == old(lastAddressId)
    {
      if status.Failed? {
        return BadRequest(status.message);
      }
      addresses := addresses - {addressId};
      resp := Response(StatusOk, Message("Address deleted"));
    }
  }
}
