/**
 * HTTP responses of the API: a status code and the JSON payload sent with it.
 */
module Responses {
  import opened Records

  const StatusOk: int := 200
  const StatusCreated: int := 201
  const StatusBadRequest: int := 400
  const StatusNotFound: int := 404

  /** The JSON shapes the handlers send. */
  datatype Payload =
    | Error(error: string)                                   // { error }
    | Message(message: string)                               // { message }
    | Created(message: string, id: int)                      // { message, id }
    | CustomerData(message: string, row: CustomerRow)        // { message, data: row }
    | CustomerList(message: string, customers: seq<CustomerRow>)  // { message, data: [rows] }
    | AddressList(message: string, addresses: seq<AddressRow>)  // { message, data: [rows] }

  datatype Response = Response(status: int, payload: Payload)

  /** The answer every handler gives when the store reports an error. */
  function BadRequest(message: string): Response
  {
    Response(StatusBadRequest, Error(message))
  }
}
