# Customer management API: a Dafny model

This project models the request-handling core of a small customer-management
HTTP API (`server/index.js`). The API stores customers and their addresses in
two SQLite tables and exposes nine JSON routes.

The model has two parts:

* **The customer-list query builder** (`GET /api/customers`). This is a pure
  function in module `CustomerListQuery`. It takes the optional query options
  `search`, `sort`, `order`, `page` and `limit` and fills in the defaults
  (`""`, `id`, `ASC`, 1 and 10). It then derives what is handed to the store:
  - an ORDER BY column checked against the allow-list
    `id, first_name, last_name, phone_number`;
  - a direction that is DESC exactly when the upper-cased order is `"DESC"`;
  - the LIKE pattern `%search%`, bound three times;
  - the LIMIT and the unclamped OFFSET `(page - 1) * limit`.

  The injection guard is proved outright: whatever the options, the statement
  text is one of eight fixed strings.
* **The CRUD handlers** (module `Handlers`). A `Database` class holds both
  tables as maps from id to row, plus the last id handed out in each table.
  Each route is a method that applies its statement's effect and returns the
  response (status and JSON payload). The store's success or error is an
  input (`StoreStatus`). On an error, every handler changes nothing and
  answers 400 with the store's message. Updates and deletes answer 200 even
  when no row has that id; in that case the tables are left as they were.

Module `Records` holds the row types and `Responses` the status codes and
payload shapes. Module `Scenarios` holds client methods. They derive, from the
handlers' contracts alone, what a later request sees after an earlier one
(create then get, update then get, delete then get, a no-op update or delete,
add address then list).

## Model

| member | source | states |
|---|---|---|
| CustomerListQuery.SortColumn | server/index.js:49-50 | the column is always on the allow-list; it equals the requested field exactly when that field is allowed, otherwise it is `id` |
| CustomerListQuery.SortColumnRoundTrip | server/index.js:49-50 | every allowed column is selected by its own identifier, so the allow-list loses no column |
| CustomerListQuery.SortRule | server/index.js:44-50 | an allowed sort field is used as given; an unknown or absent one becomes `id` |
| CustomerListQuery.UnknownSortIsSortById | server/index.js:49-50 | a request sorting by an unknown field builds the same query as `sort=id` |
| CustomerListQuery.ToUpper | server/index.js:55 | upper-casing keeps the length and maps every character by the per-character case mapping |
| CustomerListQuery.UpperIsDescIffSpelling | server/index.js:55 | the upper-cased order equals "DESC" exactly for four-letter spellings d/D, e/E, s/S/U+017F, c/C |
| CustomerListQuery.DirectionOf | server/index.js:55 | the direction is DESC exactly for those spellings and ASC for every other string |
| CustomerListQuery.DirectionRule | server/index.js:44-55 | DESC exactly when the upper-cased order is "DESC"; an absent order gives ASC |
| CustomerListQuery.SearchPattern | server/index.js:58 | the pattern is the search string, unescaped, between two '%', and the search string can be read back from it |
| CustomerListQuery.PatternRule | server/index.js:58 | the first three parameters are the same pattern `%search%` |
| CustomerListQuery.OffsetRule | server/index.js:44-47 | the limit is the requested one (default 10); offset = (page - 1) * limit, unclamped; page 1 gives 0; page <= 0 with a non-negative limit gives offset <= 0 |
| CustomerListQuery.NextPageSkipsOneLimit | server/index.js:47 | each next page starts exactly `limit` rows later |
| CustomerListQuery.SecondPageOfFive | server/index.js:45-47 | page=2, limit=5 binds LIMIT 5 and OFFSET 5 |
| CustomerListQuery.Defaults | server/index.js:44-58 | with no options: column id, ASC, pattern "%%", limit 10, offset 0, parameters ["%%","%%","%%",10,0] |
| CustomerListQuery.BuildListQuery | server/index.js:44-58 | the column is allowed; the direction rule holds; the pattern is `%search%`; the parameters are exactly [p, p, p, limit, offset] |
| CustomerListQuery.ListSqlIsFixed | server/index.js:49-57 | the statement text is always one of eight fixed texts (four columns times two directions), so no client text reaches the statement |
| CustomerListQuery.ListSqlIgnoresBoundValues | server/index.js:52-58 | search, page and limit never change the statement text; they only change the bound parameters |
| Handlers.ListCustomers | server/index.js:43-64 | the store is asked with the built query, whose text is one of the eight fixed texts; a store error gives 400 {error}, rows give 200 {message:"success", data: rows} |
| Handlers.AddressRowsOf | server/index.js:116 | the rows are exactly the addresses owned by the customer id, each with its stored fields, in strictly ascending id order; the list is empty exactly when that customer owns none |
| Handlers.Database.CreateCustomer | server/index.js:33-40 | on success: 201 "Customer created" with a new id not used before, and the new row holds the body's fields; the address table is unchanged; on a store error: 400 with the message and no change |
| Handlers.Database.GetCustomer | server/index.js:67-74 | 400 with the message on a store error; 404 "Customer not found" when no row has the id; otherwise 200 "success" with that row |
| Handlers.Database.UpdateCustomer | server/index.js:77-84 | on success: 200 "Customer updated"; the row with that id, if any, has all three fields replaced; no other row and no counter changes; on a store error: 400 and no change |
| Handlers.Database.DeleteCustomer | server/index.js:87-93 | on success: 200 "Customer deleted" and the id is removed, whether or not it existed; on a store error: 400 and no change |
| Handlers.Database.CreateAddress | server/index.js:100-112 | on success: 201 "Address added" with a new id, and the row carries the route's customer id and the body's fields; on a store error (a foreign-key violation among them): 400 and no change |
| Handlers.Database.ListAddresses | server/index.js:115-121 | 200 "success" with exactly the customer's addresses in ascending id order, an empty list when there are none, whether or not the customer exists; 400 on a store error |
| Handlers.Database.UpdateAddress | server/index.js:124-135 | on success: 200 "Address updated"; the address with that id, if any, gets the four new fields and keeps its customer; nothing else changes; on a store error: 400 and no change |
| Handlers.Database.DeleteAddress | server/index.js:138-144 | on success: 200 "Address deleted" and the id is removed, whether or not it existed; on a store error: 400 and no change |
| Scenarios.CreateThenGet | server/index.js:33-74 | a created customer is read back with 200 and exactly the submitted fields under the returned id |
| Scenarios.UpdateThenGet | server/index.js:67-84 | after an update, a read returns exactly the new fields (a full replace, not a merge) |
| Scenarios.DeleteThenGet | server/index.js:67-93 | after a delete, a read answers 404 "Customer not found" |
| Scenarios.UpdateMissingAddress | server/index.js:124-135 | updating a missing address answers 200 "Address updated" and changes neither table |
| Scenarios.DeleteMissingAddress | server/index.js:138-144 | deleting a missing address answers 200 "Address deleted" and changes neither table |
| Scenarios.AddAddressThenList | server/index.js:100-121 | an address added for a customer appears, with its fields, in that customer's address list |
| Scenarios.ListWithoutAddresses | server/index.js:115-121 | a customer id that owns no address gets 200 with an empty list, not an error |
| Scenarios.AshaRao | server/index.js:33-74 | on a fresh store, creating Asha Rao, 555-0100 answers 201 with id 1, and reading id 1 answers 200 with exactly those fields |

## Left out

- Express wiring, CORS, JSON body parsing, route dispatch and `app.listen` (server/index.js:1-9, 149-152) are framework plumbing. Each handler is one sequential step; asynchronous callbacks and concurrent requests are not modelled.
- Opening the SQLite file, `PRAGMA foreign_keys` and running `schema.sql` (server/index.js:11-26) are I/O. `server/db/database.js` only opens a connection and is not used by `index.js`. `schema.sql` is not part of this model.
- The schema's constraints are not modelled: NOT NULL rejections and foreign-key violations are part of the store-error input. So `Handlers.Database.CreateAddress` stores an address for any customer id when the store reports success.
- Handlers.Database.DeleteCustomer leaves the address table untouched. Whether dependent addresses are cascade-deleted, blocked (a store error) or orphaned depends on the schema.
- Row ids: new ids are one past the last id handed out in that table, as with SQLite's AUTOINCREMENT. Both ways SQLite can allocate ids give a fresh id and give 1 on an empty, never-used table. Without AUTOINCREMENT, SQLite may reuse the largest id after its row is deleted; the counter does not model that.
- Route ids (`req.params.id`) arrive as strings and are compared by SQLite's type affinity. The model uses integer ids, so a non-numeric id (which matches no row) is not modelled.
- Body fields are strings. A missing field (`undefined`, bound as SQL NULL) is not modelled.
- `parseInt` on non-numeric or fractional strings (NaN, truncation) is not modelled; `page` and `limit` are integers. Query values that arrive as arrays are not modelled either: the `search` text would join with commas, `sort` would fail the allow-list, and `order.toUpperCase` would throw.
- JavaScript numbers are doubles. The offset is computed on unbounded integers, so precision loss beyond 2^53 is not modelled.
- CustomerListQuery.ToUpper: upper-cases only the ASCII letters and U+017F (long s, whose upper case is 'S'); other Unicode case mappings, including multi-character ones such as ß to SS, are not modelled. No other character upper-cases to D, E, S or C, and no expansion can produce "DESC", so `DirectionOf` is exact for every string.
- The meaning of LIKE, and the filtering, ordering and paging SQLite performs for the customer list, are store behaviour. `Handlers.ListCustomers` takes the returned rows as input. SQLite's LIKE ignores case for ASCII letters by default, so the search is not case-sensitive. Nothing in `index.js` changes that.
- Handlers.AddressRowsOf: lists an owner's addresses in ascending id order. SQLite promises no order without ORDER BY; the model picks one possible order.
