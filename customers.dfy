/** The customer handlers (index.js:698-792). */
module Customers {

  import opened Wrappers
  import opened JsValues
  import opened Store
  import opened Http
  import opened Records

  /** `{name, phoneNumber, address}` of the request body. */
  datatype CustomerBody = CustomerBody(name: JsValue, phoneNumber: JsValue, address: JsValue)

  /** The stored columns, in the order of the statements: name, phoneNumber, address. */
  function Columns(b: CustomerBody): (c: seq<JsValue>)
    ensures AllTruthy(c) <==> Complete(b)
  {
    [b.name, b.phoneNumber, b.address]
  }

  /** The body check `!name || !phoneNumber || !address`: every field is truthy. */
  predicate Complete(b: CustomerBody)
  {
    Truthy(b.name) && Truthy(b.phoneNumber) && Truthy(b.address)
  }

  function GetCustomers(all: FetchAll<Row>): (o: Outcome)
    ensures o.issued == [SelectAll(Customers)]
    ensures o.response.Reply? && (o.response.status == 200 <==> all.All?)
    ensures all.All? ==> o.response.msg == RowsListed(all.rows)
    ensures all.AllFailed? ==> o.response == Reply(500, ErrorMessage(all.err.message))
  {
    ListRecords(Customers, all)
  }

  function GetCustomer(id: string, fetch: Fetch<Row>): (o: Outcome)
    ensures o.issued == [SelectById(Customers, Str(id))]
    ensures o.response == Reply(404, NotFound(Customers)) <==> fetch == Got(None)
    ensures fetch.Got? && fetch.row.Some? ==> o.response == Reply(200, RowFound(fetch.row.value))
    ensures fetch.GetFailed? ==> o.response == Reply(500, ErrorMessage(fetch.err.message))
  {
    GetRecord(Customers, id, fetch)
  }

  /** `createCustomer`: a customer whose name, phone number or address is falsy is refused
      with 400 and nothing is stored; any other customer is stored as given and read back for
      its creation time. */
  function CreateCustomer(body: CustomerBody, insert: RunResult, echo: Fetch<Row>): (o: Outcome)
    ensures !Complete(body) ==> o == Refuse(400, InvalidBody(false))
    ensures Complete(body) && insert.RunFailed? ==>
      o == Outcome(Reply(500, ErrorMessage(insert.err.message)), [Insert(Customers, [body.name, body.phoneNumber, body.address])])
    ensures Complete(body) && insert.Ran? ==>
      o.issued == [Insert(Customers, [body.name, body.phoneNumber, body.address]), SelectById(Customers, Num(insert.lastID as real))]
    ensures Complete(body) && insert.Ran? && !(echo.Got? && echo.row.Some?) ==> o.response == NoReply
    ensures Succeeded(o) <==> Complete(body) && insert.Ran? && echo.Got? && echo.row.Some?
    ensures Succeeded(o) ==>
      o.response == Reply(201, Saved(Customers, Num(insert.lastID as real), [body.name, body.phoneNumber, body.address], Get(echo.row.value, "createdAt")))
  {
    CreateRecord(Customers, Columns(body), insert, echo)
  }

  /** `editCustomer`: the same check; the customer with the route id gets the body's fields
      and is read back for its creation time. */
  function EditCustomer(id: string, body: CustomerBody, put: RunResult, echo: Fetch<Row>): (o: Outcome)
    ensures !Complete(body) ==> o == Refuse(400, InvalidBody(true))
    ensures Complete(body) && put.RunFailed? ==>
      o == Outcome(Reply(500, ErrorMessage(put.err.message)), [Update(Customers, [body.name, body.phoneNumber, body.address], Str(id))])
    ensures Complete(body) && put.Ran? && put.changes == 0 ==>
      o == Outcome(Reply(400, NoRowsUpdated(Customers)), [Update(Customers, [body.name, body.phoneNumber, body.address], Str(id))])
    ensures Complete(body) && put.Ran? && put.changes != 0 ==>
      o.issued == [Update(Customers, [body.name, body.phoneNumber, body.address], Str(id)), SelectById(Customers, Str(id))]
    ensures Complete(body) && put.Ran? && put.changes != 0 && !(echo.Got? && echo.row.Some?) ==> o.response == NoReply
    ensures Succeeded(o) <==> Complete(body) && put.Ran? && put.changes != 0 && echo.Got? && echo.row.Some?
    ensures Succeeded(o) ==>
      o.response == Reply(201, Saved(Customers, Str(id), [body.name, body.phoneNumber, body.address], Get(echo.row.value, "createdAt")))
  {
    EditSucceedsIffChanged(Customers, id, Columns(body), put, echo);
    EditRecord(Customers, id, Columns(body), put, echo)
  }

  /** `deleteCustomer`. */
  function DeleteCustomer(id: string, del: RunResult): (o: Outcome)
    ensures o.issued == [Delete(Customers, Str(id))]
    ensures Succeeded(o) <==> del.Ran? && del.changes != 0
    ensures del.Ran? && del.changes == 0 ==> o.response == Reply(400, NoRowsDeleted(Customers))
    ensures del.RunFailed? ==> o.response == Reply(500, ErrorMessage(del.err.message))
    ensures del.Ran? && del.changes != 0 ==> o.response == Reply(200, Deleted(Customers))
  {
    DeleteRecord(Customers, id, del)
  }
}
