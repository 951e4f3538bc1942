/** The product handlers (index.js:534-627). */
module Products {

  import opened Wrappers
  import opened JsValues
  import opened Store
  import opened Http
  import opened Records

  /** `{name, price, type}` of the request body; `type` is `kind` here. */
  datatype ProductBody = ProductBody(name: JsValue, price: JsValue, kind: JsValue)

  /** The stored columns, in the order of the statements: name, price, type. */
  function Columns(b: ProductBody): (c: seq<JsValue>)
    ensures AllTruthy(c) <==> Complete(b)
  {
    [b.name, b.price, b.kind]
  }

  /** The body check `!name || !price || !type`: every field is truthy. */
  predicate Complete(b: ProductBody)
  {
    Truthy(b.name) && Truthy(b.price) && Truthy(b.kind)
  }

  function GetProducts(all: FetchAll<Row>): (o: Outcome)
    ensures o.issued == [SelectAll(Products)]
    ensures o.response.Reply? && (o.response.status == 200 <==> all.All?)
    ensures all.All? ==> o.response.msg == RowsListed(all.rows)
    ensures all.AllFailed? ==> o.response == Reply(500, ErrorMessage(all.err.message))
  {
    ListRecords(Products, all)
  }

  function GetProduct(id: string, fetch: Fetch<Row>): (o: Outcome)
    ensures o.issued == [SelectById(Products, Str(id))]
    ensures o.response == Reply(404, NotFound(Products)) <==> fetch == Got(None)
    ensures fetch.Got? && fetch.row.Some? ==> o.response == Reply(200, RowFound(fetch.row.value))
    ensures fetch.GetFailed? ==> o.response == Reply(500, ErrorMessage(fetch.err.message))
  {
    GetRecord(Products, id, fetch)
  }

  /** `createProduct`: a product whose name, price or type is falsy (a price of 0 included) is
      refused with 400 and nothing is stored; any other product is stored as given, a negative
      price included, and read back for its creation time. */
  function CreateProduct(body: ProductBody, insert: RunResult, echo: Fetch<Row>): (o: Outcome)
    ensures !Complete(body) ==> o == Refuse(400, InvalidBody(false))
    ensures Complete(body) && insert.RunFailed? ==>
      o == Outcome(Reply(500, ErrorMessage(insert.err.message)), [Insert(Products, [body.name, body.price, body.kind])])
    ensures Complete(body) && insert.Ran? ==>
      o.issued == [Insert(Products, [body.name, body.price, body.kind]), SelectById(Products, Num(insert.lastID as real))]
    ensures Complete(body) && insert.Ran? && !(echo.Got? && echo.row.Some?) ==> o.response == NoReply
    ensures Succeeded(o) <==> Complete(body) && insert.Ran? && echo.Got? && echo.row.Some?
    ensures Succeeded(o) ==>
      o.response == Reply(201, Saved(Products, Num(insert.lastID as real), [body.name, body.price, body.kind], Get(echo.row.value, "createdAt")))
  {
    CreateRecord(Products, Columns(body), insert, echo)
  }

  /** `editProduct`: the same check; the product with the route id gets the body's fields and
      is read back for its creation time. */
  function EditProduct(id: string, body: ProductBody, put: RunResult, echo: Fetch<Row>): (o: Outcome)
    ensures !Complete(body) ==> o == Refuse(400, InvalidBody(true))
    ensures Complete(body) && put.RunFailed? ==>
      o == Outcome(Reply(500, ErrorMessage(put.err.message)), [Update(Products, [body.name, body.price, body.kind], Str(id))])
    ensures Complete(body) && put.Ran? && put.changes == 0 ==>
      o == Outcome(Reply(400, NoRowsUpdated(Products)), [Update(Products, [body.name, body.price, body.kind], Str(id))])
    ensures Complete(body) && put.Ran? && put.changes != 0 ==>
      o.issued == [Update(Products, [body.name, body.price, body.kind], Str(id)), SelectById(Products, Str(id))]
    ensures Complete(body) && put.Ran? && put.changes != 0 && !(echo.Got? && echo.row.Some?) ==> o.response == NoReply
    ensures Succeeded(o) <==> Complete(body) && put.Ran? && put.changes != 0 && echo.Got? && echo.row.Some?
    ensures Succeeded(o) ==>
      o.response == Reply(201, Saved(Products, Str(id), [body.name, body.price, body.kind], Get(echo.row.value, "createdAt")))
  {
    EditSucceedsIffChanged(Products, id, Columns(body), put, echo);
    EditRecord(Products, id, Columns(body), put, echo)
  }

  /** `deleteProduct`. */
  function DeleteProduct(id: string, del: RunResult): (o: Outcome)
    ensures o.issued == [Delete(Products, Str(id))]
    ensures Succeeded(o) <==> del.Ran? && del.changes != 0
    ensures del.Ran? && del.changes == 0 ==> o.response == Reply(400, NoRowsDeleted(Products))
    ensures del.RunFailed? ==> o.response == Reply(500, ErrorMessage(del.err.message))
    ensures del.Ran? && del.changes != 0 ==> o.response == Reply(200, Deleted(Products))
  {
    DeleteRecord(Products, id, del)
  }

  /** A free product cannot be created: a price of 0 is falsy. A negative price can. */
  lemma PriceMustBeNonZero(name: JsValue, kind: JsValue, insert: RunResult, echo: Fetch<Row>)
    requires Truthy(name) && Truthy(kind)
    ensures CreateProduct(ProductBody(name, Num(0.0), kind), insert, echo) == Refuse(400, InvalidBody(false))
    ensures CreateProduct(ProductBody(name, Num(-1.0), kind), insert, echo).issued != []
  {
  }
}
