/** The decision logic the product and customer handlers share (index.js:534-627,
    698-792): the two resources differ only in their table and in the three body fields
    they store. */
module Records {

  import opened Wrappers
  import opened JsValues
  import opened Store
  import opened Http
  import opened Results

  /** `!a || !b || !c` is false: every field of the body is truthy. */
  predicate AllTruthy(fields: seq<JsValue>)
  {
    forall v <- fields :: Truthy(v)
  }

  /** The list endpoint: one read of the whole table. */
  function ListRecords(table: Entity, all: FetchAll<Row>): (o: Outcome)
    ensures o.issued == [SelectAll(table)]
    ensures o.response == ListReply(all)
  {
    Outcome(ListReply(all), [SelectAll(table)])
  }

  /** The lookup endpoint: one read by the route id. */
  function GetRecord(table: Entity, id: string, fetch: Fetch<Row>): (o: Outcome)
    ensures o.issued == [SelectById(table, Str(id))]
    ensures o.response == FetchReply(table, fetch)
  {
    Outcome(FetchReply(table, fetch), [SelectById(table, Str(id))])
  }

  /** Creation: a body with a falsy field is refused with 400 (lower-case text) before the
      store is asked; otherwise exactly the body's fields are inserted and a store error is a
      500. A stored row is read back by its new id and answered 201 with that id, the fields
      and the row's creation time; a read-back that finds nothing leaves the request
      unanswered. */
  function CreateRecord(table: Entity, fields: seq<JsValue>, insert: RunResult, echo: Fetch<Row>): (o: Outcome)
    ensures !AllTruthy(fields) ==> o == Refuse(400, InvalidBody(false))
    ensures AllTruthy(fields) && insert.RunFailed? ==>
      o == Outcome(Reply(500, ErrorMessage(insert.err.message)), [Insert(table, fields)])
    ensures AllTruthy(fields) && insert.Ran? ==>
      o.issued == [Insert(table, fields), SelectById(table, Num(insert.lastID as real))]
    ensures Succeeded(o) <==> AllTruthy(fields) && insert.Ran? && echo.Got? && echo.row.Some?
    ensures Succeeded(o) ==>
      o.response == Reply(201, Saved(table, Num(insert.lastID as real), fields, Get(echo.row.value, "createdAt")))
    ensures AllTruthy(fields) && insert.Ran? && !(echo.Got? && echo.row.Some?) ==> o.response == NoReply
  {
    if !AllTruthy(fields) then Refuse(400, InvalidBody(false))
    else
      var write := Insert(table, fields);
      match insert
      case RunFailed(e) => Outcome(Reply(500, ErrorMessage(e.message)), [write])
      case Ran(_, lastID, _) =>
        var id := Num(lastID as real);
        Outcome(ReadBackAnswer(echo, createdAt => Saved(table, id, fields, createdAt)), [write, SelectById(table, id)])
  }

  /** Editing: the same body check (capitalised text); otherwise the row with the route id is
      updated to exactly the body's fields and the result classified. A changed row is read
      back and answered 201 with the route id, the fields and the creation time, or not at
      all when the read-back finds nothing. */
  function EditRecord(table: Entity, id: string, fields: seq<JsValue>, put: RunResult, echo: Fetch<Row>): (o: Outcome)
    ensures !AllTruthy(fields) ==> o == Refuse(400, InvalidBody(true))
    ensures AllTruthy(fields) && ChangeRefusal(table, put, false).Some? ==>
      o == Outcome(ChangeRefusal(table, put, false).value, [Update(table, fields, Str(id))])
    ensures AllTruthy(fields) && ChangeRefusal(table, put, false).None? ==>
      o.issued == [Update(table, fields, Str(id)), SelectById(table, Str(id))]
      && o.response == ReadBackAnswer(echo, createdAt => Saved(table, Str(id), fields, createdAt))
  {
    if !AllTruthy(fields) then Refuse(400, InvalidBody(true))
    else
      var write := Update(table, fields, Str(id));
      match ChangeRefusal(table, put, false)
      case Some(res) => Outcome(res, [write])
      case None =>
        Outcome(ReadBackAnswer(echo, createdAt => Saved(table, Str(id), fields, createdAt)),
                [write, SelectById(table, Str(id))])
  }

  /** Deletion: no body and no check; the row with the route id is deleted and the result
      classified; a changed row is answered 200. */
  function DeleteRecord(table: Entity, id: string, del: RunResult): (o: Outcome)
    ensures o.issued == [Delete(table, Str(id))]
    ensures o.response == Otherwise(ChangeRefusal(table, del, true), Reply(200, Deleted(table)))
  {
    Outcome(Otherwise(ChangeRefusal(table, del, true), Reply(200, Deleted(table))), [Delete(table, Str(id))])
  }

  /** An edit succeeds exactly when its body is valid, the store changed a row and the
      read-back found it; a body refused by the check never reaches the store. */
  lemma EditSucceedsIffChanged(table: Entity, id: string, fields: seq<JsValue>, put: RunResult, echo: Fetch<Row>)
    ensures Succeeded(EditRecord(table, id, fields, put, echo)) <==>
      AllTruthy(fields) && put.Ran? && put.changes != 0 && echo.Got? && echo.row.Some?
    ensures EditRecord(table, id, fields, put, echo).issued == [] <==> !AllTruthy(fields)
  {
  }
}
