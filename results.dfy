/** How the handlers turn the store's answers into responses. The classifications are shared
    by the handlers that test the same conditions in the same order. */
module Results {

  import opened Wrappers
  import opened JsValues
  import opened Store
  import opened Http

  /** A list endpoint: a store error is a 500 with its message, otherwise 200 with the rows. */
  function ListReply(all: FetchAll<Row>): (res: Response)
    ensures res.Reply? && (res.status == 200 <==> all.All?)
    ensures all.All? ==> res.msg == RowsListed(all.rows)
    ensures all.AllFailed? ==> res == Reply(500, ErrorMessage(all.err.message))
  {
    match all
    case AllFailed(e) => Reply(500, ErrorMessage(e.message))
    case All(rows) => Reply(200, RowsListed(rows))
  }

  /** A lookup by id: a store error is a 500, no row a 404 naming the table, a row 200. */
  function FetchReply(table: Entity, fetch: Fetch<Row>): (res: Response)
    ensures res.Reply? && res.status in {200, 404, 500}
    ensures res.status == 200 <==> fetch.Got? && fetch.row.Some?
    ensures res.status == 200 ==> res.msg == RowFound(fetch.row.value)
    ensures res.status == 404 <==> fetch == Got(None)
    ensures res.status == 404 ==> res.msg == NotFound(table)
    ensures fetch.GetFailed? ==> res == Reply(500, ErrorMessage(fetch.err.message))
  {
    match fetch
    case GetFailed(e) => Reply(500, ErrorMessage(e.message))
    case Got(None) => Reply(404, NotFound(table))
    case Got(Some(row)) => Reply(200, RowFound(row))
  }

  /** The user writes (index.js:198-206, 285-304, 343-362): a constraint error (errno 19)
      is a 400 naming the username, any other error a 500, both decided before the write
      result is looked at; an update then refuses a result with warnings, then one that
      changed no row. The refusal, if any; only a write that changed a row has none. */
  function UserWriteRefusal(w: RunResult, username: JsValue, isUpdate: bool): (r: Option<Response>)
    ensures r.None? <==> w.Ran? && (isUpdate ==> !WarnedOf(w) && w.changes != 0)
    ensures w.RunFailed? ==> r == Some(if IsDuplicate(w.err) then Reply(400, AlreadyRegistered(username))
                                       else Reply(500, ErrorMessage(w.err.message)))
    ensures isUpdate && WarnedOf(w) ==> r == Some(Reply(400, InvalidRole))
    ensures isUpdate && w.Ran? && !WarnedOf(w) && w.changes == 0 ==> r == Some(Reply(400, NoRowsUpdated(Users)))
  {
    match w
    case RunFailed(e) =>
      Some(if IsDuplicate(e) then Reply(400, AlreadyRegistered(username)) else Reply(500, ErrorMessage(e.message)))
    case Ran(changes, _, warning) =>
      if isUpdate && WarnedOf(w) then Some(Reply(400, InvalidRole))
      else if isUpdate && changes == 0 then Some(Reply(400, NoRowsUpdated(Users)))
      else None
  }

  /** `result?.warningStatus > 0`. */
  predicate WarnedOf(w: RunResult)
  {
    w.Ran? && w.warningStatus.Some? && w.warningStatus.value > 0
  }

  /** Product and customer edits and every delete (index.js:398-403, 586-591, 613-618,
      750-755, 777-782): no constraint case; any error is a 500, then a write that changed
      no row is a 400. The refusal, if any; only a write that changed a row has none. */
  function ChangeRefusal(table: Entity, w: RunResult, isDelete: bool): (r: Option<Response>)
    ensures r.None? <==> w.Ran? && w.changes != 0
    ensures w.RunFailed? ==> r == Some(Reply(500, ErrorMessage(w.err.message)))
    ensures w.Ran? && w.changes == 0 ==>
      r == Some(Reply(400, if isDelete then NoRowsDeleted(table) else NoRowsUpdated(table)))
  {
    match w
    case RunFailed(e) => Some(Reply(500, ErrorMessage(e.message)))
    case Ran(changes, _, _) =>
      if changes == 0 then Some(Reply(400, if isDelete then NoRowsDeleted(table) else NoRowsUpdated(table)))
      else None
  }

  /** The refusal when there is one, the handler's own answer otherwise. */
  function Otherwise(refusal: Option<Response>, answer: Response): Response
  {
    match refusal
    case Some(res) => res
    case None => answer
  }

  /** The read-back after a successful write: `getById(id, (err, row) => ... row.createdAt)`.
      A store error or a missing row leaves `row` undefined, and reading `createdAt` from it
      throws inside the callback, so the request is never answered. */
  function ReadBackAnswer(echo: Fetch<Row>, saved: JsValue -> Msg): (res: Response)
    ensures echo.Got? && echo.row.Some? ==> res == Reply(201, saved(Get(echo.row.value, "createdAt")))
    ensures !(echo.Got? && echo.row.Some?) ==> res == NoReply
  {
    match echo
    case Got(Some(row)) => Reply(201, saved(Get(row, "createdAt")))
    case _ => NoReply
  }
}
