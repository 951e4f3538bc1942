/** What the handlers send to the store and what comes back. The store itself (SQLite behind
    the `sqlite` wrapper) is not modelled: its answers are inputs of every handler, and the
    statements a handler issues are part of its outcome, so that "before any lookup" and
    "never reaches the insert" can be stated. */
module Store {

  import opened Wrappers
  import opened JsValues

  /** An error from the store, as the driver reports it: `errno` 19 and `code`
      "SQLITE_CONSTRAINT" both mean a constraint was violated. */
  datatype StoreError = StoreError(errno: Option<int>, code: string, message: string)

  /** `db.get`: one row, or `undefined` when nothing matches. */
  datatype Fetch<T> = GetFailed(err: StoreError) | Got(row: Option<T>)

  /** `db.all`: every matching row. */
  datatype FetchAll<T> = AllFailed(err: StoreError) | All(rows: seq<T>)

  /** `db.run`: the write result. `warningStatus` is a property SQLite's result never has
      (`None`); the user updates still test it. */
  datatype RunResult = RunFailed(err: StoreError) | Ran(changes: int, lastID: int, warningStatus: Option<int>)

  /** The tables. */
  datatype Entity = Users | Products | Customers | Transactions

  /** A parameterised statement, with the values bound to its placeholders. */
  datatype Statement =
    | SelectAll(table: Entity)
    | SelectById(table: Entity, id: JsValue)
    | SelectUserByUsername(username: JsValue)
    | SelectProductPrice(productId: JsValue)
    | Insert(table: Entity, values: seq<JsValue>)
    | Update(table: Entity, values: seq<JsValue>, id: JsValue)
    | Delete(table: Entity, id: JsValue)

  /** `err?.errno == 19`: the store reports a constraint violation. */
  predicate IsDuplicate(e: StoreError)
  {
    e.errno == Some(19)
  }
}
