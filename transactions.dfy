/** The transaction handlers (index.js:911-1068): the list, the lookup and the recording of
    a sale, whose price is the product's price times the quantity. */
module Transactions {

  import opened Wrappers
  import opened JsValues
  import opened Store
  import opened Projection
  import opened Http

  /** `{customerId, productId, qty}` of the request body. */
  datatype TransactionBody = TransactionBody(customerId: JsValue, productId: JsValue, qty: JsValue)

  /** `getTransactions`: every joined row, reshaped, in the store's order. */
  function GetTransactions(all: FetchAll<TransactionRow>): (o: Outcome)
    ensures o.issued == [SelectAll(Transactions)]
    ensures o.response.Reply? && (o.response.status == 200 <==> all.All?)
    ensures all.AllFailed? ==> o.response == Reply(500, ErrorMessage(all.err.message))
    ensures all.All? ==> o.response.msg.TransactionsListed? && FlattenAll(o.response.msg.views) == all.rows
  {
    match all
    case AllFailed(e) => Outcome(Reply(500, ErrorMessage(e.message)), [SelectAll(Transactions)])
    case All(rows) =>
      FlattenReshapeAll(rows);
      Outcome(Reply(200, TransactionsListed(ReshapeAll(rows))), [SelectAll(Transactions)])
  }

  /** `getTransaction`: a store error is a 500, no row a 404, a row its reshaped view. */
  function GetTransaction(id: string, fetch: Fetch<TransactionRow>): (o: Outcome)
    ensures o.issued == [SelectById(Transactions, Str(id))]
    ensures o.response.Reply?
    ensures fetch.GetFailed? ==> o.response == Reply(500, ErrorMessage(fetch.err.message))
    ensures fetch == Got(None) <==> o.response == Reply(404, NotFound(Transactions))
    ensures fetch.Got? && fetch.row.Some? <==> o.response.status == 200
    ensures o.response.status == 200 ==>
      o.response.msg.TransactionFound? && Flatten(o.response.msg.view) == fetch.row.value
  {
    var issued := [SelectById(Transactions, Str(id))];
    match fetch
    case GetFailed(e) => Outcome(Reply(500, ErrorMessage(e.message)), issued)
    case Got(None) => Outcome(Reply(404, NotFound(Transactions)), issued)
    case Got(Some(row)) => Outcome(Reply(200, TransactionFound(Reshape(row))), issued)
  }

  /** `result.price * qty`, with JavaScript's coercion of both sides to numbers. */
  function TotalPrice(priceRow: Row, qty: JsValue): (total: JsValue)
    ensures total.Num? <==> ToNumber(Get(priceRow, "price")).Finite? && ToNumber(qty).Finite?
    ensures total.Num? ==> total.x == ToNumber(Get(priceRow, "price")).x * ToNumber(qty).x
    ensures !total.Num? ==> total == NaN
  {
    Multiply(Get(priceRow, "price"), qty)
  }

  /** Whether the body passes `!customerId || !productId || !qty`. */
  predicate ValidBody(b: TransactionBody)
  {
    Truthy(b.customerId) && Truthy(b.productId) && Truthy(b.qty)
  }

  /** `createTransaction`. A body with a falsy field is refused with 400 before any lookup.
      The product's price is read next; a product that cannot be read, for whatever reason,
      is a 404 and nothing is inserted. Otherwise the sale is inserted under the caller's id
      with the total price; a constraint error is reported as an unknown customer (404),
      another error as a 500 carrying the error itself. A recorded sale is read back through
      the join and answered as its reshaped view; when that read yields no row the handler
      dies in its callback and nothing is answered. */
  function CreateTransaction(body: TransactionBody, ctx: Context, price: Fetch<Row>, insert: RunResult,
                             echo: Fetch<TransactionRow>): (o: Outcome)
    ensures !ValidBody(body) ==> o == Refuse(400, InvalidBody(false))
    ensures ValidBody(body) ==> 1 <= |o.issued| <= 3 && o.issued[0] == SelectProductPrice(body.productId)
    ensures ValidBody(body) && !(price.Got? && price.row.Some?) ==>
      o == Outcome(Reply(404, ProductIdNotFound), [SelectProductPrice(body.productId)])
    ensures |o.issued| >= 2 <==> ValidBody(body) && price.Got? && price.row.Some?
    ensures |o.issued| >= 2 ==>
      o.issued[1] == Insert(Transactions, [ctx.userId, body.customerId, body.productId, body.qty,
                                           TotalPrice(price.row.value, body.qty)])
    ensures |o.issued| >= 2 && insert.RunFailed? ==>
      o.response == if insert.err.code == "SQLITE_CONSTRAINT" then Reply(404, CustomerIdNotFound)
                    else Reply(500, ErrorObject(insert.err))
    ensures |o.issued| == 3 <==> |o.issued| >= 2 && insert.Ran?
    ensures |o.issued| == 3 ==> o.issued[2] == SelectById(Transactions, Num(insert.lastID as real))
    ensures |o.issued| == 3 ==> (o.response.Reply? <==> echo.Got? && echo.row.Some?)
    ensures Succeeded(o) <==> |o.issued| == 3 && echo.Got? && echo.row.Some?
    ensures Succeeded(o) ==> o.response == Reply(201, TransactionAdded(Reshape(echo.row.value)))
  {
    if !ValidBody(body) then Refuse(400, InvalidBody(false))
    else
      var lookup := SelectProductPrice(body.productId);
      match price
      case GetFailed(_) => Outcome(Reply(404, ProductIdNotFound), [lookup])
      case Got(None) => Outcome(Reply(404, ProductIdNotFound), [lookup])
      case Got(Some(p)) =>
        var sale := Insert(Transactions, [ctx.userId, body.customerId, body.productId, body.qty, TotalPrice(p, body.qty)]);
        match insert
        case RunFailed(e) =>
          if e.code == "SQLITE_CONSTRAINT" then Outcome(Reply(404, CustomerIdNotFound), [lookup, sale])
          else Outcome(Reply(500, ErrorObject(e)), [lookup, sale])
        case Ran(_, lastID, _) =>
          var readBack := SelectById(Transactions, Num(lastID as real));
          match echo
          case Got(Some(row)) => Outcome(Reply(201, TransactionAdded(Reshape(row))), [lookup, sale, readBack])
          case _ => Outcome(NoReply, [lookup, sale, readBack])
  }

  /** A sale of `qty` items at a numeric price is priced at `price * qty`, whether the
      quantity arrives as a number or as a string of digits: `{price: 10}` and `qty: "3"`
      give 30. `CreateTransaction` records exactly this total with the sale. */
  lemma {:induction false} RecordedTotal(p: Row, qty: JsValue, unit: real, n: nat)
    requires Get(p, "price") == Num(unit)
    requires qty == Num(n as real) || (qty.Str? && qty.s != [] && AllDigits(qty.s) && DigitsValue(qty.s) == n)
    ensures TotalPrice(p, qty) == Num(unit * n as real)
  {
    QuantityValue(qty, n);
  }

  /** A quantity given as a number or as a string of digits coerces to its value. */
  lemma QuantityValue(qty: JsValue, n: nat)
    requires qty == Num(n as real) || (qty.Str? && qty.s != [] && AllDigits(qty.s) && DigitsValue(qty.s) == n)
    ensures ToNumber(qty) == Finite(n as real)
  {
    if qty.Str? {
      DigitStringToNumber(qty.s);
    }
  }

  /** A quantity that is not a number makes the recorded total NaN: `qty: "three"` is
      truthy, passes the check and is stored with a total of NaN. */
  lemma NonNumericQuantity(body: TransactionBody, ctx: Context, p: Row, insert: RunResult, echo: Fetch<TransactionRow>)
    requires ValidBody(body) && body.qty.Str?
    requires !IsWhiteSpace(body.qty.s[0]) && !IsDigit(body.qty.s[0]) && body.qty.s[0] !in "+-."
    ensures CreateTransaction(body, ctx, Got(Some(p)), insert, echo).issued[1].values[4] == NaN
  {
    NonNumericWord(body.qty.s);
  }

  /** The three places that answer with a transaction show the same row the same way: the
      list's entry for a row, the lookup of that row and the answer to the sale that created
      it are one view. */
  lemma SameProjection(rows: seq<TransactionRow>, i: nat, id: string, body: TransactionBody, ctx: Context,
                       p: Row, insert: RunResult)
    requires i < |rows| && ValidBody(body) && insert.Ran?
    ensures GetTransactions(All(rows)).response.msg.views[i]
         == GetTransaction(id, Got(Some(rows[i]))).response.msg.view
         == CreateTransaction(body, ctx, Got(Some(p)), insert, Got(Some(rows[i]))).response.msg.view
  {
  }
}
