/** The transaction view: the flat row of the four-way join of `transaksi`, `customers`,
    `products` and `users` (index.js:802-826), and the nested object every transaction
    endpoint answers with. All three handlers that answer with transactions use the one
    projection `Reshape` defined here. */
module Projection {

  import opened JsValues

  /** One row of the join, one field per selected column alias, in select order. */
  datatype TransactionRow = TransactionRow(
    userId: JsValue, userName: JsValue, userEmail: JsValue, userRole: JsValue,
    customersId: JsValue, customersName: JsValue, customersPhone: JsValue, customersAddress: JsValue,
    transaksiId: JsValue, transaksiQuantity: JsValue, transaksiTotalPrice: JsValue, transaksiDate: JsValue,
    productId: JsValue, productName: JsValue, productPrice: JsValue, productType: JsValue)

  datatype CustomerView = CustomerView(id: JsValue, name: JsValue, phoneNumber: JsValue, address: JsValue)

  /** The user who recorded the transaction, answered under the key `admin`. */
  datatype AdminView = AdminView(id: JsValue, name: JsValue, email: JsValue, role: JsValue)

  /** `kind` is answered under the key `type`. */
  datatype ProductView = ProductView(id: JsValue, name: JsValue, price: JsValue, kind: JsValue)

  datatype DetailView = DetailView(product: ProductView, qty: JsValue, totalPrice: JsValue)

  datatype TransactionView = TransactionView(
    id: JsValue, transcDate: JsValue, customer: CustomerView, admin: AdminView, transcDetail: DetailView)

  /** The nested object built from a joined row. Every column lands in exactly one field:
      flattening the view gives the row back. */
  function Reshape(row: TransactionRow): (v: TransactionView)
    ensures Flatten(v) == row
  {
    TransactionView(
      row.transaksiId,
      row.transaksiDate,
      CustomerView(row.customersId, row.customersName, row.customersPhone, row.customersAddress),
      AdminView(row.userId, row.userName, row.userEmail, row.userRole),
      DetailView(
        ProductView(row.productId, row.productName, row.productPrice, row.productType),
        row.transaksiQuantity,
        row.transaksiTotalPrice))
  }

  /** The inverse of `Reshape`: the column each nested field came from. */
  function Flatten(v: TransactionView): TransactionRow
  {
    TransactionRow(
      v.admin.id, v.admin.name, v.admin.email, v.admin.role,
      v.customer.id, v.customer.name, v.customer.phoneNumber, v.customer.address,
      v.id, v.transcDetail.qty, v.transcDetail.totalPrice, v.transcDate,
      v.transcDetail.product.id, v.transcDetail.product.name, v.transcDetail.product.price,
      v.transcDetail.product.kind)
  }

  /** No nested field is invented: every view is the reshaping of the row it flattens to. */
  lemma ReshapeFlatten(v: TransactionView)
    ensures Reshape(Flatten(v)) == v
  {
  }

  /** Distinct rows give distinct views. */
  lemma ReshapeInjective(a: TransactionRow, b: TransactionRow)
    requires Reshape(a) == Reshape(b)
    ensures a == b
  {
    assert Flatten(Reshape(a)) == a;
  }

  /** `rows.map(reshape)`, as the transaction list does it (index.js:914-958). */
  function ReshapeAll(rows: seq<TransactionRow>): (vs: seq<TransactionView>)
    ensures |vs| == |rows|
    ensures forall i :: 0 <= i < |rows| ==> vs[i] == Reshape(rows[i])
  {
    if rows == [] then [] else [Reshape(rows[0])] + ReshapeAll(rows[1..])
  }

  function FlattenAll(vs: seq<TransactionView>): (rows: seq<TransactionRow>)
    ensures |rows| == |vs|
  {
    if vs == [] then [] else [Flatten(vs[0])] + FlattenAll(vs[1..])
  }

  /** The list projection keeps every row, in order, and loses nothing. */
  lemma {:induction false} FlattenReshapeAll(rows: seq<TransactionRow>)
    ensures FlattenAll(ReshapeAll(rows)) == rows
  {
    if rows != [] {
      FlattenReshapeAll(rows[1..]);
      assert ReshapeAll(rows)[1..] == ReshapeAll(rows[1..]);
      assert [rows[0]] + rows[1..] == rows;
    }
  }
}
