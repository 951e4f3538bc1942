/** Whole requests: the guards of a route followed by its handler. */
module Api {

  import opened Wrappers
  import opened JsValues
  import opened Store
  import opened Http
  import opened Guards
  import opened Projection
  import Routes
  import Users
  import Transactions

  /** No request deletes the owner record, whatever its token: the guards refuse it or the
      handler does, and the store receives nothing. */
  lemma OwnerRecordNeverDeleted(id: string, header: Option<string>, verify: Verifier, del: RunResult)
    requires Users.IsOwnerRecord(id)
    ensures Routes.Serve(Routes.DeleteUser, header, verify, ctx => Users.DeleteUser(id, ctx, del)).issued == []
  {
  }

  /** A sale is recorded under the id of the token that made the request, never under an id
      the body names. */
  lemma SaleRecordedUnderCaller(token: string, claims: Claims, verify: Verifier, body: Transactions.TransactionBody,
                                price: Fetch<Row>, insert: RunResult, echo: Fetch<TransactionRow>)
    requires ' ' !in token && verify(Some(token)) == Some(claims)
    requires claims.role == Str("admin") || claims.role == Str("owner")
    requires Transactions.ValidBody(body) && price.Got? && price.row.Some?
    ensures var o := Routes.Serve(Routes.CreateTransaction, Some("Bearer " + token), verify,
                                  ctx => Transactions.CreateTransaction(body, ctx, price, insert, echo));
      |o.issued| >= 2 &&
      o.issued[1] == Insert(Entity.Transactions, [claims.id, body.customerId, body.productId, body.qty,
                                                  Transactions.TotalPrice(price.row.value, body.qty)])
  {
    Routes.SignedTokenReachesHandler(Routes.CreateTransaction, token, claims, verify,
                                     ctx => Transactions.CreateTransaction(body, ctx, price, insert, echo));
  }

  /** A profile update changes the record of the token's user and gives it the token's role,
      whatever the body says; the only other statement is the read-back of that record. */
  lemma ProfileUpdateTargetsCaller(token: string, claims: Claims, verify: Verifier, body: Users.UserBody,
                                   hashSync: Users.Hasher, put: RunResult, echo: Fetch<Row>)
    requires ' ' !in token && verify(Some(token)) == Some(claims)
    ensures forall st <- Routes.Serve(Routes.UpdateProfile, Some("Bearer " + token), verify,
                                      ctx => Users.UpdateUser(body, ctx, hashSync, put, echo)).issued ::
              st == SelectById(Entity.Users, claims.id)
              || (st.Update? && st.table == Entity.Users && st.id == claims.id && st.values[4] == claims.role)
  {
    Routes.SignedTokenReachesHandler(Routes.UpdateProfile, token, claims, verify,
                                     ctx => Users.UpdateUser(body, ctx, hashSync, put, echo));
  }
}
