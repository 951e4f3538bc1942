# Laundry API: request decision layer

The laundry API is an Express service. It keeps users (roles `owner`, `admin`, `user`), products, customers and transactions in SQLite. This project models the part of `index.js` that decides what a request gets:

- the token and role middleware (`verifyToken`, `verifyRole`, `verifyRoles`);
- the guard chain each route is mounted behind;
- the branching of every user, product, customer and transaction handler;
- the pricing of a sale (`totalPrice = price * qty`);
- the reshaping of a joined transaction row into the nested object the API answers with.

The model is pure: datatypes, functions and lemmas. Everything the handlers do not decide for themselves is a parameter:

- what the store returns (a row, no row, a write result, an error);
- what bcrypt and the JWT library compute.

Each handler returns an `Outcome`, which pairs the response (status and message kind, or no reply at all) with the statements sent to the store, in order. That lets the contracts say "before any lookup" and "never inserts". The one state change in the core is `verifyToken` writing `req.userId` and `req.userRole`. It is modelled as the `Context` a guard passes on to the next guard and the handler.

JavaScript semantics matter in several places, so they are modelled (`JsValues`):

- body checks use truthiness, so `0` and `""` are rejected;
- the owner-record test is `id == 1` on a string route parameter, so `"01"` and `"1.0"` name the owner;
- `role == "owner"` is a loose comparison;
- `price * qty` coerces strings to numbers.

Several behaviours of the code differ from what a reader of the route list would expect. The model follows the code in each case:

- A failed login answers 401 with two different texts: "Invalid username or password" for an unknown user and "Invalid password" for a wrong password. That difference reveals which usernames exist.
- Login asks the store for the user before it checks the body, so a store error wins over an invalid body.
- A failed product lookup in `createTransaction`, store error included, is answered as "Product ID not found" (404).
- Every constraint error on the sale insert is answered as "Customer ID not found" (404).
- A constraint error (errno 19) on a user write always names the username as already registered. SQLite reports every violated constraint with that code, not only a duplicate username.
- After a successful create or edit of a product or customer, and after either user update, the handler reads the record back for its `createdAt`. Registration does not. When that read fails or finds nothing, the callback throws and the request is never answered.

## Model

| member | source | states |
|---|---|---|
| JsValues.TruthyIffNotFalsy | index.js:193 | a value fails `!v` exactly when it is one of `undefined`, `null`, `false`, `0`, `NaN`, `""` |
| JsValues.Multiply | index.js:1015 | `a * b` is a number exactly when both operands coerce to numbers, and is then their product; otherwise NaN |
| JsValues.DigitStringToNumber | index.js:171 | a non-empty string of digits coerces to its decimal value (`"01"` is 1) |
| JsValues.DecimalStringToNumber | index.js:171 | `whole.fraction` coerces to whole plus fraction scaled down (`"1.0"` is 1) |
| JsValues.NonNumericWord | index.js:171 | a string starting with anything but white space, a digit, a sign or a point coerces to NaN |
| JsValues.LooseEqualsWord | index.js:171 | `v == w` for a non-numeric string `w` holds exactly when `v` is the string `w` |
| JsValues.LooseEqualsParam | index.js:386 | a string route id `== n` exactly when the id coerces to `n` |
| Strings.Split | index.js:419 | `split(" ")` yields at least one field, no field contains a space, and joining the fields with spaces gives the string back |
| Strings.SplitJoin | index.js:419 | splitting the join of space-free fields gives those fields back |
| Guards.BearerToken | index.js:419 | `authHeader.split(" ")[1]` is undefined exactly when the header has no space |
| Guards.BearerTokenOf | index.js:419-422 | a header `"Bearer " + token` hands the verifier exactly `token` |
| Guards.VerifyToken | index.js:412-431 | no header gives 403 "No token provided" without consulting the verifier; a rejected token gives 401; otherwise the request goes on, exactly when verification succeeds, with the decoded id and role as its context |
| Guards.VerifyRole | index.js:433-443 | passes, with the context unchanged, exactly when the role is strictly the required one; otherwise 403 "Require <role> role" |
| Guards.VerifyRoles | index.js:445-453 | passes, with the context unchanged, exactly for "admin" and "owner"; otherwise 403 "Require owner or admin role" |
| Routes.ChainEnforcesPolicy | index.js:458-476 | for every route, the mounted guards let a request through exactly when the role policy (open auth routes; owner area and product writes for the owner; admin, customer and transaction routes for admin or owner; the rest for any valid token) admits its claims; the context is then the claims, otherwise the answer is the policy's refusal |
| Routes.PublicRoutes | index.js:458-459 | only register and login are public; every other route starts with `verifyToken` |
| Routes.RefusedRequestsTouchNothing | index.js:629-640 | a request the policy refuses is answered by the guards and sends nothing to the store, whatever its handler |
| Routes.SignedTokenReachesHandler | index.js:794-798 | a well-formed bearer token the verifier accepts reaches the handler of every route its role admits, carrying its id and role |
| Results.ListReply | index.js:150-152 | a list read answers 200 with the rows exactly when it succeeds, otherwise 500 with the error message |
| Results.FetchReply | index.js:176-181 | a lookup answers 200 with the row, 404 "<entity> not found" exactly when there is no row, 500 with the error message on a store error |
| Results.UserWriteRefusal | index.js:285-304 | errno 19 gives 400 "already registered" and any other error 500, both before the write result is looked at; an update with warnings gives 400 "invalid role", then zero changed rows 400 "No rows updated"; there is no refusal exactly when the write ran and, for an update, changed a row without warnings |
| Results.ChangeRefusal | index.js:586-591 | no constraint case: an error is 500, zero changed rows 400 "No rows updated/deleted"; there is no refusal exactly when a row changed |
| Users.WithoutFirst | index.js:152 | `slice(1)`: the first element followed by the result is the input; an empty input gives an empty result |
| Users.GetUsers | index.js:149-154 | reads all users; 200 with every row but the first exactly when the read succeeds; a failed read is 500 with its message |
| Users.ListingHidesOwner | index.js:152 | when the owner's row (id 1) comes first and ids are distinct, no listed row has id 1 |
| Users.GetUserProfile | index.js:157-166 | looks up the token's own id, and only that id |
| Users.GetUser | index.js:168-182 | id 1 asked by a non-owner is 403 before any lookup; any other request looks up the route id |
| Users.ActsAsOwnerIffOwnerRole | index.js:171 | `role != "owner"` is false exactly for the owner role |
| Users.OwnerRecordOnlyForOwner | index.js:171-174 | a 200 for the owner record implies the caller's role is owner |
| Users.OwnerRecordDigits | index.js:171 | a digit-string id names the owner record exactly when its value is 1 |
| Users.OwnerRecordDecimal | index.js:386 | a decimal id names the owner record exactly when its value is 1 |
| Users.CreateUser | index.js:185-219 | a truthy non-string password gets no answer; the store is written exactly when name, username, email and hashed password are truthy; the row stored and echoed has role "user"; every other body is 400 "Invalid request body"; the write result is classified as a user write |
| Users.RegistrationIgnoresRole | index.js:58 | the role a registration body names changes nothing |
| Users.LoginUser | index.js:222-266 | always issues the username lookup; a store error is 500 before the body check; an invalid body is 400; an unknown user is 401 "Invalid username or password"; a password or stored hash that is not a string is 500 "Illegal arguments"; a wrong password is 401 "Invalid password"; 200 exactly for a known user whose string password bcrypt accepts, answered with the token signed from the row's id and role and the profile |
| Users.Profile | index.js:245-251 | the login profile has exactly name, username, email, role and createdAt, each taken from the user row |
| Users.UpdateUser | index.js:268-322 | a non-string password throws (500); an invalid body is 400; the store is written exactly when the body is valid, first the token's id with the token's role; a refused write is answered with its refusal; an accepted one reads the record back and answers 201 with its creation time, or not at all when the read-back finds nothing |
| Users.SelfUpdateKeepsIdentity | index.js:269-283 | the role a self-update body names changes nothing, and every statement issued either updates the token's id with the token's role or reads that record back |
| Users.UpdateAcceptsEmptyPassword | index.js:272-273 | an empty password passes the self-update check, while registration refuses it |
| Users.OwnerUpdateUser | index.js:324-380 | as the self-update, but for the route id and with the body's role written unchecked; the record read back is the route id's |
| Users.DeleteUser | index.js:382-409 | the owner record is never sent to the store: 400 "no authority" for a non-owner, 400 "you are the owner" for the owner; any other id is deleted and the result classified |
| Records.EditSucceedsIffChanged | index.js:577-607 | an edit succeeds exactly when the body is valid, a row changed and the read-back finds it; it sends nothing exactly when the body is refused |
| Products.Columns | index.js:555 | the body passes `!name \|\| !price \|\| !type` exactly when all three columns are truthy |
| Products.GetProducts | index.js:534-539 | reads the product table; 200 with the rows exactly on success, else 500 |
| Products.GetProduct | index.js:541-550 | looks up the route id; 404 "Product not found" exactly when there is no row; 200 with a found row; 500 with the message on a store error |
| Products.CreateProduct | index.js:552-575 | a falsy field is 400 with nothing stored; otherwise exactly the body's fields are inserted; a failed insert is 500; a stored product is read back by its new id; 201 with the new id, the fields and the creation time exactly when the read-back finds it, otherwise no answer |
| Products.EditProduct | index.js:577-607 | a falsy field is 400 with nothing stored; otherwise the route id gets the body's fields; a failed update is 500, zero changed rows 400 "No rows updated"; a changed row is read back and answered 201 with the route id, the fields and the creation time, or not at all when the read-back finds nothing |
| Products.DeleteProduct | index.js:609-625 | deletes the route id; 200 "Product deleted" exactly when a row changed; 400 when none did; 500 with the message on error |
| Products.PriceMustBeNonZero | index.js:555-556 | a price of 0 is refused; a negative price is stored |
| Customers.Columns | index.js:719 | the body passes `!name \|\| !phoneNumber \|\| !address` exactly when all three columns are truthy |
| Customers.GetCustomers | index.js:698-703 | reads the customer table; 200 with the rows exactly on success, else 500 |
| Customers.GetCustomer | index.js:705-714 | looks up the route id; 404 "Customer not found" exactly when there is no row; 200 with a found row; 500 with the message on a store error |
| Customers.CreateCustomer | index.js:716-739 | a falsy field is 400 with nothing stored; otherwise exactly the body's fields are inserted; a failed insert is 500; a stored customer is read back by its new id; 201 with the new id, the fields and the creation time exactly when the read-back finds it, otherwise no answer |
| Customers.EditCustomer | index.js:741-771 | a falsy field is 400 with nothing stored; otherwise the route id gets the body's fields; a failed update is 500, zero changed rows 400 "No rows updated"; a changed row is read back and answered 201 with the route id, the fields and the creation time, or not at all when the read-back finds nothing |
| Customers.DeleteCustomer | index.js:773-789 | deletes the route id; 200 "Customer deleted" exactly when a row changed; 400 when none did; 500 with the message on error |
| Projection.Reshape | index.js:974-999 | the nested view flattens back to the joined row |
| Projection.ReshapeFlatten | index.js:974-999 | reshaping is onto: every view is the reshaping of its flattening |
| Projection.ReshapeInjective | index.js:1031-1056 | distinct joined rows give distinct views |
| Projection.ReshapeAll | index.js:914-958 | `rows.map(reshape)` keeps the length and reshapes each row in place |
| Projection.FlattenReshapeAll | index.js:914-958 | flattening the list of views gives back every row, in order |
| Transactions.GetTransactions | index.js:911-962 | reads the join; 200 exactly on success, with views that flatten back to the rows; else 500 |
| Transactions.GetTransaction | index.js:964-1003 | looks up the route id; 404 exactly when there is no row; 200 exactly for a row, with its view |
| Transactions.TotalPrice | index.js:1015 | the total is a number exactly when price and quantity coerce to numbers, and is then their product; otherwise NaN |
| Transactions.CreateTransaction | index.js:1005-1066 | a falsy field is 400 before any lookup; the price is read first; no product row is 404 with no insert; otherwise the sale is inserted under the caller's id with `price * qty`; a constraint error is 404 "Customer ID not found", any other 500; a recorded sale is read back and answered 201 with its view, or not at all when the read-back finds nothing |
| Transactions.RecordedTotal | index.js:1015 | a numeric price and a quantity given as a number or as a digit string give a total that is their product |
| Transactions.QuantityValue | index.js:1015 | a quantity given as a number or a digit string coerces to its value |
| Transactions.NonNumericQuantity | index.js:1008-1015 | a truthy non-numeric quantity passes the check and is recorded with a NaN total |
| Transactions.SameProjection | index.js:1031-1056 | the list, the lookup and the sale's answer show a joined row as the same view |
| Api.OwnerRecordNeverDeleted | index.js:386-395 | a delete request for the owner record sends nothing to the store, whatever its token |
| Api.SaleRecordedUnderCaller | index.js:1007-1020 | through the route's guards, a sale is inserted under the id of the token that made it, with `price * qty` |
| Api.ProfileUpdateTargetsCaller | index.js:476 | through the route's guards, a profile update only writes the token's own record with the token's role, and only reads that record back |

## Left out

- The SQLite access layer (index.js:14-141, 478-532, 642-696, 800-909) is not modelled. Whatever the store returns is an input of each handler. The schema and its constraints are not visible.
- bcrypt (`hash`, `hashSync`, `compareSync`) and JWT (`sign`, `verify`) are oracles: function parameters whose results are inputs. Their algorithms, salts and expiry are not modelled.
- The signing secret falls back to `"secret"` while verification uses the configured secret as is (index.js:238 vs 422). This mismatch is only reflected in that the verifier oracle may reject any token.
- Users.CreateUser: the raw write result echoed under `result` is not part of the `Registered` message.
- Users.UpdateUser: the raw write result echoed under `result` is not part of the `UserUpdated` message.
- Users.OwnerUpdateUser: the raw write result echoed under `result` is not part of the `UserUpdated` message.
- Products.CreateProduct: the raw write result echoed under `result` is not part of the `Saved` message.
- Products.EditProduct: the raw write result echoed under `result` is not part of the `Saved` message.
- Customers.CreateCustomer: the raw write result echoed under `result` is not part of the `Saved` message.
- Customers.EditCustomer: the raw write result echoed under `result` is not part of the `Saved` message.
- JsValues.StringToNumber: hexadecimal, binary and octal literals and `Infinity` coerce to NaN here, while JavaScript gives numbers.
- Users.GetUser: because of that, a route id such as `"0x1"` is not taken for the owner record. In JavaScript `"0x1" == 1` holds, so the code answers a non-owner 403; the model looks the id up instead.
- Users.DeleteUser: for the same reason, `"0x1"` is deleted in the model. The code refuses it with 400 without touching the store.
- JsValues.Multiply: the product is exact. Floating-point rounding and overflow to `Infinity` are not modelled.
- Objects and arrays in request bodies are a single `Obj` value. Two objects compared with `==` are taken to be distinct, because object identity is not modelled.
- The framework's answer to a thrown exception is a single message kind, `UncaughtException`.
- A handler that dies inside a store callback gets `NoReply`. The unhandled rejection and its logging are not modelled.
- Users.CreateUser: the `NoReply` for a truthy non-string password assumes the framework leaves a rejected asynchronous handler unanswered, as Express 4 does. Express 5 would answer 500.
- Users.DeleteUser: the raw write result echoed under `result` is not part of the `Deleted` message.
- Products.DeleteProduct: the raw write result echoed under `result` is not part of the `Deleted` message.
- Customers.DeleteCustomer: the raw write result echoed under `result` is not part of the `Deleted` message.
- The Express setup is not modelled: CORS, JSON parsing, logging, the `/api/v1` mount prefix, the 404 fallback for unknown paths and `listen` (index.js:1076-1106). Routes are identified by method and path below the prefix.
- Concurrent requests and the interleaving of asynchronous callbacks are not modelled. Each request is one sequential decision.
