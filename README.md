# Order lifecycle of the INF349 shop API, in Dafny

This project models the order lifecycle of the INF349 shop API (`api/inf349.py`), a Flask service. The service keeps its data in PostgreSQL through peewee. It caches order views in Redis and pays orders through an rq background job. The model keeps the same data in memory as one ledger: one map per table, the cache as a map from order id to view, and the job queue as a sequence.

It has two layers.

- **Transitions on values** (modules `Orders`, `Views`, `Requests`, `Payment`). Each endpoint and each step of the payment job is a function from the ledger (`Records.Tables`) to the new ledger and the reply. The lemmas next to these functions prove what the service promises:
  - the order of the line checks;
  - all-or-nothing order creation;
  - the pending lock;
  - `set_error`'s replace-don't-append rule;
  - the charge amount and the stored card;
  - the cache written only for successful payments.

  `Consistency` defines the invariant between requests:
  - every reference resolves;
  - auto-increment counters are fresh;
  - every error row belongs to exactly one transaction;
  - queued jobs hold their order's lock;
  - only terminal views are cached.

  A lemma proves that every transition keeps this invariant.
- **The running service** (module `Store`). Class `Store.Store` has one mutable field per table. Its methods update the tables in place, with the loops the source has:
  - the per-item checks of a multi-product order;
  - the line inserts;
  - the sums in `get_order` and in `do_background_task`.

  Each method is proved to produce exactly the ledger and reply of its transition. The four entry points also keep the ledger consistent: POST `/order`, GET and PUT `/order/<id>`, and the worker taking a job.

Shipping prices are in module `Shipping`. Records, payloads, views and replies are in module `Records`.

Inputs that come from outside are parameters:
- the product catalog (the service fetches it from a remote URL);
- the payment gateway's answer (`Payment.Gateway`: a transaction, an error code and name, or no answer at all);
- the uuid a new failed transaction gets (`freshTx`).

## Model

| member | source | states |
|---|---|---|
| Shipping.ShippingPrice | api/inf349.py:413-419 | the price is 5, 10 or 25; it is 5 exactly below weight 500 and 25 exactly from 2000 |
| Shipping.ShippingPriceMonotonic | api/inf349.py:413-419 | a heavier order never ships for less |
| Shipping.ShippingPriceBoundaries | api/inf349.py:413-419 | 499 gives 5, 500 gives 10, 1999 gives 10, 2000 gives 25 |
| Orders.CheckLine | api/inf349.py:118-132 | no error exactly when the product exists, is in stock and the quantity is at least 1; each error is returned exactly under its condition, in the order existence, stock, quantity |
| Orders.CheckItem | api/inf349.py:136-143 | a falsy id or quantity is `missing-fields`; otherwise the line check's error, or the requested line (in the catalog, quantity at least 1) |
| Orders.ValidateItems | api/inf349.py:161-174 | success exactly when every item passes, with one line per item in payload order; a failure carries the error of the first failing item, all items before it passing |
| Orders.ValidatePrefixFailure | api/inf349.py:162-172 | once a prefix of the items fails, the whole list fails with that error |
| Orders.ValidatedLinesInCatalog | api/inf349.py:161-174 | accepted lines name catalog products and ask for at least one unit |
| Orders.ProductRefs | api/inf349.py:208-214 | one `{id, quantity}` entry per line, in line order |
| Orders.SubTotal | api/inf349.py:207-217 | no contract of its own: the sum of price times quantity over the lines; `Orders.SumsAdditive`, `Views.AssembleView` and `Payment.ChargeRequestAmount` state its properties |
| Orders.TotalWeight | api/inf349.py:206-220 | no contract of its own: the sum of quantity times weight over the lines; `Orders.SumsAdditive`, `Views.AssembleView` and `Payment.ChargeRequestAmount` state its properties |
| Orders.SumsAdditive | api/inf349.py:206-220 | the total price and total weight of two lists of lines put together are the sums of their totals, so the line-by-line accumulation may be cut anywhere |
| Orders.PostManyAllOrNothing | api/inf349.py:157-183 | a multi-product POST fails exactly when some item fails, with the first failing item's error and no state change; otherwise exactly one new order (fresh id, default columns) appears with one line per item in payload order, and nothing else changes |
| Orders.SingleIsListOfOne | api/inf349.py:135-183 | a single-product POST behaves like a list holding that one product |
| Orders.PostOrderLinesInCatalog | api/inf349.py:141-148 | the lines of a created order name catalog products with quantity at least 1 |
| Orders.CreateOrder | api/inf349.py:176-179 | no contract of its own: the order row and its lines under the next order id; `Orders.PostManyAllOrNothing` and `Orders.CreateOrderConsistent` state its properties |
| Orders.PostOrder | api/inf349.py:104-183 | no contract of its own: POST /order for either payload shape; `Orders.PostManyAllOrNothing`, `Orders.SingleIsListOfOne`, `Orders.PostOrderLinesInCatalog` and `Orders.PostOrderConsistent` state its properties |
| Orders.CreateOrderConsistent | api/inf349.py:176-179 | adding an order with well-formed lines keeps the ledger consistent |
| Orders.PostOrderConsistent | api/inf349.py:104-183 | POST /order keeps the ledger consistent |
| Views.TransactionSummary | api/inf349.py:242-252 | empty exactly without a transaction; otherwise success and amount of the row, the error row exactly when one is attached, and the transaction id exactly when none is |
| Views.AssembleView | api/inf349.py:199-252 | the view has the order's own columns without `pending`, one entry per line, the total price, the shipping price of the total weight, and the referenced shipping, card and transaction rows (empty when none) |
| Views.PaymentSucceeded | api/inf349.py:255 | no contract of its own: the order has a transaction and it succeeded; `Views.GetOrderCachesOnlySuccess` states what depends on it |
| Views.GetOrder | api/inf349.py:188-260 | no contract of its own: GET /order/<id>; `Views.CacheHitIsVerbatim`, `Views.GetOrderCachesOnlySuccess`, `Views.CachedViewRoundTrip` and `Views.GetOrderConsistent` state its properties |
| Views.CacheHitIsVerbatim | api/inf349.py:189-191 | a cached view is answered as it is, whatever the ledger says, and nothing changes |
| Views.GetOrderCachesOnlySuccess | api/inf349.py:188-260 | GET changes only the cache; it fails, with `order-does-not-exist`, exactly for an order neither cached nor stored; it adds the answered view to the cache exactly when the order was not cached and its transaction succeeded |
| Views.CachedViewRoundTrip | api/inf349.py:254-260 | after a successful order's view is cached, the next GET answers that same view and changes nothing |
| Views.GetOrderConsistent | api/inf349.py:255-257 | GET keeps the ledger consistent |
| Consistency.EmptyTablesConsistent | api/inf349.py:80-94 | the empty ledger is consistent |
| Consistency.OrderUpdateRefs | api/inf349.py:80-87 | replacing one order row whose references resolve, in tables that only grew, keeps every order reference resolvable |
| Consistency.OrderUpdateLocks | api/inf349.py:295-299 | replacing an order row keeps every queued job's lock when the row stays locked or no job is queued for it |
| Consistency.OrderUpdateSuccessPaid | api/inf349.py:389-394 | replacing an order row keeps every order with a successful transaction paid |
| Consistency.OrderUpdateCache | api/inf349.py:255-257 | replacing an order row keeps the cache holding only paid orders when a cached order stays paid |
| Consistency.RelinkErrorsOwned | api/inf349.py:343-351 | pointing a transaction at a fresh error row and deleting its previous one leaves every error row owned by exactly one transaction and every error reference resolvable |
| Consistency.AddTransactionErrorsOwned | api/inf349.py:352-353 | adding a transaction with a fresh error row, or none, keeps error ownership and error references |
| Consistency.OrderColumnsConsistent | api/inf349.py:358-360 | changing only an order's email or lock keeps the ledger consistent while no queued job loses its lock |
| Consistency.CacheViewConsistent | api/inf349.py:255-257 | caching a paid order's view that shows a successful transaction keeps the ledger consistent |
| Consistency.PopConsistent | api/inf349.py:297-299 | taking the head job off the queue keeps the ledger consistent, and no job left in the queue is for that order |
| Requests.ShippingRow | api/inf349.py:55-61 | a row exists exactly when every field is non-null and the postal code has 7 characters, and it holds the submitted values |
| Requests.SaveShipping | api/inf349.py:270-287 | no contract of its own: the intended shipping store, rewriting only the order's own row; `Requests.ShippingRow`, `Requests.SaveShippingTouchesOnlyOwnRow`, `Requests.SaveShippingResolvable` and `Requests.SaveShippingConsistent` state its properties |
| Requests.UpdateShipping | api/inf349.py:263-292 | no contract of its own: the shipping PUT; `Requests.UpdateShippingErrors`, `Requests.UpdateShippingStoresThenAnswers` and `Requests.ShippingUpdateOnCachedOrderAnswersStaleView` state its properties |
| Requests.UpdateCreditCard | api/inf349.py:294-300 | no contract of its own: the card PUT; `Requests.CardPutLocksAndEnqueues` and `Requests.UpdateCreditCardConsistent` state its properties |
| Requests.PutOrder | api/inf349.py:302-321 | no contract of its own: PUT /order/<id> dispatch; `Requests.PutRefusals`, `Requests.PutOnPendingOrderIsRejected` and `Requests.PutOrderConsistent` state its properties |
| Requests.UpdateShippingAsWritten | api/inf349.py:263-292 | no contract of its own: the shipping PUT with the update as written; `Requests.AsWrittenUpdateRewritesOtherOrders` states where it departs from `Requests.UpdateShipping` |
| Requests.SaveShippingResolvable | api/inf349.py:270-287 | storing a shipping update keeps every reference resolvable |
| Requests.UpdateKeepsResolvable | api/inf349.py:270-287 | rewriting one order's shipping reference and email, to a row of a shipping table that only grew, keeps the ledger resolvable |
| Requests.PutRefusals | api/inf349.py:302-319 | an unknown order is `order-not-found`, a locked one `order-pending`, an unlocked one with a payload naming neither key `missing-fields`; none of them changes anything |
| Requests.PutOnPendingOrderIsRejected | api/inf349.py:308-309 | every PUT on a locked order is `order-pending` and changes nothing |
| Requests.CardPutLocksAndEnqueues | api/inf349.py:294-300 | a card PUT on an unlocked order answers 202, locks it, changes none of its other columns, appends exactly one job with the card data, and changes nothing else |
| Requests.UpdateShippingErrors | api/inf349.py:263-290 | `json-not-valid` exactly for a missing key; a constraint violation is a 500 exactly when the order has a shipping row and `invalid-fields` exactly when it has none; errors change nothing; any other update answers a view |
| Requests.SaveShippingTouchesOnlyOwnRow | api/inf349.py:270-287 | the update rewrites the order's own shipping row, or adds one under the next unused id; every other shipping row, every other order and every other table stay the same, and the email is set |
| Requests.UpdateShippingStoresThenAnswers | api/inf349.py:284-292 | a valid update stores the new row and email, then answers what a GET of the updated ledger answers |
| Requests.ShippingUpdateOnCachedOrderAnswersStaleView | api/inf349.py:263-292 | updating a cached order answers the cached view, which still shows the old values |
| Requests.SaveShippingAsWritten | api/inf349.py:271-274 | the update as written; for an order without a shipping row it is the corrected update |
| Requests.SaveShippingAsWrittenResolvable | api/inf349.py:271-274 | the update as written keeps every reference resolvable |
| Requests.AsWrittenRewritesEveryRow | api/inf349.py:273-274 | as written, updating an order that has a shipping row gives every shipping row the new values |
| Requests.AsWrittenUpdateRewritesOtherOrders | api/inf349.py:273-274 | two orders with their own rows: the update as written also rewrites the second order's row, and the corrected update leaves it alone |
| Requests.UpdateCreditCardConsistent | api/inf349.py:294-300 | locking an unlocked order and queueing its job keeps the ledger consistent |
| Requests.SaveShippingConsistent | api/inf349.py:270-290 | storing a shipping update keeps the ledger consistent |
| Requests.PutOrderConsistent | api/inf349.py:262-321 | every PUT keeps the ledger consistent |
| Payment.Precondition | api/inf349.py:363-378 | no error exactly when every check passes; otherwise the first failing check's error, in the order already paid, card keys, email or shipping, card number, no lines |
| Payment.FirstFour | api/inf349.py:401 | the first four characters of the number (all of them when shorter) |
| Payment.LastFour | api/inf349.py:402 | the last four characters of the number (all of them when shorter) |
| Payment.CardRow | api/inf349.py:400-404 | a card row exists exactly when name, number and expiry are non-null; it holds the name, the first and last four characters of the number and the expiry |
| Payment.StoredCardHidesNumber | api/inf349.py:400-404 | for an accepted number the stored card keeps exactly four characters at each end, fewer than the whole number |
| Payment.ClearOrderLock | api/inf349.py:358-361 | no contract of its own: the order is unlocked; `Payment.JobReleasesLock` and `Payment.ClearOrderLockConsistent` state its properties |
| Payment.SetError | api/inf349.py:338-356 | no contract of its own: `set_error`; `Payment.SetErrorReplaces`, `Payment.SetErrorErrorCount` and `Payment.SetErrorConsistent` state its properties |
| Payment.RecordCharge | api/inf349.py:389-394 | no contract of its own: the gateway's transaction stored and linked, the order paid; `Payment.ChargeSucceeds` and `Payment.RecordChargeConsistent` state its properties |
| Payment.AttachCard | api/inf349.py:400-406 | no contract of its own: a new card row linked to the order; `Payment.ChargeSucceeds` and `Payment.AttachCardConsistent` state its properties |
| Payment.DoBackgroundTask | api/inf349.py:329-410 | no contract of its own: one payment job; `Payment.FailedCheckSkipsGateway`, `Payment.ChargeSucceeds`, `Payment.ChargeDeclined`, `Payment.JobReleasesLock` and `Payment.DoBackgroundTaskConsistent` state its properties |
| Payment.RunNextJob | api/inf349.py:329-410 | no contract of its own: the worker runs the head job of the queue; `Payment.RunNextJobConsistent` states its properties |
| Payment.SetErrorAddsErrorRow | api/inf349.py:340-341 | one new error row under a fresh id, with the message in `code` and the slug in `name` |
| Payment.SetErrorFrame | api/inf349.py:338-356 | the order ends unlocked with its other columns except the transaction unchanged; no other order, line, shipping row, card, cache entry or job changes |
| Payment.SetErrorRelinks | api/inf349.py:343-349 | an existing transaction keeps its id, success and amount and now references the new error; other transactions do not change |
| Payment.SetErrorDeletesPrior | api/inf349.py:345-351 | the error row the transaction referenced is deleted, no other row is, and every other row keeps its contents |
| Payment.SetErrorCreatesTransaction | api/inf349.py:352-353 | without a transaction, a new failed one for the given amount references the new error |
| Payment.SetErrorReplaces | api/inf349.py:338-356 | the whole replace-don't-append rule: one new error row; an existing transaction keeps its id, success and amount, references the new row, the set of transactions stays the same and the error rows are exactly the old ones minus the one it referenced plus the new one; without a transaction, one new failed transaction for the amount; every other error row keeps its contents; the order unlocked; nothing else changed |
| Payment.SetErrorErrorCount | api/inf349.py:338-356 | a failure on a transaction that already has an error keeps the number of error rows; any other failure adds exactly one |
| Payment.ClearOrderLockConsistent | api/inf349.py:358-361 | releasing the lock of an order with no queued job keeps the ledger consistent |
| Payment.SetErrorConsistent | api/inf349.py:338-356 | `set_error` on an order with no queued job, with an unused uuid, keeps the ledger consistent |
| Payment.SetErrorRelinkConsistent | api/inf349.py:343-351 | relinking an existing transaction to the new error keeps the ledger consistent |
| Payment.SetErrorNewTransactionConsistent | api/inf349.py:352-353 | creating the failed transaction keeps the ledger consistent |
| Payment.FailedCheckSkipsGateway | api/inf349.py:363-378 | a failed check is recorded through `set_error` and nothing is sent to the gateway, whatever it would answer; paid is unchanged and the order is unlocked |
| Payment.ChargeRequestAmount | api/inf349.py:380-384 | the request carries the card data as submitted and the subtotal plus the shipping price of the total weight |
| Payment.ChargeSucceeds | api/inf349.py:389-407 | an approved charge stores the gateway transaction as the order's, marks the order paid, stores and links the card row, unlocks the order, and touches no error row and no other order |
| Payment.ChargeWithUnstorableCard | api/inf349.py:400-410 | an approved charge with a card that cannot be stored leaves the order paid with the gateway transaction, which now references an `invalid-fields` error, and unlocks it |
| Payment.ChargeDeclined | api/inf349.py:395-397 | a declined charge is recorded with the gateway's code and name swapped into the name and code columns; the order stays unpaid and ends unlocked |
| Payment.JobReleasesLock | api/inf349.py:329-410 | a job ends with no bookkeeping exactly when its checks pass and the charge raises; then nothing changes and the order stays locked; every other end unlocks the order |
| Payment.FailedRetryKeepsErrorCount | api/inf349.py:343-351 | a job that fails a check or is declined, on an order whose transaction already has an error, keeps the number of error rows |
| Payment.UnstorableCardAddsErrorRow | api/inf349.py:389-410 | an approved charge whose card cannot be stored ends with `invalid-fields` on the gateway's new transaction, keeps every old error row and adds exactly one |
| Payment.RetrySuccessKeepsOldErrorRow | api/inf349.py:389-394 | a success after failures relinks the order to the new transaction, but keeps the failed transaction and its error row |
| Payment.RecordChargeConsistent | api/inf349.py:389-394 | storing the gateway's transaction under an unused id keeps the ledger consistent |
| Payment.AttachCardConsistent | api/inf349.py:400-406 | attaching a new card row keeps the ledger consistent |
| Payment.DoBackgroundTaskConsistent | api/inf349.py:329-410 | a job for an order with no other queued job keeps the ledger consistent, whatever the gateway answers |
| Payment.RunNextJobConsistent | api/inf349.py:329-410 | the worker keeps the ledger consistent when the uuid for a new failed transaction is unused |
| Store.Store.constructor | api/inf349.py:80-94 | an empty ledger over the catalog, consistent |
| Store.Store.CheckItems | api/inf349.py:161-174 | the loop over the items gives exactly `ValidateItems` |
| Store.Store.CreateOrder | api/inf349.py:176-179 | the order row and its line inserts give exactly the ledger of `Orders.CreateOrder` |
| Store.Store.PostOrder | api/inf349.py:104-183 | POST /order gives the ledger and reply of `Orders.PostOrder` and keeps the ledger consistent |
| Store.Store.LineSummary | api/inf349.py:204-223 | the loop gives the product entries, total price and total weight of the lines |
| Store.Store.LoadOrder | api/inf349.py:188-260 | the cache lookup, the view assembly and the cache write give the ledger and reply of `Views.GetOrder` |
| Store.Store.GetOrder | api/inf349.py:188-260 | GET, as `Views.GetOrder`, keeping the ledger consistent |
| Store.Store.UpdateShippingOrder | api/inf349.py:263-292 | the shipping update in place, as `Requests.UpdateShipping` |
| Store.Store.UpdateCreditCard | api/inf349.py:294-300 | the lock and the enqueue, as `Requests.UpdateCreditCard` |
| Store.Store.PutOrder | api/inf349.py:302-321 | PUT, as `Requests.PutOrder`, keeping the ledger consistent |
| Store.Store.ClearOrderLock | api/inf349.py:358-361 | the lock release in place |
| Store.Store.SetError | api/inf349.py:338-356 | `set_error` in place, as `Payment.SetError` |
| Store.Store.RecordCharge | api/inf349.py:389-394 | the gateway's transaction stored and linked in place, the order paid |
| Store.Store.AttachCard | api/inf349.py:400-406 | the card row stored and linked in place |
| Store.Store.ChargeTotals | api/inf349.py:330-336 | the loop gives the subtotal and the total weight of the lines |
| Store.Store.DoBackgroundTask | api/inf349.py:329-410 | the job in place, as `Payment.DoBackgroundTask`, with the same gateway request and end |
| Store.Store.RunNextJob | api/inf349.py:450-460 | the worker runs the head job, as `Payment.RunNextJob`, keeping the ledger consistent |

## Left out

- Flask, HTTP and JSON plumbing: routing, `request.json`, redirects, `jsonify`, status codes other than those in `ApiError`, and CORS. The `AttributeError`-based choice between `product` and `products` (api/inf349.py:104-115) becomes the payload variant `OrderPayload`. A successful POST answers `Created(id)` instead of the redirect to `/order/<id>`.
- PostgreSQL and peewee: the connection, `save()`, lazy foreign-key loading, `init_db` and `delete_db`. Tables are maps. An `IntegrityError` becomes the constraint it stands for: a non-null column, or the 7-character postal code. The `IntegrityError` branches of order creation (api/inf349.py:149-151, 180-182) cannot trigger once the products are checked, so they are not modelled.
- Redis and rq: the connection, JSON (de)serialisation of cached views and the cache's `unknown-error` branch (api/inf349.py:258-259), job pickling and `result_ttl`. The cache is a map of views and the queue a sequence of jobs. rq pickles the order when the job is queued, but the model's job reads the live order row. While the order is locked no PUT can change that row, so in a sequential model both readings agree.
- The payment gateway's HTTP call (api/inf349.py:387) is the parameter `gateway`. A call that raises is `Unreachable`: the job ends as `Crashed`, the ledger is unchanged and the order stays locked.
- `uuid.uuid1()` is the parameter `freshTx`. Callers ensure it is not in use.
- `populate_database` and the product import (api/inf349.py:422-440): the catalog is a given map.
- `display_products` (api/inf349.py:97-101) only lists the catalog.
- Concurrency: the lock is checked (api/inf349.py:308) and set (api/inf349.py:295) non-atomically, and the worker runs in a separate process whose steps may interleave with requests. The model runs requests and jobs one at a time.
- Floating point: prices and charged amounts are `FloatField`s in the source and integers here, so rounding is not modelled.
- Database id allocation: auto-increment ids are the counters `nextOrder`, `nextShipping`, `nextCard` and `nextError`.
- The client under `client/` is not part of this model: it holds only UI code and demo payloads.
- Column widths: peewee's `CharField` is a 255-character column and `IntegerField` a 32-bit one, and a value past either raises `DataError`, which the service does not catch. The model's strings and integers are unbounded, so it does not capture these failures:
  - A quantity of 2147483648 in a multi-product POST makes the line insert at api/inf349.py:179 fail after the order row of line 177 is stored. The service answers 500 and keeps an order without all its lines, where the model answers `Created`; `Orders.PostManyAllOrNothing` holds only for values that fit their columns.
  - A shipping field or an email over 255 characters answers 500 at api/inf349.py:278 or 287, not `invalid-fields`. At line 287 the shipping row is already written.
  - A card name over 255 characters on an approved charge fails at api/inf349.py:401 after line 394 has saved the order as paid. The order stays paid, without a card, and locked for good, where the model answers `Charged` and unlocks it; `Payment.JobReleasesLock` holds only for values that fit their columns.
- A null card payload (`"credit_card": null`) is accepted at api/inf349.py:316-317 and locks the order. Its job then raises at line 366 on an unpaid order, so the lock is never released. `CardPayload` has no null value, so the model does not capture this case.
- Line order: the line selects at api/inf349.py:204 and 330 have no ORDER BY, so the database may return the lines in any order. The model keeps them in insertion order. `Orders.PostManyAllOrNothing` and `Views.AssembleView` state payload order, which the service does not promise for its views.

Where the code and the service's documented behaviour disagree, the model follows the code:
- A gateway that cannot be reached crashes the job and leaves the order locked; it is not recorded as an error.
- The cache is never invalidated, so a shipping update on a cached order answers the old view.
- A success after failures keeps the old failed transaction and its error row.
- PUT on an unknown order answers `order-not-found`, while GET answers `order-does-not-exist`.
- The amount of a failed transaction that `set_error` creates is the lines' subtotal without shipping.
- `set_error` is called with the slug as its `name` argument, so error rows hold the slug in `name` and the message in `code`. For a declined charge, the gateway's code lands in `name` and its name in `code`.
- The transaction id is dropped from the view only when the transaction carries an error.

## Findings

| source | as written | input that shows it | evidently intended | confidence | as-written member | corrected member |
|---|---|---|---|---|---|---|
| api/inf349.py:273-274 | `update(**shipping_info)` is peewee's class-level UPDATE and has no WHERE clause, so it rewrites every ShippingInfo row | two orders each with their own shipping row; a valid shipping PUT on the first order also rewrites the second order's address | update only the row the order references | not executed | Requests.SaveShippingAsWritten, Requests.AsWrittenUpdateRewritesOtherOrders | Requests.SaveShipping, Requests.SaveShippingTouchesOnlyOwnRow |
