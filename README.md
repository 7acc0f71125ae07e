# Marketplace push-notification handlers, modelled in Dafny

This project models the three Firebase Cloud Functions in `functions/index.js` of a
marketplace app. Each one sends a push notification to device tokens (FCM tokens):

- `sendNotificationToUser` is a callable. It checks that `userId`, `title` and `body` are
  given. It then reads `users/{userId}` and sends one multicast to all of that user's
  `fcmTokens`. The data is `type: "manual"`, `route`, `payloadId` and `userId`. It returns
  `{success: true}` after sending, or `{success: false, message: "No FCM token"}` when the
  user has no tokens.
- `notifyCustomersOnStockUpdate` runs on an update of `products/{productId}`. It does nothing
  when `stok` is unchanged. Otherwise it concatenates the `fcmTokens` of every document in the
  product's `watchers` subcollection and sends one multicast "Stok Produk Diperbarui" /
  "`<namaProduk>` kini memiliki stok: `<stok>`.". It returns `true` after sending, and `null`
  when it skips.
- `notifySellerOnNewOrder` runs on creation of `pesanan/{orderId}`. It reads the seller
  `users/{tokoId}` and sends one multicast "Pesanan Baru Masuk" / "Order `<orderId>` dari
  customer.". Every read or send error is caught. It returns `null` when the seller has no
  tokens, and `true` in every other case.

Files and modules:

- `js_values.dfy` (`JsValues`): the JavaScript semantics the handlers rely on. This covers
  truthiness of optional strings, the `x || ""` default, and what a template literal `${v}`
  produces for a field value. That includes `"undefined"`, `"null"`, and the decimal text of a
  safe integer, proved to read back as the same number.
- `firestore.dfy` (`Firestore`): the document store as a fixed snapshot (`Database`). Every
  read is appended to a read log `queries`. An `unavailable` store makes every read throw.
- `messaging.dfy` (`Messaging`): `sendMulticast` as a `Messenger` class. Each call is appended
  to the send log `sent`. A `failing` transport makes the whole call reject.
- `tokens.dfy` (`Tokens`): the `?.fcmTokens || []` lookup and the `forEach`/`push` loop that
  collects watcher tokens. The loop is the method `CollectWatcherTokens`. It is proved equal
  to the function `CollectTokens`, whose order, membership and multiplicity are proved as lemmas.
- `handlers.dfy` (`Handlers`): each handler is a pure function (`ManualRun`, `StockRun`,
  `OrderRun`) and an imperative method. The function gives the handler's reads, its sends and
  how it settles: returned value or thrown error. Its `ensures` clauses state the handler's
  behaviour case by case. The method runs the same steps against a `Database` and a
  `Messenger`, and is proved to append exactly the function's reads and sends and to settle the
  same way.
- `scenarios.dfy` (`Scenarios`): client methods that call the handlers on concrete stores; their
  asserts are verified from the handlers' contracts.

Each handler sends at most one multicast, without batching, deduplication or per-token
accounting: two watchers sharing a token get it twice, as `Tokens.CollectTokensKeepsDuplicates`
states. Titles and bodies are in Indonesian. The handlers return `{success…}`, `null` or `true`,
and the order trigger returns `null` when the seller has no tokens.

## Model

| member | source | states |
|---|---|---|
| `JsValues.OrEmpty` | functions/index.js:33-34 | the `""` default of `route` and `payloadId` is `""` exactly when the argument is missing or empty, and the argument itself otherwise |
| `JsValues.Render` | functions/index.js:83 | `${v}` inserts "undefined" for a missing field, "null" for a null one, a string field unchanged, and for a number its canonical decimal numeral: '-' exactly when it is negative, then digits with no leading zero unless the numeral is "0", reading back as that number |
| `JsValues.NatToDecimal` | functions/index.js:83 | the text of a stock number is digits only, with no leading zero, and exactly "0" for 0 |
| `JsValues.IntToDecimal` | functions/index.js:83 | the text of a number starts with '-' exactly when the number is negative, and the rest is digits with no leading zero (only "0" itself starts with '0') |
| `JsValues.NatDecimalRoundTrip` | functions/index.js:83 | the decimal text of a natural number reads back as that number |
| `JsValues.IntDecimalRoundTrip` | functions/index.js:83 | the decimal text of any integer, sign included, reads back as that integer |
| `Firestore.Database.GetUser` | functions/index.js:20 | reading `users/{id}` logs that one read and yields the document or its absence; an unavailable store makes it fail |
| `Firestore.Database.GetWatchers` | functions/index.js:59-63 | reading a product's watchers logs that one read and yields its documents in order, none for an unknown product; an unavailable store makes it fail |
| `Messaging.Messenger.SendMulticast` | functions/index.js:28-37 | each `sendMulticast` call appends exactly its argument to the send log and succeeds unless the transport is failing |
| `Tokens.UserTokens` | functions/index.js:21 | the lookup is empty exactly when the document, its `fcmTokens` or their contents are missing; otherwise it is the stored list unchanged |
| `Tokens.CollectTokensAppend` | functions/index.js:65-72 | collection over consecutive runs of watchers concatenates their tokens in snapshot order |
| `Tokens.CollectTokensMembership` | functions/index.js:65-72 | a token is collected if and only if some watcher holds it |
| `Tokens.CollectTokensEmpty` | functions/index.js:67-74 | nothing is collected if and only if no watcher has a non-empty `fcmTokens` |
| `Tokens.CollectTokensContains` | functions/index.js:67-72 | every token of every watcher is collected, with its multiplicity |
| `Tokens.CollectTokensKeepsDuplicates` | functions/index.js:65-72 | a token held by two different watchers is collected at least twice: no deduplication |
| `Tokens.CollectWatcherTokens` | functions/index.js:65-72 | the `forEach`/`push` loop leaves in `tokens` exactly the in-order concatenation of the watchers' token lists |
| `Handlers.ManualRun` | functions/index.js:10-41 | missing or empty `userId`/`title`/`body` throws `invalid-argument` with no read or send. No tokens returns `{success:false, message:"No FCM token"}` with no send. Otherwise there is exactly one send, to the user's whole stored token list, with the caller's title and body and data `{type:"manual", route, payloadId, userId}`, where `route` and `payloadId` default to `""`. It returns `{success:true}`, and a failed read or send propagates |
| `Handlers.SendNotificationToUser` | functions/index.js:10-41 | the callable issues exactly the reads and sends of `ManualRun` and settles as it says |
| `Handlers.StockRun` | functions/index.js:46-94 | an unchanged `stok` returns null with no read and no send. Otherwise it reads the product's watchers, and when none holds a token it returns null and sends nothing. Otherwise it sends once to the collected tokens, with title "Stok Produk Diperbarui", the stock body and data `{type:"stock-update", route:"/product-detail", productId}`, and returns true. A failed read or send propagates |
| `Handlers.NotifyCustomersOnStockUpdate` | functions/index.js:46-94 | the trigger issues exactly the reads and sends of `StockRun`, collects tokens with the loop, and settles as `StockRun` says |
| `Handlers.StockBodyStatesStock` | functions/index.js:82-83 | for every field value, the body is the rendered `namaProduk` (so "undefined" or "null" when it is missing or null), then " kini memiliki stok: ", then the rendered `stok`, then "."; a numeric stock reads back from it |
| `Handlers.OrderRun` | functions/index.js:99-137 | the order trigger reads the seller `tokoId` and never throws. With no seller tokens it returns null and sends nothing. Otherwise it sends once to the seller's stored tokens, with title "Pesanan Baru Masuk", body "Order <orderId> dari customer." and data `{type:"order-new", route:"/store-order-detail", orderId, customerId}`, where `customerId` is the order's `userId`. It returns true, including when the read or the send fails |
| `Handlers.NotifySellerOnNewOrder` | functions/index.js:99-137 | the trigger issues exactly the reads and sends of `OrderRun` and settles as it says |

## Left out

- Firebase setup (`admin.initializeApp()`, `admin.firestore()`) and the trigger wiring
  (`onCall`, `onUpdate`, `onCreate`) are outside the model. Each handler is a method called once
  with its already-deserialized event.
- `async`/`await`: each invocation runs its steps in order, so each awaited call is a method
  call that either yields its value or makes the handler throw.
- Firestore and FCM are foreign code. The store is a fixed snapshot, and "the read throws" and
  "the send rejects" are abstract flags (`Database.unavailable`, `Messenger.failing`). Their
  reasons are not modelled. These include network errors, document ids the SDK rejects (empty,
  or containing `/`), missing order fields, and data values that are not strings.
- Per-token results of `sendMulticast` are not modelled, because the code ignores them.
- `console.log` and `console.error` output is not modelled. It is logging only.
- Field values: `stok` and `namaProduk` are `undefined`, `null`, a safe integer or a string.
  Fractional numbers, integers beyond `Number.MAX_SAFE_INTEGER` (whose JavaScript text differs
  from plain decimal), booleans and other types are not modelled. `fcmTokens` is absent or a
  list of strings. Any other value, such as a single string that `push(...)` would spread into
  characters, is not modelled.
- A callable invoked with `data` null or undefined throws a `TypeError` at the destructuring
  of functions/index.js:11, before the `invalid-argument` check. `ManualRequest` always has
  its five fields, so this input cannot be represented.
- firebase-admin limits one multicast to 500 tokens. Nothing in the code batches, so a larger
  stock fan-out makes `sendMulticast` reject and the trigger throw. The model covers that
  rejection only through the `Messenger.failing` flag, not through the token count.
- The order document's `orderId`, `tokoId` and `userId` are taken to be present strings.
- The platform's reaction to a thrown error, for example the error a callable client receives,
  is not modelled. Neither is any retry.
- The Android build files carry no program logic.
