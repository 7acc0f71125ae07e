/**
 * The three Cloud Function handlers of functions/index.js.
 *
 * Each handler is given twice: as a pure function `...Run` of its inputs that
 * says which reads it issues, which multicasts it requests and how it settles
 * (the value it returns or the error it throws), and as a method that performs
 * those steps against a `Database` and a `Messenger` and is proved to do
 * exactly what its `...Run` says.
 */
module Handlers {
  import opened JsValues
  import opened Firestore
  import opened Messaging
  import opened Tokens

  /** The errors a handler can throw. */
  datatype Failure =
    | HttpsError(code: string, message: string)  // functions.https.HttpsError
    | StoreError                                  // an awaited Firestore read rejected
    | SendError                                   // an awaited sendMulticast rejected

  /** How an invocation settles: the value it returns, or the error it throws. */
  datatype Outcome<T> = Returned(value: T) | Threw(failure: Failure)

  /** What one invocation does, in order: its reads, its sends, and how it settles. */
  datatype Run<T> = Run(queries: seq<Query>, sends: seq<Multicast>, outcome: Outcome<T>)

  /** `null` or `true`, the values the store triggers return. */
  datatype TriggerValue = JsNull | JsTrue

  // ---------------------------------------------------------------------
  // sendNotificationToUser (callable)
  // ---------------------------------------------------------------------

  /** The callable's `data` argument; a field is `None` when the caller omitted it. */
  datatype ManualRequest = ManualRequest(
    userId: Option<string>,
    title: Option<string>,
    body: Option<string>,
    route: Option<string>,
    payloadId: Option<string>)

  /** The object returned to the caller: `{success}` or `{success, message}`. */
  datatype Reply = Reply(success: bool, message: Option<string>)

  const InvalidArgument := HttpsError("invalid-argument", "userId, title, and body are required")
  const NoTokenReply := Reply(false, Some("No FCM token"))
  const SentReply := Reply(true, None)

  /** `!(!userId || !title || !body)` */
  predicate ManualArgsOk(req: ManualRequest) {
    Truthy(req.userId) && Truthy(req.title) && Truthy(req.body)
  }

  function ManualMessage(req: ManualRequest, tokens: seq<string>): Multicast
    requires ManualArgsOk(req)
  {
    Multicast(tokens, Notification(req.title.value, req.body.value),
      map["type" := "manual",
          "route" := OrEmpty(req.route),
          "payloadId" := OrEmpty(req.payloadId),
          "userId" := req.userId.value])
  }

  function ManualRun(req: ManualRequest, users: map<string, UserDoc>, storeDown: bool, sendDown: bool)
    : (run: Run<Reply>)
    // validation comes before any read or send
    ensures !ManualArgsOk(req) <==> run.outcome == Threw(InvalidArgument)
    ensures !ManualArgsOk(req) ==> run.queries == [] && run.sends == []
    ensures ManualArgsOk(req) ==> run.queries == [UserDocument(req.userId.value)]
    // a missing user, missing tokens or an empty token list: no send, {success:false}
    ensures run.outcome == Returned(NoTokenReply) <==>
      ManualArgsOk(req) && !storeDown && UserTokens(UserSnapshot(users, req.userId.value)) == []
    // otherwise exactly one send, to the user's whole stored token list
    ensures |run.sends| <= 1
    ensures run.sends != [] <==>
      ManualArgsOk(req) && !storeDown && UserTokens(UserSnapshot(users, req.userId.value)) != []
    ensures run.sends != [] ==>
      var msg := run.sends[0];
      && req.userId.value in users
      && users[req.userId.value].fcmTokens == Some(msg.tokens)
      && msg.notification == Notification(req.title.value, req.body.value)
      && msg.data.Keys == {"type", "route", "payloadId", "userId"}
      && msg.data["type"] == "manual"
      && msg.data["route"] == OrEmpty(req.route)
      && msg.data["payloadId"] == OrEmpty(req.payloadId)
      && msg.data["userId"] == req.userId.value
    // no catch: a failed read or send propagates to the caller
    ensures run.outcome == Returned(SentReply) <==> run.sends != [] && !sendDown
    ensures run.outcome == Threw(SendError) <==> run.sends != [] && sendDown
    ensures run.outcome == Threw(StoreError) <==> ManualArgsOk(req) && storeDown
  {
    if !ManualArgsOk(req) then Run([], [], Threw(InvalidArgument))
    else
      var userId := req.userId.value;
      var queries := [UserDocument(userId)];
      if storeDown then Run(queries, [], Threw(StoreError))
      else
        var tokens := UserTokens(UserSnapshot(users, userId));
        if tokens == [] then Run(queries, [], Returned(NoTokenReply))
        else
          Run(queries, [ManualMessage(req, tokens)],
              if sendDown then Threw(SendError) else Returned(SentReply))
  }

  method SendNotificationToUser(req: ManualRequest, db: Database, fcm: Messenger) returns (out: Outcome<Reply>)
    modifies db, fcm
    ensures var run := ManualRun(req, db.users, db.unavailable, fcm.failing);
      && db.queries == old(db.queries) + run.queries
      && fcm.sent == old(fcm.sent) + run.sends
      && out == run.outcome
  {
    if !ManualArgsOk(req) {
      return Threw(InvalidArgument);
    }
    var userId := req.userId.value;
    var userDoc := db.GetUser(userId);
    if userDoc.ReadFailed? {
      return Threw(StoreError);
    }
    var tokens := UserTokens(userDoc.value);
    if |tokens| == 0 {
      return Returned(NoTokenReply);
    }
    var ok := fcm.SendMulticast(ManualMessage(req, tokens));
    if !ok {
      return Threw(SendError);
    }
    return Returned(SentReply);
  }

  // ---------------------------------------------------------------------
  // notifyCustomersOnStockUpdate (onUpdate of products/{productId})
  // ---------------------------------------------------------------------

  /** The fields of a product document the handler reads. */
  datatype ProductDoc = ProductDoc(stok: Scalar, namaProduk: Scalar)

  /** The update event: `context.params.productId`, `change.before` and `change.after`. */
  datatype StockChange = StockChange(productId: string, before: ProductDoc, after: ProductDoc)

  const StockTitle := "Stok Produk Diperbarui"

  /** `${namaProduk} kini memiliki stok: ${stokBaru}.` */
  function StockBody(after: ProductDoc): string {
    Render(after.namaProduk) + " kini memiliki stok: " + Render(after.stok) + "."
  }

  function StockMessage(productId: string, after: ProductDoc, tokens: seq<string>): Multicast {
    Multicast(tokens, Notification(StockTitle, StockBody(after)),
      map["type" := "stock-update", "route" := "/product-detail", "productId" := productId])
  }

  function StockRun(change: StockChange, watchers: map<string, seq<Watcher>>, storeDown: bool, sendDown: bool)
    : (run: Run<TriggerValue>)
    // the guard: an unchanged stok reads nothing and sends nothing
    ensures change.before.stok == change.after.stok ==> run == Run([], [], Returned(JsNull))
    ensures change.before.stok != change.after.stok ==> run.queries == [WatchersOf(change.productId)]
    // at most one send, exactly when some watcher holds a token
    ensures |run.sends| <= 1
    ensures run.sends != [] <==>
      && change.before.stok != change.after.stok
      && !storeDown
      && exists i :: 0 <= i < |WatcherSnapshot(watchers, change.productId)| &&
                     WatcherTokens(WatcherSnapshot(watchers, change.productId)[i]) != []
    ensures run.sends != [] ==>
      var msg := run.sends[0];
      && msg.tokens == CollectTokens(WatcherSnapshot(watchers, change.productId))
      && msg.notification == Notification("Stok Produk Diperbarui", StockBody(change.after))
      && msg.data == map["type" := "stock-update", "route" := "/product-detail", "productId" := change.productId]
    // null when skipped, true after a send; no catch, so failures propagate
    ensures run.outcome == Returned(JsNull) <==>
      run.sends == [] && !(change.before.stok != change.after.stok && storeDown)
    ensures run.outcome == Returned(JsTrue) <==> run.sends != [] && !sendDown
    ensures run.outcome == Threw(SendError) <==> run.sends != [] && sendDown
    ensures run.outcome == Threw(StoreError) <==> change.before.stok != change.after.stok && storeDown
  {
    if change.before.stok == change.after.stok then Run([], [], Returned(JsNull))
    else
      var queries := [WatchersOf(change.productId)];
      if storeDown then Run(queries, [], Threw(StoreError))
      else
        var ws := WatcherSnapshot(watchers, change.productId);
        var tokens := CollectTokens(ws);
        CollectTokensEmpty(ws);
        if tokens == [] then Run(queries, [], Returned(JsNull))
        else
          Run(queries, [StockMessage(change.productId, change.after, tokens)],
              if sendDown then Threw(SendError) else Returned(JsTrue))
  }

  method NotifyCustomersOnStockUpdate(change: StockChange, db: Database, fcm: Messenger)
    returns (out: Outcome<TriggerValue>)
    modifies db, fcm
    ensures var run := StockRun(change, db.watchers, db.unavailable, fcm.failing);
      && db.queries == old(db.queries) + run.queries
      && fcm.sent == old(fcm.sent) + run.sends
      && out == run.outcome
  {
    var before := change.before;
    var after := change.after;
    if before.stok == after.stok {
      return Returned(JsNull);
    }
    var productId := change.productId;
    var watchersSnap := db.GetWatchers(productId);
    if watchersSnap.ReadFailed? {
      return Threw(StoreError);
    }
    var tokens := CollectWatcherTokens(watchersSnap.value);
    if |tokens| == 0 {
      return Returned(JsNull);
    }
    var ok := fcm.SendMulticast(StockMessage(productId, after, tokens));
    if !ok {
      return Threw(SendError);
    }
    return Returned(JsTrue);
  }

  /**
   * The body is the rendered name, the fixed Indonesian text, the rendered
   * stock and a full stop; a numeric stock reads back from it.
   */
  lemma StockBodyStatesStock(after: ProductDoc)
    ensures var body := StockBody(after);
      var name := Render(after.namaProduk);
      var prefix := name + " kini memiliki stok: ";
      && |prefix| < |body|
      && body[..|name|] == name
      && body[..|prefix|] == prefix
      && body[|body| - 1] == '.'
      && body[|prefix|..|body| - 1] == Render(after.stok)
      && (after.stok.Num? ==> ParseInt(body[|prefix|..|body| - 1]) == Some(after.stok.n as int))
  {
  }

  // ---------------------------------------------------------------------
  // notifySellerOnNewOrder (onCreate of pesanan/{orderId})
  // ---------------------------------------------------------------------

  /** The fields of a new `pesanan` document the handler reads. */
  datatype OrderDoc = OrderDoc(orderId: string, tokoId: string, userId: string)

  const OrderTitle := "Pesanan Baru Masuk"

  function OrderMessage(order: OrderDoc, tokens: seq<string>): Multicast {
    Multicast(tokens, Notification(OrderTitle, "Order " + order.orderId + " dari customer."),
      map["type" := "order-new",
          "route" := "/store-order-detail",
          "orderId" := order.orderId,
          "customerId" := order.userId])
  }

  function OrderRun(order: OrderDoc, users: map<string, UserDoc>, storeDown: bool, sendDown: bool)
    : (run: Run<TriggerValue>)
    // the recipient is the seller `tokoId`
    ensures run.queries == [UserDocument(order.tokoId)]
    ensures |run.sends| <= 1
    ensures run.sends != [] <==> !storeDown && UserTokens(UserSnapshot(users, order.tokoId)) != []
    ensures run.sends != [] ==>
      var msg := run.sends[0];
      && order.tokoId in users
      && users[order.tokoId].fcmTokens == Some(msg.tokens)
      && msg.notification == Notification("Pesanan Baru Masuk", "Order " + order.orderId + " dari customer.")
      && msg.data == map["type" := "order-new", "route" := "/store-order-detail",
                         "orderId" := order.orderId, "customerId" := order.userId]
    // failures are caught: the handler never throws, and returns null only when it skips
    ensures run.outcome.Returned?
    ensures run.outcome == Returned(JsNull) <==> !storeDown && run.sends == []
  {
    var queries := [UserDocument(order.tokoId)];
    if storeDown then Run(queries, [], Returned(JsTrue))
    else
      var tokens := UserTokens(UserSnapshot(users, order.tokoId));
      if tokens == [] then Run(queries, [], Returned(JsNull))
      else Run(queries, [OrderMessage(order, tokens)], Returned(JsTrue))
  }

  method NotifySellerOnNewOrder(order: OrderDoc, db: Database, fcm: Messenger)
    returns (out: Outcome<TriggerValue>)
    modifies db, fcm
    ensures var run := OrderRun(order, db.users, db.unavailable, fcm.failing);
      && db.queries == old(db.queries) + run.queries
      && fcm.sent == old(fcm.sent) + run.sends
      && out == run.outcome
  {
    var sellerId := order.tokoId;
    var sellerDoc := db.GetUser(sellerId);
    if sellerDoc.Fetched? {
      var tokens := UserTokens(sellerDoc.value);
      if |tokens| == 0 {
        return Returned(JsNull);
      }
      // the outcome of the send is caught and only logged
      var _ := fcm.SendMulticast(OrderMessage(order, tokens));
    }
    return Returned(JsTrue);
  }
}
