/**
 * Clients of the handler methods: concrete invocations whose effects follow
 * from the handlers' specifications alone.
 */
module Scenarios {
  import opened JsValues
  import opened Firestore
  import opened Messaging
  import opened Tokens
  import opened Handlers

  /** A new order O1 for seller S1, placed by customer C1, reaches S1's two devices. */
  method NewOrderReachesSeller() {
    var db := new Database(map["S1" := UserDoc(Some(["t1", "t2"]))], map[], false);
    var fcm := new Messenger(false);
    var out := NotifySellerOnNewOrder(OrderDoc("O1", "S1", "C1"), db, fcm);
    assert out == Returned(JsTrue);
    assert db.queries == [UserDocument("S1")];
    assert |fcm.sent| == 1 && fcm.sent[0].tokens == ["t1", "t2"];
    assert fcm.sent[0].notification == Notification("Pesanan Baru Masuk", "Order O1 dari customer.");
    assert fcm.sent[0].data == map["type" := "order-new", "route" := "/store-order-detail", "orderId" := "O1", "customerId" := "C1"];
    assert fcm.sent == [Multicast(["t1", "t2"], Notification("Pesanan Baru Masuk", "Order O1 dari customer."),
      map["type" := "order-new", "route" := "/store-order-detail", "orderId" := "O1", "customerId" := "C1"])];
  }

  /** A rejected send is swallowed by the order trigger but not by the manual callable. */
  method FailuresAreCaughtOnlyForOrders() {
    var users := map["S1" := UserDoc(Some(["t1"]))];
    var db := new Database(users, map[], false);
    var fcm := new Messenger(true);
    var out := NotifySellerOnNewOrder(OrderDoc("O1", "S1", "C1"), db, fcm);
    assert out == Returned(JsTrue) && |fcm.sent| == 1;
    var reply := SendNotificationToUser(ManualRequest(Some("S1"), Some("Hi"), Some("Body"), None, None), db, fcm);
    assert reply == Threw(SendError) && |fcm.sent| == 2;
    assert fcm.sent[1].data["route"] == "" && fcm.sent[1].data["payloadId"] == "";
  }

  /** A seller without tokens gets nothing, and the trigger returns null. */
  method SellerWithoutTokens() {
    var db := new Database(map["S1" := UserDoc(Some([]))], map[], false);
    var fcm := new Messenger(false);
    var out := NotifySellerOnNewOrder(OrderDoc("O1", "S1", "C1"), db, fcm);
    assert out == Returned(JsNull) && fcm.sent == [];
  }

  lemma RiceBody()
    ensures StockBody(ProductDoc(Num(5), Text("Rice"))) == "Rice kini memiliki stok: 5."
  {
  }

  lemma ThreeWatchers(ws: seq<Watcher>)
    requires ws == [Watcher(Some(["w1"])), Watcher(None), Watcher(Some(["w2", "w3"]))]
    ensures CollectTokens(ws) == ["w1", "w2", "w3"]
    ensures WatcherTokens(ws[0]) != []
  {
    assert CollectTokens(ws[2..]) == ["w2", "w3"];
    assert CollectTokens(ws[1..]) == ["w2", "w3"];
  }

  /** Stock of "Rice" rises to 5; two watchers' tokens are sent to in order, a third watcher has none. */
  method StockUpdateReachesWatchers() {
    var ws := [Watcher(Some(["w1"])), Watcher(None), Watcher(Some(["w2", "w3"]))];
    var db := new Database(map[], map["P1" := ws], false);
    var fcm := new Messenger(false);
    var change := StockChange("P1", ProductDoc(Num(2), Text("Rice")), ProductDoc(Num(5), Text("Rice")));
    ThreeWatchers(ws);
    RiceBody();
    var out := NotifyCustomersOnStockUpdate(change, db, fcm);
    assert out == Returned(JsTrue);
    assert fcm.sent[0].tokens == ["w1", "w2", "w3"];
    assert fcm.sent[0].notification.body == "Rice kini memiliki stok: 5.";
  }

  /** An update that leaves `stok` alone reads no watchers and sends nothing. */
  method UnchangedStockIsIgnored() {
    var db := new Database(map[], map["P1" := [Watcher(Some(["w1"]))]], false);
    var fcm := new Messenger(false);
    var change := StockChange("P1", ProductDoc(Num(5), Text("Rice")), ProductDoc(Num(5), Text("Beras")));
    var out := NotifyCustomersOnStockUpdate(change, db, fcm);
    assert out == Returned(JsNull) && db.queries == [] && fcm.sent == [];
  }

  lemma SharedToken(ws: seq<Watcher>)
    requires ws == [Watcher(Some(["d"])), Watcher(Some(["d"]))]
    ensures CollectTokens(ws) == ["d", "d"]
    ensures WatcherTokens(ws[0]) != []
  {
    assert CollectTokens(ws[1..]) == ["d"];
  }

  /** Two watchers registered with the same device token get it twice. */
  method SharedTokenIsSentTwice() {
    var ws := [Watcher(Some(["d"])), Watcher(Some(["d"]))];
    var db := new Database(map[], map["P1" := ws], false);
    var fcm := new Messenger(false);
    var change := StockChange("P1", ProductDoc(Undefined, Undefined), ProductDoc(Num(1), Undefined));
    SharedToken(ws);
    var out := NotifyCustomersOnStockUpdate(change, db, fcm);
    assert out == Returned(JsTrue);
    assert fcm.sent[0].tokens == ["d", "d"];
  }

  /** A missing title is rejected before the user document is read. */
  method ManualSendNeedsTitle() {
    var db := new Database(map["U1" := UserDoc(Some(["t1"]))], map[], false);
    var fcm := new Messenger(false);
    var out := SendNotificationToUser(ManualRequest(Some("U1"), Some(""), Some("Body"), None, None), db, fcm);
    assert out == Threw(InvalidArgument) && db.queries == [] && fcm.sent == [];
  }
}
