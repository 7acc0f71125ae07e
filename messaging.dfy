/**
 * The Firebase Cloud Messaging call the handlers make. Each call of
 * `sendMulticast` is appended to a send log; a `failing` transport makes the
 * call reject as a whole. Per-token results are not represented: the handlers
 * never look at them.
 */
module Messaging {

  datatype Notification = Notification(title: string, body: string)

  /** The argument of `admin.messaging().sendMulticast({tokens, notification, data})`. */
  datatype Multicast = Multicast(tokens: seq<string>, notification: Notification, data: map<string, string>)

  class Messenger {
    const failing: bool
    /** Every multicast requested so far, in order, whether or not it was accepted. */
    var sent: seq<Multicast>

    constructor (failing: bool)
      ensures this.failing == failing && sent == []
    {
      this.failing := failing;
      sent := [];
    }

    /** Requests one multicast; `ok` is false when the awaited call rejects. */
    method SendMulticast(msg: Multicast) returns (ok: bool)
      modifies this
      ensures sent == old(sent) + [msg]
      ensures ok == !failing
    {
      sent := sent + [msg];
      ok := !failing;
    }
  }
}
