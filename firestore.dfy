/**
 * The part of the Firestore document store the handlers read: the `users`
 * collection and the `watchers` subcollection of each product. The store is a
 * fixed snapshot; every read the handlers issue is appended to a read log, and
 * an `unavailable` store makes every read fail (any error `get()` throws).
 */
module Firestore {
  import opened JsValues

  /** A document of `users/{userId}`: only the field the handlers read. */
  datatype UserDoc = UserDoc(fcmTokens: Option<seq<string>>)

  /** A document of `products/{productId}/watchers`. */
  datatype Watcher = Watcher(fcmTokens: Option<seq<string>>)

  /** The reads the handlers issue. */
  datatype Query = UserDocument(userId: string) | WatchersOf(productId: string)

  /** The settled result of an awaited read: the snapshot, or a thrown error. */
  datatype Read<T> = Fetched(value: T) | ReadFailed

  /** `users/{userId}`, absent when no such document exists. */
  function UserSnapshot(users: map<string, UserDoc>, userId: string): Option<UserDoc> {
    if userId in users then Some(users[userId]) else None
  }

  /** The documents of `products/{productId}/watchers`, in snapshot order. */
  function WatcherSnapshot(watchers: map<string, seq<Watcher>>, productId: string): seq<Watcher> {
    if productId in watchers then watchers[productId] else []
  }

  class Database {
    const users: map<string, UserDoc>
    const watchers: map<string, seq<Watcher>>
    const unavailable: bool
    /** Every read issued so far, in order. */
    var queries: seq<Query>

    constructor (users: map<string, UserDoc>, watchers: map<string, seq<Watcher>>, unavailable: bool)
      ensures this.users == users && this.watchers == watchers && this.unavailable == unavailable
      ensures queries == []
    {
      this.users := users;
      this.watchers := watchers;
      this.unavailable := unavailable;
      queries := [];
    }

    /** `db.collection("users").doc(userId).get()` */
    method GetUser(userId: string) returns (r: Read<Option<UserDoc>>)
      modifies this
      ensures queries == old(queries) + [UserDocument(userId)]
      ensures r == if unavailable then ReadFailed else Fetched(UserSnapshot(users, userId))
    {
      queries := queries + [UserDocument(userId)];
      r := if unavailable then ReadFailed else Fetched(UserSnapshot(users, userId));
    }

    /** `db.collection("products").doc(productId).collection("watchers").get()` */
    method GetWatchers(productId: string) returns (r: Read<seq<Watcher>>)
      modifies this
      ensures queries == old(queries) + [WatchersOf(productId)]
      ensures r == if unavailable then ReadFailed else Fetched(WatcherSnapshot(watchers, productId))
    {
      queries := queries + [WatchersOf(productId)];
      r := if unavailable then ReadFailed else Fetched(WatcherSnapshot(watchers, productId));
    }
  }
}
