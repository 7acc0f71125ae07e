/**
 * How the handlers turn document snapshots into the token list of a multicast:
 * `doc.data()?.fcmTokens || []` for a single user, and the `forEach`/`push`
 * loop over a product's watchers. Neither step filters, reorders or
 * deduplicates tokens.
 */
module Tokens {
  import opened JsValues
  import opened Firestore

  /** `userDoc.data()?.fcmTokens || []`: a stored token array is truthy even when empty. */
  function UserTokens(doc: Option<UserDoc>): (tokens: seq<string>)
    ensures tokens == [] <==> doc.None? || doc.value.fcmTokens.None? || doc.value.fcmTokens.value == []
    ensures tokens != [] ==> doc.Some? && doc.value.fcmTokens == Some(tokens)
  {
    if doc.Some? && doc.value.fcmTokens.Some? then doc.value.fcmTokens.value else []
  }

  /** What one watcher contributes: `if (watcher.fcmTokens) tokens.push(...watcher.fcmTokens)`. */
  function WatcherTokens(w: Watcher): seq<string> {
    if w.fcmTokens.Some? then w.fcmTokens.value else []
  }

  /** The watchers' token lists concatenated in snapshot order. */
  function CollectTokens(ws: seq<Watcher>): seq<string> {
    if ws == [] then [] else WatcherTokens(ws[0]) + CollectTokens(ws[1..])
  }

  /** Collecting over consecutive runs of watchers concatenates their tokens in order. */
  lemma {:induction false} CollectTokensAppend(a: seq<Watcher>, b: seq<Watcher>)
    ensures CollectTokens(a + b) == CollectTokens(a) + CollectTokens(b)
    decreases |a|
  {
    if a == [] {
      assert a + b == b;
    } else {
      assert (a + b)[0] == a[0] && (a + b)[1..] == a[1..] + b;
      CollectTokensAppend(a[1..], b);
      assert CollectTokens(a + b) == WatcherTokens(a[0]) + (CollectTokens(a[1..]) + CollectTokens(b));
    }
  }

  /** A token is collected exactly when some watcher holds it. */
  lemma {:induction false} CollectTokensMembership(ws: seq<Watcher>, t: string)
    ensures t in CollectTokens(ws) <==> exists i :: 0 <= i < |ws| && t in WatcherTokens(ws[i])
    decreases |ws|
  {
    if ws != [] {
      CollectTokensMembership(ws[1..], t);
      if t in CollectTokens(ws[1..]) {
        var i :| 0 <= i < |ws[1..]| && t in WatcherTokens(ws[1..][i]);
        assert t in WatcherTokens(ws[i + 1]);
      }
      if exists i :: 0 <= i < |ws| && t in WatcherTokens(ws[i]) {
        var i :| 0 <= i < |ws| && t in WatcherTokens(ws[i]);
        if i > 0 {
          assert t in WatcherTokens(ws[1..][i - 1]);
        }
      }
    }
  }

  /** Nothing is collected exactly when no watcher holds a token. */
  lemma {:induction false} CollectTokensEmpty(ws: seq<Watcher>)
    ensures CollectTokens(ws) == [] <==> forall i :: 0 <= i < |ws| ==> WatcherTokens(ws[i]) == []
    decreases |ws|
  {
    if ws != [] {
      CollectTokensEmpty(ws[1..]);
      assert forall i :: 1 <= i < |ws| ==> ws[i] == ws[1..][i - 1];
    }
  }

  /** Each watcher's tokens, with their multiplicities, are among those collected. */
  lemma {:induction false} CollectTokensContains(ws: seq<Watcher>, i: nat)
    requires i < |ws|
    ensures multiset(WatcherTokens(ws[i])) <= multiset(CollectTokens(ws))
    decreases |ws|
  {
    assert multiset(CollectTokens(ws)) == multiset(WatcherTokens(ws[0])) + multiset(CollectTokens(ws[1..]));
    if i > 0 {
      CollectTokensContains(ws[1..], i - 1);
    }
  }

  /** A token two watchers share is collected at least twice: no deduplication. */
  lemma CollectTokensKeepsDuplicates(ws: seq<Watcher>, i: nat, j: nat, t: string)
    requires i < j < |ws|
    requires t in WatcherTokens(ws[i]) && t in WatcherTokens(ws[j])
    ensures multiset(CollectTokens(ws))[t] >= 2
  {
    assert ws == ws[..j] + ws[j..];
    CollectTokensAppend(ws[..j], ws[j..]);
    CollectTokensContains(ws[..j], i);
    CollectTokensContains(ws[j..], 0);
  }

  /**
   * `const tokens = []; watchersSnap.forEach(doc => { ... tokens.push(...) })`:
   * the loop that collects the watchers' tokens.
   */
  method CollectWatcherTokens(ws: seq<Watcher>) returns (tokens: seq<string>)
    ensures tokens == CollectTokens(ws)
  {
    tokens := [];
    var i := 0;
    while i < |ws|
      invariant 0 <= i <= |ws|
      invariant tokens == CollectTokens(ws[..i])
    {
      var watcher := ws[i];
      if watcher.fcmTokens.Some? {
        tokens := tokens + watcher.fcmTokens.value;
      }
      CollectTokensAppend(ws[..i], [watcher]);
      assert ws[..i + 1] == ws[..i] + [watcher];
      i := i + 1;
    }
    assert ws[..i] == ws;
  }
}
