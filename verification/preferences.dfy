/**
 The in-memory preference store (`user_preferences`): a map from user id to
 the selected category. Only `select_field` writes to it.
 */
module Preferences {
  import opened Wrappers
  import opened Categories

  type UserId = string

  type Store = map<UserId, Category>

  /** The store at process start. */
  const Initial: Store := map[]

  /** `user_preferences.get(user_id)`. */
  function Lookup(store: Store, u: UserId): Option<Category> {
    if u in store then Some(store[u]) else None
  }

  /** `user_preferences[user_id] = field`. */
  function Put(store: Store, u: UserId, f: Category): (r: Store)
    ensures Lookup(r, u) == Some(f)
    ensures forall v :: v != u ==> Lookup(r, v) == Lookup(store, v)
    ensures r.Keys == store.Keys + {u}
  {
    store[u := f]
  }

  /** A second write for the same user replaces the first. */
  lemma LastWriteWins(store: Store, u: UserId, a: Category, b: Category)
    ensures Put(Put(store, u, a), u, b) == Put(store, u, b)
  {
  }

  /** Writes for different users are independent of each other's order. */
  lemma WritesCommute(store: Store, u: UserId, v: UserId, a: Category, b: Category)
    requires u != v
    ensures Put(Put(store, u, a), v, b) == Put(Put(store, v, b), u, a)
  {
  }

  /** One accepted `select_field` request. */
  datatype Write = Write(user: UserId, field: Category)

  /** The store after a run of accepted writes, starting from `store`. */
  function Replay(store: Store, ws: seq<Write>): Store
    decreases |ws|
  {
    if ws == [] then store
    else Replay(Put(store, ws[0].user, ws[0].field), ws[1..])
  }

  /** The field of the latest write for `u` in `ws`, if any. */
  function LatestWrite(ws: seq<Write>, u: UserId): Option<Category>
    decreases |ws|
  {
    if ws == [] then None
    else if ws[|ws| - 1].user == u then Some(ws[|ws| - 1].field)
    else LatestWrite(ws[..|ws| - 1], u)
  }

  lemma {:induction false} ReplaySnoc(store: Store, ws: seq<Write>, w: Write)
    ensures Replay(store, ws + [w]) == Put(Replay(store, ws), w.user, w.field)
    decreases |ws|
  {
    if ws == [] {
      assert ws + [w] == [w];
    } else {
      assert (ws + [w])[1..] == ws[1..] + [w];
      ReplaySnoc(Put(store, ws[0].user, ws[0].field), ws[1..], w);
    }
  }

  /**
   After any history of writes from process start, a user's lookup yields the
   field of that user's latest write, and nothing for a user who never wrote.
   */
  lemma {:induction false} LookupAfterHistory(ws: seq<Write>, u: UserId)
    ensures Lookup(Replay(Initial, ws), u) == LatestWrite(ws, u)
    decreases |ws|
  {
    if ws != [] {
      var init, last := ws[..|ws| - 1], ws[|ws| - 1];
      assert ws == init + [last];
      ReplaySnoc(Initial, init, last);
      LookupAfterHistory(init, u);
    }
  }
}
