/** The cart session store: a module-level map from user id to that user's
    list of cart lines, with start, append, read and clear. */
module SessionManager {
  import opened Users

  type Cache<Item> = map<UserId, seq<Item>>

  /** `SESSION_CACHE.get(u, [])`. */
  function Items<Item>(cache: Cache<Item>, u: UserId): seq<Item>
  {
    if u in cache then cache[u] else []
  }

  /** The cache after `start_session(u)`. */
  function Start<Item>(cache: Cache<Item>, u: UserId): (r: Cache<Item>)
    ensures u in r && Items(r, u) == []
    ensures forall v :: v != u ==> (v in r <==> v in cache) && Items(r, v) == Items(cache, v)
  {
    cache[u := []]
  }

  /** The cache after `add_item(u, it)`: the entry is created if missing
      (`setdefault`) and `it` goes at its end. */
  function Add<Item>(cache: Cache<Item>, u: UserId, it: Item): (r: Cache<Item>)
    ensures u in r && |Items(r, u)| == |Items(cache, u)| + 1
    ensures Items(r, u)[..|Items(cache, u)|] == Items(cache, u) && Items(r, u)[|Items(cache, u)|] == it
    ensures u !in cache ==> r[u] == [it]
    ensures forall v :: v != u ==> (v in r <==> v in cache) && Items(r, v) == Items(cache, v)
  {
    cache[u := Items(cache, u) + [it]]
  }

  /** The cache after `clear_session(u)`: `pop(u, None)`. */
  function Clear<Item>(cache: Cache<Item>, u: UserId): (r: Cache<Item>)
    ensures u !in r && Items(r, u) == []
    ensures u !in cache ==> r == cache
    ensures forall v :: v != u ==> (v in r <==> v in cache) && Items(r, v) == Items(cache, v)
  {
    cache - {u}
  }

  /** `add_item(u, it)` for each `it` of `its` in turn. */
  function AddAll<Item>(cache: Cache<Item>, u: UserId, its: seq<Item>): Cache<Item>
    decreases |its|
  {
    if its == [] then cache else Add(AddAll(cache, u, its[..|its| - 1]), u, its[|its| - 1])
  }

  /** Starting a session and then adding `k` lines leaves exactly those lines,
      in the order they were added, whatever the user had before. */
  lemma {:induction false} StartThenAdd<Item>(cache: Cache<Item>, u: UserId, its: seq<Item>)
    ensures Items(AddAll(Start(cache, u), u, its), u) == its
    decreases |its|
  {
    if its != [] {
      StartThenAdd(cache, u, its[..|its| - 1]);
      assert its == its[..|its| - 1] + [its[|its| - 1]];
    }
  }

  /** Adding lines for one user never touches another user's cart. */
  lemma {:induction false} AddAllLeavesOthers<Item>(cache: Cache<Item>, u: UserId, v: UserId, its: seq<Item>)
    requires v != u
    ensures Items(AddAll(cache, u, its), v) == Items(cache, v)
    decreases |its|
  {
    if its != [] {
      AddAllLeavesOthers(cache, u, v, its[..|its| - 1]);
    }
  }

  class SessionStore<Item> {
    /** `SESSION_CACHE`. */
    var cache: Cache<Item>

    constructor()
      ensures cache == map[]
    {
      cache := map[];
    }

    method StartSession(u: UserId)
      modifies this
      ensures cache == Start(old(cache), u)
    {
      cache := cache[u := []];
    }

    method AddItem(u: UserId, it: Item)
      modifies this
      ensures cache == Add(old(cache), u, it)
    {
      var current := if u in cache then cache[u] else [];
      cache := cache[u := current + [it]];
    }

    /** Reading never creates an entry. */
    method GetSessionItems(u: UserId) returns (items: seq<Item>)
      ensures items == Items(cache, u)
      ensures u !in cache ==> items == []
    {
      if u in cache {
        items := cache[u];
      } else {
        items := [];
      }
    }

    method ClearSession(u: UserId)
      modifies this
      ensures cache == Clear(old(cache), u)
    {
      cache := cache - {u};
    }

    /** `set_session_items(u, items)`, which the store module does not
        define; the callers rely on it storing the list as the user's cart. */
    method SetSessionItems(u: UserId, items: seq<Item>)
      modifies this
      ensures cache == old(cache)[u := items]
    {
      cache := cache[u := items];
    }

    /** `end_session(u)`, also not defined by the store module; taken to
        drop the user's cart like `clear_session`. */
    method EndSession(u: UserId)
      modifies this
      ensures cache == Clear(old(cache), u)
    {
      ClearSession(u);
    }
  }
}
