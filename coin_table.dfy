/** The market table's watchlist stars. */
module CoinTable {
  import opened Optional
  import opened IdLists
  import Storage

  /** The table's watchlist: a JavaScript Set, which iterates in insertion order, kept as a
      duplicate-free list in that order. It shares the storage key "watchlist" with the
      watchlist page. */
  class CoinTableWatchlist {
    var watchlist: seq<string>
    const store: Storage.Slot<seq<string>>

    ghost predicate Valid()
      reads this
    {
      NoDuplicates(watchlist)
    }

    /** Mount: `new Set(JSON.parse(getItem("watchlist") || "[]"))`; an absent key gives the empty set. */
    constructor (store: Storage.Slot<seq<string>>)
      ensures this.store == store
      ensures watchlist == Dedup(store.saved.GetOr([]))
      ensures Valid()
    {
      var saved := store.Read();
      DedupIsSetOfList(saved.GetOr([]));
      watchlist := Dedup(saved.GetOr([]));
      this.store := store;
    }

    /** Whether the star of `coinId` is filled: `watchlist.has(coinId)`. */
    function IsWatched(coinId: string): bool
      reads this
    {
      coinId in watchlist
    }

    /** `toggleWatchlist`: copy the set, delete `coinId` if present and add it otherwise, then
        store the copy and write `[...newWatchlist]` to storage. */
    method ToggleWatchlist(coinId: string)
      requires Valid()
      modifies this, store
      ensures Valid()
      ensures watchlist == Toggle(old(watchlist), coinId)
      ensures IsWatched(coinId) <==> !old(IsWatched(coinId))
      ensures forall y :: y != coinId ==> (IsWatched(y) <==> old(IsWatched(y)))
      ensures store.saved == Some(watchlist)
    {
      ToggleFlipsMembership(watchlist, coinId);
      var next := watchlist;
      if coinId in next {
        next := RemoveAll(next, coinId);
      } else {
        next := next + [coinId];
      }
      watchlist := next;
      store.Write(next);
    }
  }
}
