/** The watchlist page: the stored list of coin ids and the cards of those coins. */
module Watchlist {
  import opened Optional
  import opened IdLists
  import Storage

  /** A coin as the markets endpoint lists it (the fields the page shows). */
  datatype Coin = Coin(id: string, symbol: string, name: string, currentPrice: real,
                       priceChange24h: real, marketCap: real)

  /** Whether the coins query runs: only for a non-empty list. */
  predicate QueryEnabled(ids: seq<string>)
  {
    |ids| > 0
  }

  /** `fetchWatchlistCoins`: an empty list answers at once with no coins; otherwise the
      provider's `response` is the answer. */
  function FetchWatchlistCoins(ids: seq<string>, response: Fetch<seq<Coin>>): (r: Fetch<seq<Coin>>)
    ensures ids == [] ==> r == Loaded([])
    ensures ids != [] ==> r == response
  {
    if |ids| == 0 then Loaded([]) else response
  }

  /** What the page body shows. */
  datatype View = EmptyCard | CoinCards(coins: seq<Coin>)

  /** The empty-list card for an empty list, otherwise a card per fetched coin (none while the
      coins are not loaded). */
  function PageView(ids: seq<string>, coins: Option<seq<Coin>>): (v: View)
    ensures v == EmptyCard <==> ids == []
    ensures ids != [] ==> v.coins == coins.GetOr([])
  {
    if |ids| == 0 then EmptyCard else CoinCards(coins.GetOr([]))
  }

  /** An empty list asks nothing of the network and shows the empty card. */
  lemma EmptyListShortCircuits(ids: seq<string>, response: Fetch<seq<Coin>>, coins: Option<seq<Coin>>)
    ensures QueryEnabled(ids) <==> ids != []
    ensures ids == [] ==> FetchWatchlistCoins(ids, response) == Loaded([]) && PageView(ids, coins) == EmptyCard
  {
  }

  class WatchlistPage {
    var watchlist: seq<string>
    const store: Storage.Slot<seq<string>>

    /** Mount: the stored list, or the empty list when the key is absent. */
    constructor (store: Storage.Slot<seq<string>>)
      ensures this.store == store
      ensures watchlist == store.saved.GetOr([])
    {
      var saved := store.Read();
      watchlist := saved.GetOr([]);
      this.store := store;
    }

    /** `removeFromWatchlist`: filter out every copy of `coinId` and write the new list. */
    method RemoveFromWatchlist(coinId: string)
      modifies this, store
      ensures watchlist == RemoveAll(old(watchlist), coinId)
      ensures coinId !in watchlist && |watchlist| <= |old(watchlist)|
      ensures forall y :: y != coinId ==> (y in watchlist <==> y in old(watchlist))
      ensures store.saved == Some(watchlist)
    {
      RemoveAllCounts(watchlist, coinId);
      var next := RemoveAll(watchlist, coinId);
      assert forall y :: y in next <==> y in multiset(next);
      watchlist := next;
      store.Write(next);
    }
  }

  /** Removing "ethereum" from ["bitcoin", "ethereum"] leaves and stores ["bitcoin"]. */
  method RemoveEthereumScenario()
  {
    var store := new Storage.Slot<seq<string>>(Some(["bitcoin", "ethereum"]));
    var page := new WatchlistPage(store);
    page.RemoveFromWatchlist("ethereum");
    assert page.watchlist == ["bitcoin"];
    assert store.saved == Some(["bitcoin"]);
  }
}
