/**
 * The coin-list hook (`useCoinData`): a stale-while-revalidate state machine
 * over `{status, coins, favorites, searchTerm, error}`.
 *
 * The record updates the hook passes to `setState` are pure functions here
 * (the favourite join, the search filter, the favourite toggle, the failure
 * classification); the hook itself is the class `CoinListHook`, whose single
 * `state` field each phase overwrites. The device store's reads and the
 * service's answer arrive as parameters; its writes and the requests it
 * issues are appended to a ghost log.
 */
module CoinData {
  import opened Wrappers
  import opened Text
  import opened CoinTypes

  /** `ICoinListState`. */
  datatype CoinListState = CoinListState(
    status: DataStatus,
    coins: seq<Coin>,
    favorites: seq<string>,
    searchTerm: string,
    error: Option<string>)

  const InitialListState := CoinListState(Idle, [], [], "", None)

  // The advisory messages of a failed list fetch.
  const OfflineMessage := "Offline Mode: Displaying last known data."
  const AuthFailedMessage := "Authentication Failed (401). Displaying cached data."
  const StaleCacheMessage := "Update failed. Displaying last known data."
  const NoDataMessage := "Failed to load any data. Please check connection/API key."

  /** `localCoins && localCoins.length > 0`: the cache can stand in for fresh data. */
  predicate HasCachedCoins(localCoins: Option<seq<CoinMarket>>)
  {
    localCoins.Some? && |localCoins.value| > 0
  }

  /** Every coin's flag says whether its id is among the favourites. */
  predicate FavoritesConsistent(coins: seq<Coin>, favorites: seq<string>)
  {
    forall i :: 0 <= i < |coins| ==> (coins[i].isFavorite <==> coins[i].market.id in favorites)
  }

  // ---------------------------------------------------------------------------
  // Favourite join

  /** `markets.map(coin => ({...coin, isFavorite: ids.includes(coin.id)}))`. */
  function JoinFavorites(markets: seq<CoinMarket>, ids: seq<string>): (r: seq<Coin>)
    ensures |r| == |markets|
    ensures forall i :: 0 <= i < |r| ==> r[i].market == markets[i]
    ensures FavoritesConsistent(r, ids)
  {
    if markets == [] then []
    else [Coin(markets[0], markets[0].id in ids)] + JoinFavorites(markets[1..], ids)
  }

  // ---------------------------------------------------------------------------
  // Failure classification

  /** The message chosen in the catch block: network error, then 401, then cache, then none. */
  function ListFailureMessage(e: FetchError, hasCache: bool): (m: string)
    ensures m == OfflineMessage <==> IsNetworkError(e)
    ensures m == AuthFailedMessage <==> !IsNetworkError(e) && e.responseStatus == Some(401)
    ensures m == StaleCacheMessage <==> !IsNetworkError(e) && e.responseStatus != Some(401) && hasCache
    ensures m == NoDataMessage <==> !IsNetworkError(e) && e.responseStatus != Some(401) && !hasCache
  {
    if IsNetworkError(e) then OfflineMessage
    else if e.responseStatus == Some(401) then AuthFailedMessage
    else if hasCache then StaleCacheMessage
    else NoDataMessage
  }

  /** Without a cache, the status is offline exactly when the offline message is shown. */
  lemma NoCacheStatusMatchesMessage(e: FetchError)
    ensures FailureStatus(e, false) == Offline <==> ListFailureMessage(e, false) == OfflineMessage
    ensures FailureStatus(e, false) in {Error, Offline}
  {
  }

  /**
   * A 401 is reported as "Displaying cached data" even when there is no cache,
   * and a network error as "Displaying last known data": the message does not
   * look at the cache unless the first two tests fail.
   */
  lemma AuthMessageIgnoresCache(e: FetchError)
    requires !IsNetworkError(e) && e.responseStatus == Some(401)
    ensures ListFailureMessage(e, false) == ListFailureMessage(e, true) == AuthFailedMessage
    ensures FailureStatus(e, false) == Error
  {
  }

  // ---------------------------------------------------------------------------
  // Search

  /** A coin matches a lower-cased term when its lower-cased name or symbol includes it. */
  predicate CoinMatches(c: Coin, lowerTerm: string)
    ensures CoinMatches(c, lowerTerm) <==>
              Occurs(Lower(c.market.name), lowerTerm) || Occurs(Lower(c.market.symbol), lowerTerm)
  {
    var name, symbol := Lower(c.market.name), Lower(c.market.symbol);
    ContainsIffOccurs(name, lowerTerm);
    ContainsIffOccurs(symbol, lowerTerm);
    Contains(Lower(c.market.name), lowerTerm) || Contains(Lower(c.market.symbol), lowerTerm)
  }

  /** `coins.filter(coin => CoinMatches(coin, lowerTerm))`. */
  function FilterMatching(coins: seq<Coin>, lowerTerm: string): (r: seq<Coin>)
    ensures IsSubsequence(r, coins)
    ensures |r| <= |coins|
    ensures forall k :: 0 <= k < |r| ==> CoinMatches(r[k], lowerTerm)
    ensures forall k :: 0 <= k < |coins| && CoinMatches(coins[k], lowerTerm) ==> coins[k] in r
  {
    if coins == [] then []
    else
      var rest := FilterMatching(coins[1..], lowerTerm);
      assert forall k :: 1 <= k < |coins| ==> coins[k] == coins[1..][k - 1];
      if CoinMatches(coins[0], lowerTerm) then [coins[0]] + rest else rest
  }

  /** `filteredCoins`: the identity for an empty term, else the case-insensitive filter. */
  function SearchFilter(coins: seq<Coin>, term: string): (r: seq<Coin>)
    ensures term == "" ==> r == coins
    ensures IsSubsequence(r, coins)
    ensures |r| <= |coins|
    ensures forall k :: 0 <= k < |r| ==> CoinMatches(r[k], Lower(term))
    ensures forall k :: 0 <= k < |coins| && CoinMatches(coins[k], Lower(term)) ==> coins[k] in r
  {
    if term == "" then
      SubsequenceReflexive(coins);
      coins
    else FilterMatching(coins, Lower(term))
  }

  /** The filter keeps every copy of a matching coin and no copy of any other. */
  lemma {:induction false} FilterMultiplicity(coins: seq<Coin>, lowerTerm: string, c: Coin)
    ensures multiset(FilterMatching(coins, lowerTerm))[c]
         == if CoinMatches(c, lowerTerm) then multiset(coins)[c] else 0
  {
    if coins != [] {
      FilterMultiplicity(coins[1..], lowerTerm, c);
      assert coins == [coins[0]] + coins[1..];
    }
  }

  /** Every coin matches the empty term, so the empty-term shortcut changes nothing. */
  lemma {:induction false} FilterEmptyTermKeepsAll(coins: seq<Coin>)
    ensures FilterMatching(coins, "") == coins
  {
    if coins != [] {
      FilterEmptyTermKeepsAll(coins[1..]);
      ContainsEmpty(Lower(coins[0].market.name));
      assert coins == [coins[0]] + coins[1..];
    }
  }

  /** Filtering twice by the same term is filtering once. */
  lemma {:induction false} FilterIdempotent(coins: seq<Coin>, lowerTerm: string)
    ensures FilterMatching(FilterMatching(coins, lowerTerm), lowerTerm) == FilterMatching(coins, lowerTerm)
  {
    if coins != [] {
      FilterIdempotent(coins[1..], lowerTerm);
      var rest := FilterMatching(coins[1..], lowerTerm);
      if CoinMatches(coins[0], lowerTerm) {
        assert ([coins[0]] + rest)[1..] == rest;
      }
    }
  }

  /** The search is case-insensitive in the term: a term and its lower-cased form select the same coins. */
  lemma SearchIgnoresTermCase(coins: seq<Coin>, term: string)
    ensures SearchFilter(coins, term) == SearchFilter(coins, Lower(term))
  {
    LowerIdempotent(term);
  }

  // ---------------------------------------------------------------------------
  // Favourite toggle

  /** `ids.filter(x => x !== id)`. */
  function RemoveAll(ids: seq<string>, id: string): (r: seq<string>)
    ensures id !in r
    ensures forall x :: x != id ==> (x in r <==> x in ids)
    ensures IsSubsequence(r, ids)
    ensures multiset(r) == multiset(ids)[id := 0]
    ensures id !in ids ==> r == ids
  {
    if ids == [] then []
    else
      var rest := RemoveAll(ids[1..], id);
      assert ids == [ids[0]] + ids[1..];
      if ids[0] == id then rest else [ids[0]] + rest
  }

  /** The new favourites list: every occurrence removed if present, else appended at the end. */
  function ToggleIds(ids: seq<string>, id: string): (r: seq<string>)
    ensures id in r <==> id !in ids
    ensures forall x :: x != id ==> (x in r <==> x in ids)
    ensures id !in ids ==> r == ids + [id]
    ensures id in ids ==> IsSubsequence(r, ids)
    ensures id in ids ==> multiset(r) == multiset(ids)[id := 0]
  {
    if id in ids then RemoveAll(ids, id) else ids + [id]
  }

  /** `coins.map(coin => coin.id === id ? {...coin, isFavorite: flag} : coin)`. */
  function MarkFavorite(coins: seq<Coin>, id: string, flag: bool): (r: seq<Coin>)
    ensures |r| == |coins|
    ensures forall i :: 0 <= i < |r| ==> r[i].market == coins[i].market
    ensures forall i :: 0 <= i < |r| && coins[i].market.id == id ==> r[i].isFavorite == flag
    ensures forall i :: 0 <= i < |r| && coins[i].market.id != id ==> r[i] == coins[i]
  {
    if coins == [] then []
    else
      var head := if coins[0].market.id == id then coins[0].(isFavorite := flag) else coins[0];
      [head] + MarkFavorite(coins[1..], id, flag)
  }

  /** Toggling an absent id twice gives back exactly the list it started from. */
  lemma ToggleTwiceFromAbsent(ids: seq<string>, id: string)
    requires id !in ids
    ensures ToggleIds(ToggleIds(ids, id), id) == ids
  {
    RemoveAppended(ids, id);
  }

  lemma {:induction false} RemoveAppended(ids: seq<string>, id: string)
    requires id !in ids
    ensures RemoveAll(ids + [id], id) == ids
  {
    if ids != [] {
      RemoveAppended(ids[1..], id);
      assert (ids + [id])[1..] == ids[1..] + [id];
    }
  }

  /**
   * Toggling a present id twice restores membership but not order: every
   * copy is dropped, then one copy goes to the end.
   */
  lemma ToggleTwiceFromPresent(ids: seq<string>, id: string)
    requires id in ids
    ensures ToggleIds(ToggleIds(ids, id), id) == RemoveAll(ids, id) + [id]
    ensures forall x :: x in ToggleIds(ToggleIds(ids, id), id) <==> x in ids
  {
  }

  /** The toggle keeps each coin's flag in step with the favourites list. */
  lemma ToggleKeepsFavoritesConsistent(coins: seq<Coin>, ids: seq<string>, id: string, newFlag: bool)
    requires FavoritesConsistent(coins, ids)
    requires newFlag <==> id !in ids
    ensures FavoritesConsistent(MarkFavorite(coins, id, newFlag), ToggleIds(ids, id))
  {
  }

  // ---------------------------------------------------------------------------
  // The hook

  class CoinListHook {
    /** The single state cell that `setState` overwrites. */
    var state: CoinListState
    /** Every state published by `setState`, oldest first. */
    ghost var history: seq<CoinListState>
    /** Remote requests and storage writes, in the order issued. */
    ghost var log: seq<SideEffect>

    ghost predicate Valid()
      reads this
    {
      FavoritesConsistent(state.coins, state.favorites)
    }

    constructor ()
      ensures Valid()
      ensures state == InitialListState
      ensures history == [] && log == []
    {
      state := InitialListState;
      history := [];
      log := [];
    }

    /** Phase 1: publish `loading`, showing the cached list joined with the stored favourites. */
    method BeginFetch(localFavoriteIds: seq<string>, localCoins: Option<seq<CoinMarket>>)
      requires Valid()
      modifies this
      ensures Valid()
      ensures state.status == Loading && state.error == None
      ensures state.searchTerm == old(state.searchTerm)
      ensures HasCachedCoins(localCoins) ==>
                state.coins == JoinFavorites(localCoins.value, localFavoriteIds) &&
                state.favorites == localFavoriteIds
      ensures !HasCachedCoins(localCoins) ==>
                state.coins == old(state.coins) && state.favorites == old(state.favorites)
      ensures history == old(history) + [state]
      ensures log == old(log)
    {
      if HasCachedCoins(localCoins) {
        var persisted := JoinFavorites(localCoins.value, localFavoriteIds);
        state := state.(status := Loading, coins := persisted, favorites := localFavoriteIds, error := None);
      } else {
        state := state.(status := Loading, error := None);
      }
      history := history + [state];
    }

    /** Phase 3: save the fresh list, join it with the re-read favourites and publish `success`. */
    method ApplyFetchSuccess(freshCoins: seq<CoinMarket>, currentFavoriteIds: seq<string>)
      requires Valid()
      modifies this
      ensures Valid()
      ensures state == old(state).(status := Success,
                                   coins := JoinFavorites(freshCoins, currentFavoriteIds),
                                   favorites := currentFavoriteIds,
                                   error := None)
      ensures history == old(history) + [state]
      ensures log == old(log) + [SaveCoinList(freshCoins)]
    {
      log := log + [SaveCoinList(freshCoins)];
      var applicationCoins := JoinFavorites(freshCoins, currentFavoriteIds);
      state := state.(status := Success, coins := applicationCoins, favorites := currentFavoriteIds, error := None);
      history := history + [state];
    }

    /** Phase 4: classify the failure; coins and favourites stay as phase 1 left them. */
    method ApplyFetchFailure(e: FetchError, hadCache: bool)
      requires Valid()
      modifies this
      ensures Valid()
      ensures state == old(state).(status := FailureStatus(e, hadCache),
                                   error := Some(ListFailureMessage(e, hadCache)))
      ensures history == old(history) + [state]
      ensures log == old(log)
    {
      var errorMessage := ListFailureMessage(e, hadCache);
      state := state.(status := FailureStatus(e, hadCache), error := Some(errorMessage));
      history := history + [state];
    }

    /**
     * `fetchInitialData`: the stored favourites and cached list are read first,
     * the market list is requested, and for a fresh list the favourites are
     * read again (`currentFavoriteIds`).
     */
    method FetchInitialData(localFavoriteIds: seq<string>, localCoins: Option<seq<CoinMarket>>,
                            outcome: Outcome<seq<CoinMarket>>, currentFavoriteIds: seq<string>)
      requires Valid()
      modifies this
      ensures Valid()
      ensures |history| == |old(history)| + 2 && history[..|old(history)|] == old(history)
      ensures history[|old(history)|].status == Loading && history[|old(history)|].error == None
      ensures history[|old(history)|].searchTerm == old(state.searchTerm)
      ensures HasCachedCoins(localCoins) ==>
                history[|old(history)|].coins == JoinFavorites(localCoins.value, localFavoriteIds) &&
                history[|old(history)|].favorites == localFavoriteIds
      ensures !HasCachedCoins(localCoins) ==>
                history[|old(history)|].coins == old(state.coins) &&
                history[|old(history)|].favorites == old(state.favorites)
      ensures history[|history| - 1] == state
      ensures state.searchTerm == old(state.searchTerm)
      ensures outcome.Ok? ==>
                state.status == Success && state.error == None &&
                state.coins == JoinFavorites(outcome.value, currentFavoriteIds) &&
                state.favorites == currentFavoriteIds &&
                log == old(log) + [RequestCoinMarkets, SaveCoinList(outcome.value)]
      ensures outcome.Err? ==>
                state.error == Some(ListFailureMessage(outcome.error, HasCachedCoins(localCoins))) &&
                log == old(log) + [RequestCoinMarkets]
      ensures outcome.Err? && HasCachedCoins(localCoins) ==>
                state.status == Success &&
                state.coins == JoinFavorites(localCoins.value, localFavoriteIds) &&
                state.favorites == localFavoriteIds
      ensures outcome.Err? && !HasCachedCoins(localCoins) ==>
                state.status == (if IsNetworkError(outcome.error) then Offline else Error) &&
                state.coins == old(state.coins) && state.favorites == old(state.favorites)
    {
      BeginFetch(localFavoriteIds, localCoins);
      log := log + [RequestCoinMarkets];
      match outcome {
        case Ok(rawCoinMarkets) =>
          ApplyFetchSuccess(rawCoinMarkets, currentFavoriteIds);
        case Err(e) =>
          ApplyFetchFailure(e, HasCachedCoins(localCoins));
      }
    }

    /** `setSearchTerm`: only the term changes. */
    method SetSearchTerm(term: string)
      requires Valid()
      modifies this
      ensures Valid()
      ensures state == old(state).(searchTerm := term)
      ensures history == old(history) + [state]
      ensures log == old(log)
    {
      state := state.(searchTerm := term);
      history := history + [state];
    }

    /** `toggleFavorite`: flip membership, re-flag the matching coins, save the new list. */
    method ToggleFavorite(coinId: string)
      requires Valid()
      modifies this
      ensures Valid()
      ensures coinId in state.favorites <==> coinId !in old(state.favorites)
      ensures state == old(state).(favorites := ToggleIds(old(state.favorites), coinId),
                                   coins := MarkFavorite(old(state.coins), coinId,
                                                         coinId !in old(state.favorites)))
      ensures history == old(history) + [state]
      ensures log == old(log) + [SaveFavoriteCoinIds(state.favorites)]
    {
      var isCurrentlyFavorite := coinId in state.favorites;
      var newFavorites := ToggleIds(state.favorites, coinId);
      var newCoins := MarkFavorite(state.coins, coinId, !isCurrentlyFavorite);
      ToggleKeepsFavoritesConsistent(state.coins, state.favorites, coinId, !isCurrentlyFavorite);
      log := log + [SaveFavoriteCoinIds(newFavorites)];
      state := state.(coins := newCoins, favorites := newFavorites);
      history := history + [state];
    }

    /** `filteredCoins`: the coins the search term selects, in list order. */
    function FilteredCoins(): (r: seq<Coin>)
      reads this
      ensures IsSubsequence(r, state.coins)
      ensures forall k :: 0 <= k < |r| ==> CoinMatches(r[k], Lower(state.searchTerm))
      ensures forall k :: 0 <= k < |state.coins| && CoinMatches(state.coins[k], Lower(state.searchTerm))
                ==> state.coins[k] in r
    {
      SearchFilter(state.coins, state.searchTerm)
    }
  }

  // ---------------------------------------------------------------------------
  // Clients: what a caller can conclude from the contracts alone

  method ColdStartScenario(bitcoin: CoinMarket)
  {
    var hook := new CoinListHook();
    hook.FetchInitialData([], None, Ok([bitcoin]), []);
    assert hook.state.status == Success && hook.state.error == None;
    assert |hook.state.coins| == 1 && !hook.state.coins[0].isFavorite;
    assert hook.log == [RequestCoinMarkets, SaveCoinList([bitcoin])];
  }

  method CachedListSurvivesNetworkErrorScenario(cached: CoinMarket)
  {
    var hook := new CoinListHook();
    var e := FetchError("Network Error", None);
    assert IsPrefix("Network Error", e.message);
    hook.FetchInitialData([], Some([cached]), Err(e), []);
    assert hook.state.status == Success;
    assert hook.state.error == Some(OfflineMessage);
    assert |hook.state.coins| == 1 && hook.state.coins[0].market == cached;
  }

  method ToggleScenario(bitcoin: CoinMarket)
    requires bitcoin.id == "bitcoin"
  {
    var hook := new CoinListHook();
    hook.FetchInitialData([], None, Ok([bitcoin]), []);
    hook.ToggleFavorite("bitcoin");
    assert hook.state.favorites == ["bitcoin"];
    assert hook.state.coins[0].isFavorite;
    assert hook.log[|hook.log| - 1] == SaveFavoriteCoinIds(["bitcoin"]);
    hook.ToggleFavorite("bitcoin");
    assert hook.state.favorites == [];
    assert !hook.state.coins[0].isFavorite;
  }
}
