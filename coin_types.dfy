/**
 * The records the two data hooks exchange with the market-data service and the
 * device store, the shared status enumeration, the shape of a failed request,
 * and the side effects (storage writes and remote requests) the hooks perform.
 * Numeric market fields are never computed on here, so they are plain reals.
 */
module CoinTypes {
  import opened Wrappers
  import opened Text

  /** `DataStatus`: 'idle' | 'loading' | 'success' | 'error' | 'offline'. */
  datatype DataStatus = Idle | Loading | Success | Error | Offline

  /** `ICoinMarket`: one entry of the market list as the service returns it. */
  datatype CoinMarket = CoinMarket(
    id: string,
    symbol: string,
    name: string,
    image: string,
    currentPrice: real,
    marketCap: real,
    totalVolume: real,
    priceChangePercentage24h: real,
    circulatingSupply: real)

  /** `ICoin`: a market entry joined with the user's favourite flag. */
  datatype Coin = Coin(market: CoinMarket, isFavorite: bool)

  /** `ICoinDetail`: the per-coin record behind the detail screen. */
  datatype CoinDetail = CoinDetail(
    id: string,
    name: string,
    symbol: string,
    imageLarge: string,
    descriptionEn: string,
    currentPriceUsd: real,
    high24hUsd: real,
    low24hUsd: real,
    priceChangePercentage24hUsd: real)

  /** One candle `[timestamp, open, high, low, close]` of the OHLC chart. */
  datatype OhlcPoint = OhlcPoint(timestamp: real, open: real, high: real, low: real, close: real)

  /**
   * What a failed request throws: the error's `message`, and the HTTP status of
   * `e.response` when the server answered at all.
   */
  datatype FetchError = FetchError(message: string, responseStatus: Option<int>)

  /** A settled request: its resolved value or the error it rejected with. */
  datatype Outcome<+T> = Ok(value: T) | Err(error: FetchError)

  /** The hooks' offline test: `e.message.includes('Network Error')`. */
  predicate IsNetworkError(e: FetchError)
    ensures IsNetworkError(e) <==> Occurs(e.message, "Network Error")
  {
    ContainsIffOccurs(e.message, "Network Error");
    Contains(e.message, "Network Error")
  }

  /**
   * Effects on the outside world, in the order issued: remote requests and the
   * fire-and-forget writes to the device store.
   */
  datatype SideEffect =
    | RequestCoinMarkets
    | RequestCoinDetails(coinId: string)
    | RequestMarketChart(coinId: string, days: real)
    | SaveCoinList(coins: seq<CoinMarket>)
    | SaveFavoriteCoinIds(ids: seq<string>)
    | SaveCoinDetail(coinId: string, detail: CoinDetail)
    | SaveThemeMode(mode: string)

  /**
   * The status both hooks publish after a failed fetch: data shown from the
   * cache reads as a success; otherwise offline for a network error, else error.
   */
  function FailureStatus(e: FetchError, hasCache: bool): (st: DataStatus)
    ensures st == Success <==> hasCache
    ensures st == Offline <==> !hasCache && IsNetworkError(e)
    ensures st == Error <==> !hasCache && !IsNetworkError(e)
  {
    if hasCache then Success else if IsNetworkError(e) then Offline else Error
  }
}
