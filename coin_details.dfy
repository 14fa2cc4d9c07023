/**
 * The coin-detail hook (`useCoinDetails`): the same loading / success / failure
 * cycle as the list hook, over `{status, details, chartData, error}` for one
 * coin and one chart time frame. The fresh step needs both the detail request
 * and the chart request to succeed (`Promise.all`); any rejection falls back
 * to the cached detail.
 */
module CoinDetails {
  import opened Wrappers
  import opened CoinTypes

  /** `ICoinDetailState`. */
  datatype CoinDetailState = CoinDetailState(
    status: DataStatus,
    details: Option<CoinDetail>,
    chartData: seq<OhlcPoint>,
    error: Option<string>)

  const InitialDetailState := CoinDetailState(Idle, None, [], None)

  /** The chart range, in days, before the user picks another one. */
  const DefaultTimeFrame: real := 30.0

  // The advisory messages of a failed detail fetch.
  const OfflineMessage := "Offline Mode: Displaying last known data."
  const StaleCacheMessage := "Update failed. Using cached data."
  const NoDataMessage := "Failed to load any data. Please retry."

  /** With a cache, the message says whether the network was down; without one, that nothing loaded. */
  function DetailFailureMessage(e: FetchError, hasCache: bool): (m: string)
    ensures m == NoDataMessage <==> !hasCache
    ensures m == OfflineMessage <==> hasCache && IsNetworkError(e)
    ensures m == StaleCacheMessage <==> hasCache && !IsNetworkError(e)
  {
    if hasCache then (if IsNetworkError(e) then OfflineMessage else StaleCacheMessage)
    else NoDataMessage
  }

  /**
   * Unlike the list hook, the detail hook never claims cached data without a
   * cache: the message mentions cached or last known data exactly when the
   * status is the cache-backed success.
   */
  lemma MessageAgreesWithStatus(e: FetchError, hasCache: bool)
    ensures DetailFailureMessage(e, hasCache) != NoDataMessage <==> FailureStatus(e, hasCache) == Success
  {
  }

  /**
   * `Promise.all([a, b])`: both values when both succeed, else a rejection
   * with the error of whichever request rejected (the first to reject when
   * both do, which `bRejectsFirst` decides).
   */
  function JoinBoth<A, B>(a: Outcome<A>, b: Outcome<B>, bRejectsFirst: bool): (r: Outcome<(A, B)>)
    ensures r.Ok? <==> a.Ok? && b.Ok?
    ensures r.Ok? ==> r.value.0 == a.value && r.value.1 == b.value
    ensures a.Err? && (b.Ok? || !bRejectsFirst) ==> r == Err(a.error)
    ensures b.Err? && (a.Ok? || bRejectsFirst) ==> r == Err(b.error)
  {
    match (a, b)
    case (Ok(x), Ok(y)) => Ok((x, y))
    case (Err(ea), Ok(_)) => Err(ea)
    case (Ok(_), Err(eb)) => Err(eb)
    case (Err(ea), Err(eb)) => if bRejectsFirst then Err(eb) else Err(ea)
  }

  class CoinDetailsHook {
    /** The single state cell that `setState` overwrites. */
    var state: CoinDetailState
    /** The chart range in days; `fetchDetails` requests the chart for it. */
    var timeFrame: real
    /** Every state published by `setState`, oldest first. */
    ghost var history: seq<CoinDetailState>
    /** Remote requests and storage writes, in the order issued. */
    ghost var log: seq<SideEffect>

    constructor ()
      ensures state == InitialDetailState && timeFrame == DefaultTimeFrame
      ensures history == [] && log == []
    {
      state := InitialDetailState;
      timeFrame := DefaultTimeFrame;
      history := [];
      log := [];
    }

    /** `setTimeFrame`: only the range changes (the refetch it triggers is the caller's). */
    method SetTimeFrame(days: real)
      modifies this
      ensures timeFrame == days
      ensures state == old(state) && history == old(history) && log == old(log)
    {
      timeFrame := days;
    }

    /** Phase 1: publish `loading`, showing the cached detail if there is one; the chart is kept. */
    method BeginFetch(localDetails: Option<CoinDetail>)
      modifies this
      ensures state.status == Loading && state.error == None
      ensures state.details == if localDetails.Some? then localDetails else old(state.details)
      ensures state.chartData == old(state.chartData)
      ensures timeFrame == old(timeFrame)
      ensures history == old(history) + [state] && log == old(log)
    {
      if localDetails.Some? {
        state := state.(status := Loading, details := localDetails, error := None);
      } else {
        state := state.(status := Loading, error := None);
      }
      history := history + [state];
    }

    /** Phase 3: save the fresh detail (never the chart) and publish both. */
    method ApplyFetchSuccess(coinId: string, detail: CoinDetail, chart: seq<OhlcPoint>)
      modifies this
      ensures state == CoinDetailState(Success, Some(detail), chart, None)
      ensures timeFrame == old(timeFrame)
      ensures history == old(history) + [state]
      ensures log == old(log) + [SaveCoinDetail(coinId, detail)]
    {
      log := log + [SaveCoinDetail(coinId, detail)];
      state := state.(status := Success, details := Some(detail), chartData := chart, error := None);
      history := history + [state];
    }

    /** Phase 4: only the status and the message change; detail and chart keep their values. */
    method ApplyFetchFailure(e: FetchError, hadCache: bool)
      modifies this
      ensures state == old(state).(status := FailureStatus(e, hadCache),
                                   error := Some(DetailFailureMessage(e, hadCache)))
      ensures timeFrame == old(timeFrame)
      ensures history == old(history) + [state] && log == old(log)
    {
      var errorMessage := DetailFailureMessage(e, hadCache);
      state := state.(status := FailureStatus(e, hadCache), error := Some(errorMessage));
      history := history + [state];
    }

    /**
     * `fetchDetails` for `coinId`: the cached detail is read first, then the
     * detail and the chart for the current time frame are requested together.
     */
    method FetchDetails(coinId: string, localDetails: Option<CoinDetail>,
                        detailOutcome: Outcome<CoinDetail>, chartOutcome: Outcome<seq<OhlcPoint>>,
                        chartRejectsFirst: bool)
      modifies this
      ensures timeFrame == old(timeFrame)
      ensures coinId == "" ==> state == old(state) && history == old(history) && log == old(log)
      ensures coinId != "" ==>
                |history| == |old(history)| + 2 &&
                history[|old(history)|].status == Loading &&
                history[|old(history)|].error == None &&
                history[|old(history)|].details ==
                  (if localDetails.Some? then localDetails else old(state.details)) &&
                history[|old(history)|].chartData == old(state.chartData) &&
                history[..|old(history)|] == old(history) &&
                history[|history| - 1] == state
      ensures coinId != "" && detailOutcome.Ok? && chartOutcome.Ok? ==>
                state == CoinDetailState(Success, Some(detailOutcome.value), chartOutcome.value, None) &&
                log == old(log) + [RequestCoinDetails(coinId), RequestMarketChart(coinId, timeFrame),
                                   SaveCoinDetail(coinId, detailOutcome.value)]
      ensures coinId != "" && (detailOutcome.Err? || chartOutcome.Err?) ==>
                state.status == FailureStatus(JoinBoth(detailOutcome, chartOutcome, chartRejectsFirst).error,
                                              localDetails.Some?) &&
                state.error == Some(DetailFailureMessage(JoinBoth(detailOutcome, chartOutcome, chartRejectsFirst).error,
                                                         localDetails.Some?)) &&
                state.details == (if localDetails.Some? then localDetails else old(state.details)) &&
                state.chartData == old(state.chartData) &&
                log == old(log) + [RequestCoinDetails(coinId), RequestMarketChart(coinId, timeFrame)]
    {
      if coinId == "" {
        return;
      }
      BeginFetch(localDetails);
      log := log + [RequestCoinDetails(coinId), RequestMarketChart(coinId, timeFrame)];
      match JoinBoth(detailOutcome, chartOutcome, chartRejectsFirst) {
        case Ok((detailResponse, chartResponse)) =>
          ApplyFetchSuccess(coinId, detailResponse, chartResponse);
        case Err(e) =>
          ApplyFetchFailure(e, localDetails.Some?);
      }
    }
  }

  // ---------------------------------------------------------------------------
  // Clients: what a caller can conclude from the contracts alone

  /** The detail answers but the chart request fails: nothing is saved. */
  method ChartFailureScenario(detail: CoinDetail, cached: CoinDetail, e: FetchError)
  {
    var hook := new CoinDetailsHook();
    hook.SetTimeFrame(7.0);
    hook.FetchDetails("ethereum", None, Ok(detail), Err(e), false);
    assert hook.state.status in {Error, Offline} && hook.state.details == None;
    assert hook.log == [RequestCoinDetails("ethereum"), RequestMarketChart("ethereum", 7.0)];

    var warm := new CoinDetailsHook();
    warm.FetchDetails("ethereum", Some(cached), Ok(detail), Err(e), false);
    assert warm.history[0].details == Some(cached) && warm.history[0].status == Loading;
    assert warm.state.status == Success && warm.state.details == Some(cached);
    assert warm.state.chartData == [];
  }

  /** An empty coin id changes nothing and issues nothing. */
  method EmptyIdScenario(detail: CoinDetail, chart: seq<OhlcPoint>)
  {
    var hook := new CoinDetailsHook();
    hook.FetchDetails("", None, Ok(detail), Ok(chart), false);
    assert hook.state == InitialDetailState && hook.log == [];
  }
}
