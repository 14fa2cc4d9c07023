# CryptoCredWallet data hooks and theme mode, in Dafny

This project models the state logic of a mobile coin-tracking app. It covers three parts:

- **The coin-list hook (`useCoinData`).** It is a stale-while-revalidate state machine over `{status, coins, favorites, searchTerm, error}`. A fetch first publishes `loading`, showing the cached list joined with the stored favourite ids. It then asks the market-data service for a fresh list. On success it saves the list, re-reads the favourites and publishes `success`. On failure it classifies the error into a status and an advisory message. The hook also offers a case-insensitive search filter and a favourite toggle that updates the flags in place and saves the new list.
- **The coin-detail hook (`useCoinDetails`).** It runs the same cycle over `{status, details, chartData, error}`. The fresh step needs both the detail request and the chart request to succeed. The chart request uses the current `timeFrame`, which defaults to 30 days. An empty coin id makes a fetch do nothing.
- **The theme provider.** It holds a dark/light mode that starts dark and a one-shot `isReady` flag. On load it adopts a stored value only if that value is exactly `'light'` or `'dark'`. Toggling flips the mode and persists the new one. Nothing is rendered until the provider is ready.

How the model is laid out:

- Each hook is a class with one `state` field. Each `setState` call is a method that overwrites that field: `BeginFetch`, `ApplyFetchSuccess`, `ApplyFetchFailure`, `SetSearchTerm`, `ToggleFavorite`. A whole cycle (`FetchInitialData`, `FetchDetails`) calls these methods in the source's order.
- The updates passed to `setState` are pure functions: the favourite join, the filter, the toggle and the failure classification.
- Everything the device store and the service return is a parameter: cached data as `Option`, favourite ids as `seq<string>`, and a request result as `Outcome` (`Ok(value)` or `Err(FetchError(message, responseStatus))`).
- The requests issued and the storage writes (`saveCoinList`, `saveFavoriteCoinIds`, `saveCoinDetail`, the theme write) go into a ghost `log`. Every published state goes into a ghost `history`.
- The list hook's cache test `localCoins && localCoins.length > 0` (useCoinData.ts lines 34, 87 and 98) is the predicate `HasCachedCoins`; the contracts of `BeginFetch` and `FetchInitialData` split their cases on it.
- An error counts as a network error when its message contains `"Network Error"`. This is a case-sensitive substring test, exactly as both hooks write it.

Files:

- `wrappers.dfy`: `Option`.
- `text.dfy`: ASCII lower-casing, `includes`, and ordered subsequences.
- `coin_types.dfy`: the records, the statuses, fetch errors, side effects, and the failure status shared by both hooks.
- `coin_data.dfy`: the coin-list hook.
- `coin_details.dfy`: the coin-detail hook.
- `theme.dfy`: the theme provider.

Where the code does something other than its comments or an expected stale-while-revalidate design suggest, the model follows the code:

- **Detail fetch failure.** The failure update sets only `status` and `error`. `chartData` and `details` keep whatever they held, so a stale chart stays visible. The comment beside the update says the chart "remains empty", but nothing resets it.
- **List fetch failure without a cache.** `coins` and `favorites` are also left as they were. They are not cleared to an empty list.
- **Misleading list messages.** The list hook picks its message before it looks at the cache. A 401 without a cache therefore reads "Displaying cached data", and a network error without a cache reads "Displaying last known data" (`AuthMessageIgnoresCache`, `NoCacheStatusMatchesMessage`).

## Model

| member | source | states |
|---|---|---|
| `Text.Lower` | src/hooks/useCoinData.ts:115-119 | lower-casing keeps the length and maps every character through the ASCII lower-case map |
| `Text.LowerIdempotent` | src/hooks/useCoinData.ts:115-119 | lower-casing an already lower-cased string changes nothing |
| `Text.Contains` | src/hooks/useCoinData.ts:118-119 | `includes`: when it holds, the needle is no longer than the hay |
| `Text.ContainsIffOccurs` | src/hooks/useCoinData.ts:118-119 | `includes` holds exactly when the needle occurs at some position of the hay |
| `CoinTypes.IsNetworkError` | src/hooks/useCoinData.ts:79 | an error is a network error iff "Network Error" occurs somewhere in its message (useCoinDetails.ts:71 uses the same test) |
| `CoinTypes.FailureStatus` | src/hooks/useCoinData.ts:98 | after a failed fetch the status is `success` iff a cache exists, `offline` iff there is no cache and the error is a network error, and `error` otherwise; useCoinDetails.ts:79 has the same rule |
| `CoinData.JoinFavorites` | src/hooks/useCoinData.ts:37-40 | the joined list has the same length and order and carries each market entry unchanged; each coin's `isFavorite` holds iff its id is among the favourite ids (also lines 64-67) |
| `CoinData.ListFailureMessage` | src/hooks/useCoinData.ts:79-91 | the message is the offline one iff the message contains "Network Error"; otherwise the 401 one iff the status is 401; otherwise the stale-cache one iff a cache exists; otherwise "Failed to load any data" |
| `CoinData.NoCacheStatusMatchesMessage` | src/hooks/useCoinData.ts:79-98 | without a cache the status is `error` or `offline`, and it is `offline` exactly when the offline message is shown |
| `CoinData.AuthMessageIgnoresCache` | src/hooks/useCoinData.ts:82-91 | a non-network 401 gives the "Displaying cached data" message whether a cache exists or not, and without a cache the status is `error` |
| `CoinData.CoinMatches` | src/hooks/useCoinData.ts:118-119 | a coin matches iff the lower-cased term occurs somewhere in its lower-cased name or in its lower-cased symbol |
| `CoinData.FilterMatching` | src/hooks/useCoinData.ts:117-120 | the filter result is an ordered subsequence of the coins, no longer than them; every kept coin matches; every matching coin is kept |
| `CoinData.SearchFilter` | src/hooks/useCoinData.ts:111-121 | an empty term returns the coins unchanged; any term gives an ordered subsequence, no longer than the coins, holding exactly the coins whose lower-cased name or symbol includes the lower-cased term |
| `CoinData.FilterMultiplicity` | src/hooks/useCoinData.ts:117-120 | the filter keeps every copy of a matching coin and no copy of a non-matching one |
| `CoinData.FilterEmptyTermKeepsAll` | src/hooks/useCoinData.ts:113-120 | filtering by the empty term keeps every coin, so the empty-term shortcut agrees with the filter |
| `CoinData.FilterIdempotent` | src/hooks/useCoinData.ts:117-120 | filtering an already filtered list by the same term changes nothing |
| `CoinData.SearchIgnoresTermCase` | src/hooks/useCoinData.ts:115-120 | a term and its lower-cased form select the same coins |
| `CoinData.RemoveAll` | src/hooks/useCoinData.ts:133 | removal drops every occurrence of the id and keeps every copy of every other id, in order (an ordered subsequence whose multiset is the input's with the id's count set to zero); an absent id leaves the list unchanged |
| `CoinData.ToggleIds` | src/hooks/useCoinData.ts:131-134 | the toggled id is present afterwards iff it was absent before; every other id keeps its membership; an absent id is appended at the end; a present id loses every copy while every copy of the other ids stays, in order |
| `CoinData.MarkFavorite` | src/hooks/useCoinData.ts:136-138 | the coins keep their length and market data; coins with the toggled id get the new flag; all other coins are unchanged |
| `CoinData.ToggleTwiceFromAbsent` | src/hooks/useCoinData.ts:129-144 | toggling an absent id twice restores the favourites list exactly |
| `CoinData.ToggleTwiceFromPresent` | src/hooks/useCoinData.ts:131-134 | toggling a present id twice restores membership but moves the id to the end, once |
| `CoinData.ToggleKeepsFavoritesConsistent` | src/hooks/useCoinData.ts:130-142 | if every coin's flag agreed with the favourites before a toggle, the flags agree with the new favourites after it |
| `CoinData.CoinListHook.constructor` | src/hooks/useCoinData.ts:16-25 | the initial state is `idle`, with no coins, no favourites, an empty term and no error |
| `CoinData.CoinListHook.BeginFetch` | src/hooks/useCoinData.ts:34-51 | `loading` with no error and the same term; with a non-empty cache, coins are the cache joined with the stored ids and favourites are those ids; otherwise coins and favourites are unchanged; nothing is written |
| `CoinData.CoinListHook.ApplyFetchSuccess` | src/hooks/useCoinData.ts:59-75 | the fresh list is saved; the state becomes `success` with no error, the fresh list joined with the re-read ids, and those ids as favourites |
| `CoinData.CoinListHook.ApplyFetchFailure` | src/hooks/useCoinData.ts:77-101 | only the status and the message change, as the failure classification says |
| `CoinData.CoinListHook.FetchInitialData` | src/hooks/useCoinData.ts:28-103 | keeps every earlier published state and first publishes `loading` with no error and the same term, showing the cached list joined with the stored ids and those ids as favourites when a cache exists, and the previous coins and favourites otherwise; then publishes the final state. On success: `success`, fresh joined list, request then save. On failure with a cache: `success`, the cached list and an error message, nothing saved. Without a cache: `offline` iff a network error, else `error`, coins and favourites untouched. The term is kept and flags stay consistent throughout |
| `CoinData.CoinListHook.SetSearchTerm` | src/hooks/useCoinData.ts:123-125 | only the search term changes |
| `CoinData.CoinListHook.ToggleFavorite` | src/hooks/useCoinData.ts:129-144 | membership of the id flips; matching coins get the negated prior membership; status, error and term are unchanged; exactly the new favourites list is saved; flags stay consistent |
| `CoinData.CoinListHook.FilteredCoins` | src/hooks/useCoinData.ts:111-121 | the visible list is the ordered subsequence of the state's coins that match the state's term |
| `CoinDetails.DetailFailureMessage` | src/hooks/useCoinDetails.ts:73-75 | "Failed to load any data. Please retry." iff there is no cache; with a cache, the offline message iff a network error, else "Update failed. Using cached data." |
| `CoinDetails.MessageAgreesWithStatus` | src/hooks/useCoinDetails.ts:73-79 | the detail message mentions cached or last known data exactly when the status is the cache-backed `success` |
| `CoinDetails.JoinBoth` | src/hooks/useCoinDetails.ts:50-54 | the join succeeds iff both requests succeed and then carries both values; otherwise it fails with the error of the request that rejected (the first to reject when both do) |
| `CoinDetails.CoinDetailsHook.constructor` | src/hooks/useCoinDetails.ts:20-29 | the initial state is `idle`, no detail, an empty chart and no error; the time frame is 30 days |
| `CoinDetails.CoinDetailsHook.SetTimeFrame` | src/hooks/useCoinDetails.ts:29 | only the time frame changes |
| `CoinDetails.CoinDetailsHook.BeginFetch` | src/hooks/useCoinDetails.ts:37-46 | `loading` with no error; the cached detail replaces `details` when present; the chart is untouched |
| `CoinDetails.CoinDetailsHook.ApplyFetchSuccess` | src/hooks/useCoinDetails.ts:57-67 | the fresh detail (not the chart) is saved under the coin id; the state becomes `success` with fresh detail, fresh chart and no error |
| `CoinDetails.CoinDetailsHook.ApplyFetchFailure` | src/hooks/useCoinDetails.ts:69-82 | only the status and the message change; detail and chart keep their prior values |
| `CoinDetails.CoinDetailsHook.FetchDetails` | src/hooks/useCoinDetails.ts:31-84 | an empty id changes nothing and issues nothing. Otherwise it publishes `loading` with no error, the cached detail if there is one (else the previous detail) and the previous chart; it keeps every earlier published state, requests the detail and the chart for the current time frame, and then publishes the final state. If both succeed it saves and shows both. If either fails, nothing is saved, the cached detail (if any) stays shown, the chart is unchanged, and the status and message follow the failure rules |
| `Theme.ModeName` | src/contexts/ThemeContext.tsx:48-49 | the stored string is "dark" exactly for the dark mode and "light" exactly for the light mode |
| `Theme.ParseStoredMode` | src/contexts/ThemeContext.tsx:28-30 | a stored value is adopted iff it is exactly 'light' or 'dark', and then as that mode |
| `Theme.StoredModeRoundTrip` | src/contexts/ThemeContext.tsx:28-49 | a mode persisted by the toggle is read back as the same mode |
| `Theme.ThemeFor` | src/contexts/ThemeContext.tsx:41-43 | the theme is the dark colours iff the mode is dark, the light colours iff light |
| `Theme.Toggled` | src/contexts/ThemeContext.tsx:48 | the toggled mode differs from the current one |
| `Theme.ToggledInvolution` | src/contexts/ThemeContext.tsx:48 | toggling twice gives back the mode |
| `Theme.ThemeProvider.constructor` | src/contexts/ThemeContext.tsx:18-19 | the provider starts in dark mode, not ready, with nothing written |
| `Theme.ThemeProvider.LoadTheme` | src/contexts/ThemeContext.tsx:25-36 | ready afterwards in every case; a valid stored value becomes the mode; any other value, or a failed read, leaves the mode unchanged |
| `Theme.ThemeProvider.ToggleTheme` | src/contexts/ThemeContext.tsx:46-54 | the mode flips, readiness is unchanged, and exactly the new mode is persisted |
| `Theme.ThemeProvider.Render` | src/contexts/ThemeContext.tsx:57-67 | nothing is rendered iff not ready; when ready, the context value carries the theme for the mode, the mode and `isReady` |
| `Theme.ToggleTwiceRestores` | src/contexts/ThemeContext.tsx:46-54 | two toggles restore the mode and readiness, persisting the flipped and then the original mode |

## Left out

- The HTTP layer is not modelled: the client, endpoints, query parameters, the API-key header, the 10-second timeout and the configuration checks. A request's result is a parameter.
- The device store and JSON (de)serialisation are not modelled. Reads are parameters and are assumed total, as the store's wrappers promise. Writes are entries in a ghost log. They are fire-and-forget: neither the store's contents nor a failed write is modelled.
- `getLastCoinList`, `saveCoinList`, `getLastCoinDetail` and `saveCoinDetail` are imported from a file that does not define them, so their behaviour is not part of this model. The cached list is taken to be market entries, which is what `saveCoinList` is given.
- The hooks do not check that an error has a `message`. An error without one would make the catch block itself throw and leave the state at `loading`. The model gives every error a message.
- Asynchronous interleaving is not modelled. This covers overlapping fetch cycles, a toggle that runs while a fetch is pending, `Promise.all` scheduling beyond which rejection came first, and React re-running effects when `coinId` or `timeFrame` changes. Each cycle runs to completion.
- Dead code: the list hook's initial message 'Could not fetch current data.' is always overwritten, so it has no counterpart in the model.
- `Text.Lower` models `toLowerCase` on ASCII letters only. Unicode case mapping is out of scope.
- Numeric market fields and the time frame are reals. JavaScript's floating point is not modelled; these values are never computed on here.
- Rendering is not modelled: the screens, tiles, price formatting, holding value and chart widgets. The two colour themes are constants.
- `useTheme` throwing when used outside a provider is not modelled.
- React may call an updater function more than once. This would repeat the toggle's writes, and it is not modelled.
