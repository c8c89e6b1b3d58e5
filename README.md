# Leaderboard front end: real-time synchronisation layer, in Dafny

This project models the client-side core of a browser leaderboard dashboard. That core is the code that keeps the displayed ranking live and correct:

- **Push-channel manager** (`useLeaderboardSSE`, `LeaderboardSSE.dfy`). It keeps one server-sent-events stream, a single reconnect timer and the callbacks it makes to its caller. Each pushed snapshot is written whole into the shared query cache.
- **Query cache** (`QueryCache.dfy`). This is the shared slot `['leaderboard']` and the set of invalidated keys. It covers only the two cache operations the core calls.
- **Leaderboard view** (`Leaderboard.tsx`, `Leaderboard.dfy`). Its `select` step keeps a rank baseline for the rank-change badges. It also holds the `(isConnected, error)` state its callbacks maintain, and decides between spinner, full-page error and content (podium and cards).
- **Leaderboard card** (`LeaderboardCard.tsx`, `LeaderboardCard.dfy`). Pure rules decide the up/down badge and its number, the badge variant and icon, the progress bar and the plural suffixes.
- **REST client** (`api.ts`, `Api.dfy`). It keeps the session token in step with `localStorage`, builds headers and URLs, and turns a response into a value or a thrown error.
- `Types.dfy` holds the records of `src/types/index.ts`. `Text.dfy` is JavaScript's first-occurrence `String.prototype.replace`, which the stream URL uses.

Code whose state changes step by step is a class with the source's own fields:
- the hook's `eventSourceRef` and `reconnectTimeoutRef`;
- the view's `previousRanks`, `previousLeaderboardRef`, `isConnected` and `error`;
- the client's `token` and the storage map.

Each class is specified by values. `LeaderboardStream`'s methods are each proved to perform one step of the pure transition function `LeaderboardSSE.Step` on `ChannelState`. `LeaderboardView.Select` is proved to perform `SelectStep`. Properties over event sequences are then lemmas about `Run` and `SelectAll`.

Event-stream handles are identified by creation order (`handles[i]` is the `readyState` of the i-th `EventSource`). The transport follows the EventSource interface of the WHATWG HTML Living Standard, section 9.2 (Server-sent events), in three ways:
- a closed source reports nothing more;
- `open` fires only on a connecting source;
- messages arrive only on an open source.

The host's timer queue is a set of pending timer ids next to the ref.

### What the code does where one might expect otherwise

Modelled as written and stated as lemmas:

- **The baseline is latched.** `select` sets `previousRanks` only while it is still empty (`Leaderboard.tsx:45`). A fresh view's baseline is therefore the rank map of the first non-empty snapshot that was followed by another one. It is never recomputed per transition (`BaselineOfFreshView`, `BaselineNotRecomputed`). Rank-change badges compare against that first snapshot for the life of the view.
- **Only the HTTP ok flag decides a request's outcome.** An ok response whose envelope says `status: "error"` still returns its `data` (`OkResponseWithErrorStatusSucceeds`).
- **At most one live stream is not guaranteed.** `connect` while the current stream is still connecting opens a second one. The first is left live and stops being referenced (`ConnectWhileConnectingLeavesFirstLive`). An error on that stale stream then clears the ref that holds the newer one, so the cleanup cannot close the newer stream (`StaleErrorOrphansNewerStream`). At most one reconnect timer does hold in every state (`AtMostOneTimer`).
- **Empty strings are falsy in JavaScript.**
  - `setToken("")` keeps `""` as the token but removes the storage key.
  - An empty envelope message falls back to "An error occurred".
  - An empty error text does not show the full-page error.

## Model

| member | source | states |
|---|---|---|
| `Text.IndexOf` | src/lib/useLeaderboardSSE.ts:5 | the first index at or after `from` where the pattern occurs; no earlier occurrence; None only when there is none |
| `Text.ReplaceFirst` | src/lib/useLeaderboardSSE.ts:5 | `replace` with a string pattern: unchanged when the pattern is absent, otherwise the first occurrence is spliced out for the replacement |
| `Text.DropFirst` | src/lib/useLeaderboardSSE.ts:5 | removing the first occurrence of the pattern from `h + p + t` gives `h + t` when `p` does not occur earlier |
| `LeaderboardSSE.SseBase` | src/lib/useLeaderboardSSE.ts:5 | "" when no URL is configured; otherwise the configured URL unchanged when it has no "/api", else with its first "/api" cut out |
| `LeaderboardSSE.StreamUrl` | src/lib/useLeaderboardSSE.ts:33 | every stream URL ends with "/api/sse/leaderboard" |
| `LeaderboardSSE.StreamUrlUnset` | src/lib/useLeaderboardSSE.ts:5 | with no configured URL the base is empty and the stream URL is the bare path |
| `LeaderboardSSE.StreamUrlDropsFirstApi` | src/lib/useLeaderboardSSE.ts:5 | the configured URL loses its first "/api" (and only that one) before the path is appended |
| `LeaderboardSSE.StreamUrlWithoutApi` | src/lib/useLeaderboardSSE.ts:5 | a configured URL without "/api" is used unchanged |
| `LeaderboardSSE.Initial` | src/lib/useLeaderboardSSE.ts:20-21 | both refs start null: no handle, no timer, no callbacks, invariant holds |
| `LeaderboardSSE.ConnectStep` | src/lib/useLeaderboardSSE.ts:23-35 | no change when disabled or when the current handle is OPEN; otherwise exactly one new CONNECTING handle is appended and becomes current, older handles untouched (a CONNECTING one is not closed); invariant kept |
| `LeaderboardSSE.OpenedStep` | src/lib/useLeaderboardSSE.ts:37-46 | on a connecting handle: it becomes OPEN, `connected(true)` is appended once, no timer remains pending, ref and cache unchanged; on any other handle nothing happens |
| `LeaderboardSSE.MessageStep` | src/lib/useLeaderboardSSE.ts:48-62 | a parsed snapshot on an open handle replaces the leaderboard slot with exactly that snapshot, keeps every other slot, adds "teams" to the invalidated keys; a parse failure changes nothing; handles, timers and callbacks never change |
| `LeaderboardSSE.ErroredStep` | src/lib/useLeaderboardSSE.ts:64-80 | on a live handle: `connected(false)` then the reconnecting message, the handle CLOSED, the ref null, exactly one timer pending (the earlier one if there was one); closed handles ignored |
| `LeaderboardSSE.TimerFiredStep` | src/lib/useLeaderboardSSE.ts:75-78 | a pending timer clears the ref and then connects; a cancelled timer does nothing |
| `LeaderboardSSE.TeardownStep` | src/lib/useLeaderboardSSE.ts:86-98 | both refs null, no timer pending, the current handle CLOSED and every other handle, the cache and the callbacks unchanged |
| `LeaderboardSSE.Step` | src/lib/useLeaderboardSSE.ts:23-98 | every event keeps the hook's invariant (ref holds a live handle or null; pending timers are exactly the ref's) |
| `LeaderboardSSE.Run` | src/lib/useLeaderboardSSE.ts:23-98 | the invariant holds after any sequence of events |
| `LeaderboardSSE.AtMostOneTimer` | src/lib/useLeaderboardSSE.ts:74-79 | after any event sequence at most one reconnect timer is pending, and it is the one the ref holds |
| `LeaderboardSSE.ClosedStaysClosed` | src/lib/useLeaderboardSSE.ts:70-71 | a closed handle stays closed whatever happens later |
| `LeaderboardSSE.LogOnlyGrows` | src/lib/useLeaderboardSSE.ts:39 | callbacks already made are a prefix of the callbacks after any later events |
| `LeaderboardSSE.DisabledNeverConnects` | src/lib/useLeaderboardSSE.ts:24 | a disabled hook never creates a handle |
| `LeaderboardSSE.CacheOnlyWrittenByMessages` | src/lib/useLeaderboardSSE.ts:55-58 | events that deliver no parsed snapshot leave the cache and the invalidated keys unchanged |
| `LeaderboardSSE.ConnectIdempotentWhenOpen` | src/lib/useLeaderboardSSE.ts:26-29 | any number of `connect` calls while the current handle is open change nothing |
| `LeaderboardSSE.ConnectWhileConnectingLeavesFirstLive` | src/lib/useLeaderboardSSE.ts:27-35 | two `connect` calls from no handle create two connecting handles; only the second is referenced |
| `LeaderboardSSE.StaleErrorOrphansNewerStream` | src/lib/useLeaderboardSSE.ts:70-71 | an error on the overwritten handle nulls the ref to the newer one, and the cleanup then leaves the newer one connecting |
| `LeaderboardSSE.OpenReportsOnce` | src/lib/useLeaderboardSSE.ts:37-46 | `onopen` appends exactly one `connected(true)` and leaves no timer pending |
| `LeaderboardSSE.MalformedMessageIgnored` | src/lib/useLeaderboardSSE.ts:59-61 | a payload that fails to parse leaves the whole state unchanged (cache, handles, timers, callbacks) |
| `LeaderboardSSE.LastSnapshotWins` | src/lib/useLeaderboardSSE.ts:55 | of two snapshots in a row the slot holds exactly the second |
| `LeaderboardSSE.ReconnectCadence` | src/lib/useLeaderboardSSE.ts:74-79 | after an error exactly one timer is pending; when it fires a fresh connecting handle becomes current and none is pending |
| `LeaderboardSSE.ErrorsDoNotStackTimers` | src/lib/useLeaderboardSSE.ts:74 | a second error while a reconnect is pending keeps the same single timer |
| `LeaderboardSSE.TeardownIdempotent` | src/lib/useLeaderboardSSE.ts:86-98 | cleaning up twice is the same as once |
| `LeaderboardSSE.TeardownBeforeConnect` | src/lib/useLeaderboardSSE.ts:89-97 | cleanup before any connect changes nothing |
| `LeaderboardSSE.ClosedStreamInert` | src/lib/useLeaderboardSSE.ts:70 | open, message and error events of a closed handle change nothing |
| `LeaderboardSSE.LeaderboardStream.constructor` | src/lib/useLeaderboardSSE.ts:17-21 | both refs null, no handles or callbacks, invariant established |
| `LeaderboardSSE.LeaderboardStream.Connect` | src/lib/useLeaderboardSSE.ts:23-35 | the fields after `connect` are exactly `ConnectStep` of the fields before |
| `LeaderboardSSE.LeaderboardStream.OnOpen` | src/lib/useLeaderboardSSE.ts:37-46 | the fields after `onopen` are exactly `OpenedStep` of the fields before |
| `LeaderboardSSE.LeaderboardStream.OnMessage` | src/lib/useLeaderboardSSE.ts:48-62 | the fields and the query cache afterwards are exactly `MessageStep` of those before |
| `LeaderboardSSE.LeaderboardStream.OnError` | src/lib/useLeaderboardSSE.ts:64-80 | the fields after `onerror` are exactly `ErroredStep` of the fields before |
| `LeaderboardSSE.LeaderboardStream.OnTimer` | src/lib/useLeaderboardSSE.ts:75-78 | the fields after the timer callback are exactly `TimerFiredStep` of the fields before |
| `LeaderboardSSE.LeaderboardStream.Cleanup` | src/lib/useLeaderboardSSE.ts:86-98 | the fields after the cleanup are exactly `TeardownStep` of the fields before |
| `QueryCache.QueryClient.SetQueryData` | src/lib/useLeaderboardSSE.ts:55 | the slot holds exactly the new value; other slots and invalidations unchanged |
| `QueryCache.QueryClient.InvalidateQueries` | src/lib/useLeaderboardSSE.ts:58 | the key is added to the invalidated set; data unchanged |
| `Leaderboard.RanksOf` | src/features/leaderboard/Leaderboard.tsx:41-44 | every id of the snapshot is a key, and every key maps to the rank of some row with that id |
| `Leaderboard.RanksOfLastRowWins` | src/features/leaderboard/Leaderboard.tsx:42-44 | on repeated ids the rank recorded is that of the last row with the id |
| `Leaderboard.RanksOfSize` | src/features/leaderboard/Leaderboard.tsx:45 | the rank map has positive size exactly when the snapshot is non-empty |
| `Leaderboard.CollectRanks` | src/features/leaderboard/Leaderboard.tsx:41-44 | the `forEach` loop builds exactly `RanksOf` of the previous snapshot |
| `Leaderboard.SelectStep` | src/features/leaderboard/Leaderboard.tsx:39-64 | returns the data unchanged and remembers it; a non-empty baseline is kept; an empty one becomes the rank map of the previously seen snapshot; announcement iff data non-empty and the old baseline non-empty |
| `Leaderboard.BaselineLatched` | src/features/leaderboard/Leaderboard.tsx:45-47 | once non-empty the baseline never changes over any later snapshots |
| `Leaderboard.PreviousIsLastSeen` | src/features/leaderboard/Leaderboard.tsx:50 | after any non-empty sequence of selects the remembered snapshot is the last one |
| `Leaderboard.BaselineFromEmpty` | src/features/leaderboard/Leaderboard.tsx:41-50 | from an empty baseline, the baseline after a sequence equals the reference `LatchedBaseline` of the last-seen snapshot followed by the sequence |
| `Leaderboard.BaselineOfFreshView` | src/features/leaderboard/Leaderboard.tsx:15-16 | a freshly mounted view's baseline is the rank map of the first non-empty snapshot that was followed by another, or empty |
| `Leaderboard.FirstSnapshotNoBaseline` | src/features/leaderboard/Leaderboard.tsx:41-47 | the first snapshot a fresh view sees yields an empty baseline whatever its content |
| `Leaderboard.BaselineNotRecomputed` | src/features/leaderboard/Leaderboard.tsx:45-47 | after three snapshots the baseline is still the first snapshot's ranks |
| `Leaderboard.ConnectionChanged` | src/features/leaderboard/Leaderboard.tsx:20-25 | `isConnected` takes the reported value; a connection clears the error, a disconnection keeps it |
| `Leaderboard.ErrorReported` | src/features/leaderboard/Leaderboard.tsx:26-28 | the error becomes the given text; connection flag unchanged |
| `Leaderboard.LostStreamShowsMessage` | src/features/leaderboard/Leaderboard.tsx:19-29 | the callbacks of a stream error leave the view disconnected showing "Connection lost. Reconnecting..." |
| `Leaderboard.OpenedStreamClearsError` | src/features/leaderboard/Leaderboard.tsx:20-25 | the callback of an opened stream leaves the view connected with no error |
| `Leaderboard.PodiumOf` | src/features/leaderboard/Leaderboard.tsx:143-194 | a podium exists iff there are at least 3 rows, showing rows 1, 0, 2 in that order |
| `Leaderboard.CardsOf` | src/features/leaderboard/Leaderboard.tsx:201-206 | one card per row in order, each handed the baseline rank of its own id: no badge when the id has none, otherwise the badge `RankIndicator` gives for that rank (so a badge iff the recorded rank differs), and the row's achievement count |
| `Leaderboard.ScreenFor` | src/features/leaderboard/Leaderboard.tsx:73-92 | spinner iff loading with no rows; full-page error iff not loading, error truthy and no rows, carrying the error text; with rows the content is shown with all cards and the podium rule; the empty notice iff no rows |
| `Leaderboard.CachedRowsStayVisible` | src/features/leaderboard/Leaderboard.tsx:73-92 | with any cached rows, neither loading nor an error hides them |
| `Leaderboard.SwapExample` | src/features/leaderboard/Leaderboard.tsx:201-206 | snapshots A1 B2 C3 then B1 A2 C3: B shows up 1, A down 1, C nothing |
| `Leaderboard.NewEntrantExample` | src/features/leaderboard/Leaderboard.tsx:201-206 | snapshots A1 then D1 A2: D shows nothing, A down 1 |
| `Leaderboard.LeaderboardView.constructor` | src/features/leaderboard/Leaderboard.tsx:13-16 | disconnected, no error, empty baseline and empty remembered snapshot |
| `Leaderboard.LeaderboardView.OnConnectionChange` | src/features/leaderboard/Leaderboard.tsx:20-25 | the link state becomes `ConnectionChanged` of the old one; baseline unchanged |
| `Leaderboard.LeaderboardView.OnError` | src/features/leaderboard/Leaderboard.tsx:26-28 | the link state becomes `ErrorReported` of the old one; baseline unchanged |
| `Leaderboard.LeaderboardView.HandleRefresh` | src/features/leaderboard/Leaderboard.tsx:68-71 | the error is cleared; a successful refetch writes the leaderboard slot, a failed one leaves the cache |
| `Leaderboard.LeaderboardView.Select` | src/features/leaderboard/Leaderboard.tsx:39-64 | returns the data unchanged; baseline and remembered snapshot become `SelectStep`'s; one announcement exactly when it says so |
| `LeaderboardCard.RankChanged` | src/features/leaderboard/LeaderboardCard.tsx:16 | false without a baseline; with one, true iff the team moved strictly up or strictly down |
| `LeaderboardCard.MovedUp` | src/features/leaderboard/LeaderboardCard.tsx:17 | implies `rankChanged`; among changed ranks, true iff the rank number went down; false when the rank is unchanged |
| `LeaderboardCard.RankIndicator` | src/features/leaderboard/LeaderboardCard.tsx:67-106 | no badge iff not `rankChanged`; otherwise up iff `movedUp`, with a positive number equal to the size of `previousRank - rank` in the direction of its sign |
| `LeaderboardCard.RankVariant` | src/features/leaderboard/LeaderboardCard.tsx:19-30 | gold iff rank 1, silver iff 2, bronze iff 3, secondary otherwise |
| `LeaderboardCard.RankIcon` | src/features/leaderboard/LeaderboardCard.tsx:32-42 | trophy iff rank 1, medal iff 2 or 3, none otherwise |
| `LeaderboardCard.IconMatchesVariant` | src/features/leaderboard/LeaderboardCard.tsx:19-42 | an icon exactly when the variant is a podium colour; trophy exactly with gold |
| `LeaderboardCard.ShowsProgressBar` | src/features/leaderboard/LeaderboardCard.tsx:167 | the progress bar shows exactly for positive ranks that are not gold, so for positive ranks it is missing only on the leader's card |
| `LeaderboardCard.PluralSuffix` | src/features/leaderboard/LeaderboardCard.tsx:139 | "s" iff the count is above one, "" otherwise |
| `LeaderboardCard.BadgeCount` | src/features/leaderboard/LeaderboardCard.tsx:142-146 | no badge count iff achievements are missing or empty; otherwise their number, with "s" iff more than one |
| `LeaderboardCard.Card` | src/features/leaderboard/LeaderboardCard.tsx:15-17 | a card's badge appears iff `rankChanged` and is the `RankIndicator` of its baseline and current rank; variant, icon, member suffix, badge count and progress bar follow the rules above |
| `Types.Lookup` | src/lib/api.ts:9 | the stored value for the key, or null when absent (also the `Map.get` of the card's baseline rank) |
| `Api.StoreToken` | src/lib/api.ts:12-19 | a truthy token is stored under "token"; null or "" removes the key |
| `Api.TokenSurvivesReload` | src/lib/api.ts:8-19 | a client created later over the same storage starts with the token iff it was truthy, otherwise null |
| `Api.StoreTokenKeepsOtherKeys` | src/lib/api.ts:12-19 | storing the token never touches another key |
| `Api.ApiBaseUrl` | src/lib/api.ts:3 | the configured URL when truthy, otherwise "/api"; never empty |
| `Api.PathOf` | src/lib/api.ts:86-155 | every per-team call's path is "/teams/" + id + its fixed suffix |
| `Api.MethodOf` | src/lib/api.ts:53-155 | GET exactly for the calls that change nothing; PUT exactly for a team update; DELETE exactly for a team deletion; POST for the other writes |
| `Api.RequestUrl` | src/lib/api.ts:38 | the configured URL followed by the path, or "/api" followed by the path when none is configured; `getTeam(id)` goes to base + "/teams/" + id, and every per-team call has its id right after "/teams/" |
| `Api.TeamIdRecoverable` | src/lib/api.ts:90-92 | the team id sits right after the base and "/teams/" in a per-team URL |
| `Api.SameKindSameUrlSameTeam` | src/lib/api.ts:90-125 | two per-team calls of the same kind reach the same URL only for the same team id |
| `Api.ErrorMessage` | src/lib/api.ts:46 | the envelope message when truthy, otherwise "An error occurred"; never empty |
| `Api.Outcome` | src/lib/api.ts:45-49 | fails iff the response is not ok, with `ErrorMessage`; otherwise returns the envelope's `data` (possibly undefined) |
| `Api.OutcomeIgnoresStatus` | src/lib/api.ts:45-49 | changing the envelope `status` never changes the outcome |
| `Api.ErrorEnvelopeCarriesMessage` | src/lib/api.ts:45-47 | a failed response with a non-empty message fails with exactly that message |
| `Api.OkResponseWithErrorStatusSucceeds` | src/lib/api.ts:43-49 | an ok response whose envelope says "error" returns its data |
| `Api.ApiClient.constructor` | src/lib/api.ts:8-10 | the token starts as the stored "token" item, or null |
| `Api.ApiClient.SetToken` | src/lib/api.ts:12-19 | the token becomes the argument; storage becomes `StoreToken` of the old storage |
| `Api.ApiClient.GetToken` | src/lib/api.ts:21-23 | returns the current token |
| `Api.ApiClient.Headers` | src/lib/api.ts:29-36 | keys are the caller's plus Content-Type plus Authorization iff the token is truthy; Content-Type is the caller's or application/json; Authorization is "Bearer " + token when truthy; every other caller header kept |
| `Api.ApiClient.Request` | src/lib/api.ts:25-50 | URL is base + path with the call's method; headers are the caller's plus Content-Type plus Authorization iff the token is truthy; Authorization is "Bearer " + token when the token is truthy; Content-Type is the caller's or application/json; other caller headers kept; the outcome is `Outcome` of the response |
| `Api.ApiClient.Authenticate` | src/lib/api.ts:53-75 | a failure, or an ok response without payload, throws and leaves token and storage; otherwise the payload is returned and its token stored |
| `Api.ApiClient.Login` | src/lib/api.ts:53-63 | succeeds iff the response is ok with a payload; then the payload's token is the token and is stored; on failure nothing changes |
| `Api.ApiClient.Register` | src/lib/api.ts:65-75 | the same token effects as login |
| `Api.ApiClient.Logout` | src/lib/api.ts:81-83 | the token is null and the storage key is removed, every other key kept |

## Left out

- Network I/O (`fetch`, `response.json()`, `EventSource` itself): a response is a given `(ok, envelope)` value and a push message a given parse result. A body that is not JSON makes `response.json()` throw; that path is not modelled.
- JSON parsing and serialisation, including the request bodies of login, register and the team calls.
- What a pushed payload parses to: the model's parse result is always a snapshot (an array of teams) or nothing. A payload that parses to a non-array value is written into the cache slot unchecked as written (a `{}` reaches `setQueryData`), and `null` is dropped only because reading its `length` throws; neither case is modelled.
- Wall-clock time: the 3000 ms delay is the constant `ReconnectDelayMs`, and the timer-fires event stands in for its expiry.
- The event stream's own automatic reconnection: an errored stream is always closed by the hook, so the model never needs it.
- React rendering and React Query internals:
  - when and how often `select` runs (it is a step called with a snapshot);
  - the effect re-running when `connect` changes identity (that is a `Teardown` followed by a `Connect`);
  - query retries and query error state, which the view does not read;
  - `isLoading`, which is a parameter.
- Console logging, and the screen-reader announcement element with its one-second clear; the model counts announcements instead.
- Animation, CSS classes (including the rank ring colours) and markup. The rank badge text and the point formatting come from a utility file that is not part of this model.
- `HeadersInit` values given as a `Headers` object or an array; caller headers are a plain record.
- Ranks, scores and counts are whole numbers; JavaScript numbers may be fractional.
- The second, socket-based transport variant, which is not part of this model.
- src/components/ui/progress.tsx, src/features/teams/TeamDetail.tsx, src/components/ui/badge.tsx, src/components/ui/avatar.tsx, src/components/layout/Header.tsx, src/components/layout/Layout.tsx, src/App.tsx and the page files: presentation, routing and library configuration.
