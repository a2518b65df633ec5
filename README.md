# commute-check: the UI-to-background commute relay, in Dafny

commute-check is a browser extension. Its side panel asks how long the commute
from an origin to the configured work address takes. The side panel may not
call the mapping service itself. Instead it sends a `"getCommuteDetails"`
message to the extension's background service worker. The worker queries the
distance-matrix endpoint, classifies the reply and answers once. The side
panel settles a promise from whichever comes first: that answer or a
10-second timer. A ping probe runs the same race with a 2-second timer and
resolves to a boolean, unless `sendMessage` throws, which rejects it. Three settings stores
hold the API key, the work address and the active tab; the first two are persisted in local
storage.

The model has one module per source file, plus three support modules:

- `Types` (types.dfy): `TravelMode`, its string values, and the `CommuteResult` record.
- `Text` (text.dfy): the JavaScript string behaviour the code relies on. `replace` with a
  string pattern cuts out only the first occurrence. `toString` renders an integer in decimal.
- `Protocol` (protocol.dfy): the request, the message, the reply object and what the reply
  callback observes (the response and `lastError`).
- `Background` (background.dfy): the query parameters, the reply classification of
  `fetchCommuteDetails`, `cleanseTime`, and the `onMessage` listener as a class that records
  its `sendResponse` calls.
- `CommuteService` (commute_service.dfy): the configuration guards and the request payload.
  The reply mapping of both callbacks is also here. So is the settle-once promise:
  - `Run` is a left fold of events, and the proved lemmas about it;
  - `PendingCall` is the imperative class whose `Valid()` ties its fields to `Run`.
  The two entry points are methods that record the timers they start and the messages they send
  in an `Effects` log.
- `Settings` (settings.dfy): the three stores and the storage map, as a class. `Initialized`
  specifies the load.
- `Relay` (relay.dfy): both sides together.

Three behaviours of the code are easy to misread:

- `cleanseTime` removes the first `"0 mins"` anywhere, then the first `"0 hours"` anywhere.
  It does not remove only trailing ones. So `"10 mins"` becomes `"1"` and `"1 hour 30 mins"`
  becomes `"1 hour 3"` (`CleanseTimeInsideNumber`, `CleanseTimeThirtyMinutes`).
- A successful result may carry an empty duration or distance. The side panel substitutes `""`
  for missing fields. Also, `cleanseTime("0 mins")` is `""` (`SuccessMayCarryEmptyDuration`).
- The background listener answers only `"getCommuteDetails"`. It never answers `"ping"`, so
  the probe reports false against it (`Listener.OnMessage`, `UnansweredPingFails`).

Time, the network and the message channel are inputs:

- The departure instant (13:00 today, in milliseconds) is a parameter.
- The distance-matrix endpoint is a function from the query to what `fetch` gives: either the
  rejection's error message, or an HTTP response record whose `json()` either throws or yields a body.
- A `sendResponse` call is an appended `Reply`.
- A reply's arrival, a timer's firing and a throwing `sendMessage` are events delivered to
  `PendingCall`. Whether `sendMessage` throws, and with which message, is a parameter of the
  two entry points.
- Storage exceptions are parameters (`ReadFault`, `setItemThrows`).

## Model

| member | source | states |
|---|---|---|
| Types.Value | src/lib/types/index.ts:8-13 | each travel mode's string value is non-empty and all upper-case letters |
| Types.ValueInjective | src/lib/types/index.ts:9-12 | distinct members have distinct string values |
| Types.ModeLowerInjective | src/background.ts:84 | lower-casing the mode for the `mode` parameter still tells all four modes apart |
| Types.Lower | src/background.ts:84 | `toLowerCase()` keeps the length, maps each character on its own, leaves no upper-case letter behind, and applying it twice gives the same as once (`LowerIdempotent`) |
| Types.LowerIdempotent | src/background.ts:84 | lower-casing an already lower-cased string changes nothing |
| Text.IndexOf | src/background.ts:124 | the search finds a match exactly when the pattern occurs, and then finds the leftmost occurrence |
| Text.RemoveFirst | src/background.ts:124 | `replace(pat, "")` leaves a string without `pat` unchanged; otherwise it cuts out the first occurrence and the result is `|pat|` shorter |
| Text.DecimalRoundTrip | src/background.ts:83 | the decimal text of the departure time parses back to the same integer |
| Text.DecimalString | src/background.ts:83 | `toString` of an integer is non-empty, starts with '-' exactly for negatives, and is otherwise digits only |
| Background.QueryParams | src/background.ts:80-86 | the query has exactly five parameters with distinct names, and the mode value is all lower-case letters |
| Background.QueryParamsFaithful | src/background.ts:80-86 | the query carries origin, destination and key verbatim, the lower-cased mode, and the decimal departure time |
| Background.QueryParamsInjective | src/background.ts:80-86 | different requests produce different queries |
| Background.CleanseTime | src/background.ts:123-125 | the cleaned duration is never longer than the input |
| Background.CleanseTimeIdentity | src/background.ts:124 | a duration containing neither "0 mins" nor "0 hours" is returned unchanged |
| Background.CleanseTimeLength | src/background.ts:124 | the output is shorter by exactly 6 if "0 mins" was found, plus exactly 7 if "0 hours" was then found |
| Background.CleanseTimeZeroMinutes | src/background.ts:122-124 | "2 hours 0 mins" becomes "2 hours ", with the space kept |
| Background.CleanseTimeInsideNumber | src/background.ts:124 | "10 mins" becomes "1": the match may sit inside a number |
| Background.CleanseTimeThirtyMinutes | src/background.ts:124 | "1 hour 30 mins" becomes "1 hour 3" |
| Background.CleanseTimeZeroHours | src/background.ts:122-124 | "2 days 0 hours" becomes "2 days " |
| Background.FetchCommuteDetails | src/background.ts:67-120 | checks run in order. A rejected `fetch` fails with its own error message. HTTP not ok gives "Network error: status statusText". A throwing `json()` fails with its own error message. A body status other than OK gives "API Error: status". A first-element status other than OK fails. It succeeds exactly when every check passes, with the cleaned duration, the distance unchanged and the requested mode. An empty error message can only come from a rejected `fetch` or a throwing `json()` |
| Background.NetworkErrorIgnoresBody | src/background.ts:92-96 | a not-ok HTTP response fails the same way whatever its body holds |
| Background.OnlyFirstElementInspected | src/background.ts:104-108 | only `rows[0].elements[0]` matters: other rows and elements can change without changing the outcome |
| Background.RouteErrorMessage | src/background.ts:106-108 | a first element whose status is not OK fails with "Route Error: status" |
| Background.ReplyFor | src/background.ts:49-56 | a success becomes `{success: true, result}`, a failure `{success: false, error: message}` |
| Background.Listener.OnMessage | src/background.ts:28-62 | it returns true exactly for "getCommuteDetails" and then sends exactly one reply for the fetched outcome: `{success: true, result}`, or `{success: false, error}` with the message of whatever failed, a rejected `fetch` and a throwing `json()` included. Any other action, "ping" included, sends nothing |
| Settings.GetItem | src/lib/stores/settings.ts:15-20 | `getItem` gives a value exactly for a stored item, and then the stored value; otherwise null |
| Settings.LoadIfSet | src/lib/stores/settings.ts:16-18 | a store changes only to a non-null, non-empty stored value, and always to such a value |
| Settings.Initialized | src/lib/stores/settings.ts:13-27 | the key is loaded, then the address. A throwing read stops the load and keeps what was already set. `activeTab` is untouched |
| Settings.InitializeIdempotent | src/lib/stores/settings.ts:13-27 | loading twice from the same storage gives the same stores as loading once |
| Settings.SaveThenLoad | src/lib/stores/settings.ts:13-47 | non-empty values saved under "googleApiKey" and "workAddress" are what a later load restores |
| Settings.SettingsStore.constructor | src/lib/stores/settings.ts:4-10 | the stores start as "", "" and "Check Commute" |
| Settings.SettingsStore.InitializeSettings | src/lib/stores/settings.ts:13-27 | the new stores are `Initialized` of the old ones, and the storage is unchanged |
| Settings.SettingsStore.SaveGoogleApiKey | src/lib/stores/settings.ts:30-37 | on success the storage gets `googleApiKey = key` and so does the store, with nothing else changed. If `setItem` throws, nothing changes |
| Settings.SettingsStore.SaveWorkAddress | src/lib/stores/settings.ts:40-47 | the same for `workAddress`; the key store and `activeTab` are untouched |
| CommuteService.ConfigError | src/lib/services/commuteService.ts:18-36 | an empty key gives "API Key not set", even when the address is also empty. Otherwise an empty address gives "Work address not set". Both results have empty duration and distance, success false and the caller's mode. With both settings present nothing is returned here |
| CommuteService.BuildRequest | src/lib/services/commuteService.ts:42-72 | the payload carries origin, destination, mode and key unchanged, and departureTime is floor(ms / 1000) |
| CommuteService.MapCommuteReply | src/lib/services/commuteService.ts:74-101 | `lastError` comes first and rejects with its message or "Communication error with background service". A successful reply resolves with duration and distance (or "" when no result came) and the caller's mode. Any other reply rejects with its error text or "Unknown error fetching commute details" |
| CommuteService.CommuteMessage | src/lib/services/commuteService.ts:63-73 | the lookup's message has the action "getCommuteDetails" and carries the built request as its data |
| CommuteService.PingMessage | src/lib/services/commuteService.ts:124 | the probe's message has the action "ping", carries no data, and is not a "getCommuteDetails" message |
| CommuteService.PingVerdict | src/lib/services/commuteService.ts:124-143 | the probe answers true exactly when there is no `lastError`, the reply succeeded and its message is "pong". `Relay.BackgroundNeverPongs` is its partner on the background side |
| CommuteService.Settle | src/lib/services/commuteService.ts:57-101 | a throwing `sendMessage` rejects either promise with its message. Otherwise a ping settles to a boolean. A lookup never does. A timer rejects a lookup with "API request timed out" and resolves a ping to false |
| CommuteService.Step | src/lib/services/commuteService.ts:57-101 | after any event the promise is settled, and a promise that was already settled keeps its settlement, while an unsettled one settles to what the event gives (`Settle`) |
| CommuteService.Run | src/lib/services/commuteService.ts:57-101 | the promise is settled exactly when at least one event has reached it |
| CommuteService.RunIsFirstEvent | src/lib/services/commuteService.ts:57-101 | the promise's settlement is determined by the first event alone |
| CommuteService.SettledStaysSettled | src/lib/services/commuteService.ts:75 | once settled, later replies and timer events have no effect |
| CommuteService.TimeoutFirstRejects | src/lib/services/commuteService.ts:59-61 | a timer that fires before any reply rejects with "API request timed out", whatever comes later |
| CommuteService.PingRejectsOnlyOnSendFailure | src/lib/services/commuteService.ts:114-149 | the probe settles to a boolean exactly when its first event is not a throwing `sendMessage`. A throw inside the executor rejects the probe with the thrown message; the surrounding `catch` never sees it |
| CommuteService.PendingCall.constructor | src/lib/services/commuteService.ts:57-61 | a new pending call has its timer armed and is not settled |
| CommuteService.PendingCall.OnSendFailure | src/lib/services/commuteService.ts:57-63 | a `sendMessage` that throws inside the promise executor rejects the promise with the thrown message unless it is already settled. The timer started before it stays armed |
| CommuteService.PendingCall.OnReply | src/lib/services/commuteService.ts:74-101 | a reply clears the timer and settles the promise unless it already was settled |
| CommuteService.PendingCall.OnTimeout | src/lib/services/commuteService.ts:59-61 | a timer that is still armed settles the promise with the timeout outcome. A cleared timer changes nothing |
| CommuteService.GetCommuteDetails | src/lib/services/commuteService.ts:11-108 | a configuration failure returns at once, with no timer started and no message sent. Otherwise it starts a 10000 ms timer and sends the "getCommuteDetails" message with the built payload, returning an unsettled pending call. If `sendMessage` throws, nothing is sent and the returned call is already rejected with the thrown message, its timer still armed |
| CommuteService.TestBackgroundConnection | src/lib/services/commuteService.ts:114-149 | it starts a 2000 ms timer, then sends `{action: "ping"}` and returns an unsettled probe. If `sendMessage` throws, the probe is already rejected with the thrown message rather than resolved to false |
| Relay.LookupRoundTrip | src/lib/services/commuteService.ts:11-101 | with both settings present, the message `getCommuteDetails` sends is the one the background's listener answers, and that answer settles the caller's pending call to the background's own outcome for the request built from the settings |
| Relay.RelayPreservesOutcome | src/lib/services/commuteService.ts:88-100 | when the listener's reply arrives first, the lookup resolves to exactly the background's result, or rejects with exactly its error message. An empty message becomes "Unknown error fetching commute details" |
| Relay.SuccessMayCarryEmptyDuration | src/background.ts:110-115 | a successful lookup whose duration is "0 mins" yields an empty duration |
| Relay.BackgroundNeverPongs | src/background.ts:49-56 | no reply the background's listener sends, success or failure, with or without `lastError`, makes the probe answer true |
| Relay.UnansweredPingFails | src/lib/services/commuteService.ts:118-142 | with the ping unanswered, the probe's first event is its timer or a reply without a response, and it resolves false |
| Relay.PingIsIgnored | src/background.ts:36-61 | the listener given the probe's `{action: "ping"}` returns false and sends no reply |

## Left out

- Background.FetchCommuteDetails: requires a first row and a first element whenever the fetch resolves, the HTTP status is OK, `json()` succeeds and the body status is OK. With no rows or no elements the code fails with a runtime type error whose text is the engine's; that failure is not modelled.
- Background.Listener.OnMessage: requires the same shape of the endpoint's response, and a request attached to every "getCommuteDetails" message, which the side panel always sends.
- Background.Element: the duration text and both the `duration` and `distance` objects are always present. A missing `duration` or `distance` object, or a missing `duration.text` (`cleanseTime` then calls `replace` on `undefined`), is the same kind of runtime type error. A missing `distance.text` does not throw: the reply carries no distance and the side panel shows `""`, which is the outcome of `distanceText == ""` here.
- The real `fetch`, `URL` and `URLSearchParams` (percent-encoding) are network and library calls. The endpoint is a function from the parameter list to what `fetch` gives: a response or a rejection.
- `chrome.runtime.sendMessage`, `onMessage`, `onInstalled` and `sidePanel` are browser transport. They are replaced by the effect log, the listener's reply list and the events given to `PendingCall`.
- `setTimeout` and `clearTimeout` timing is not modelled: timers are events. `Date.setHours(13, 0, 0, 0)` is left out because of time-zone rules; its millisecond result is a parameter.
- Overlapping in-flight requests are not modelled. Each call has its own `PendingCall`, and their interleaving is a question of concurrency only.
- `console` logging is not modelled.
- Svelte `writable` stores and `localStorage` become plain fields and a map.
- The `try`/`catch` blocks around the promises in `getCommuteDetails` and `testBackgroundConnection` are not modelled because they never run. The only modelled throw is `sendMessage`. It happens inside the promise executor, so it rejects the promise (`SendFailed`) and never reaches the outer `catch`.
- A throwing `setTimeout` is not modelled: the timer is always started.
- Text.DecimalString: the decimal rendering of `Number.prototype.toString` only. The exponent form for magnitudes of 10^21 and above is not modelled.
- Types.Lower: ASCII lower-casing only. It is applied only to the enum values.
- The `MenuItem` interface, src/lib/createApp.ts and vite.config.ts are UI mounting and build tooling, not part of this model.
