# Brewery finder: search orchestration and the breweries slice

A Dafny model of the logic inside a small React app that shows breweries
near a point on a map. The point comes either from a postal code typed into
a search form (classified as UK or US, then geocoded) or from the map's own
viewport when the user pans or zooms. Either way the app dispatches a
`fetchBreweries` request, and a Redux slice records the outcome as one of
four statuses, `idle`, `loading`, `succeeded` and `failed`, next to the
brewery list and an optional error message.

Modules:

- `Wrappers` (wrappers.dfy): `Option`, for JavaScript's `null`/`undefined`,
  and `Result`, for a promise that resolves or rejects.
- `Strings` (strings.dfy): `String.prototype.split` on a one-character
  separator, with its inverse `Join` and the round-trip lemmas in both
  directions.
- `Breweries` (breweries.dfy): the slice of `src/features/brewery/index.js`.
  The class `Slice` holds the fields the reducers assign in place and has one
  method per lifecycle action. A ghost log `applied` records the actions in
  the order they arrived, and `Valid()` ties the fields to the pure fold
  `ReduceAll(INITIAL, applied)`. The lemmas about that fold state
  "last applied wins". The module also holds the query string the thunk
  sends.
- `App` (app.dfy): the orchestration of `src/App.js`. `ParsePostal`,
  `Lookup`, `Interpret` and `Search` are the `parsePostal`/`searchPostal`
  decision chain as pure functions. `Validate` is the form's rules and
  `DisplayPostal` the postal-code prefix. The class `Controller` holds the
  map's `center` and `zoom`, a reference to the store, and `effects`, the
  ordered record of every geocoding request, brewery fetch and error message
  the app emits. Its methods are proved against `Search`, `SearchRequests`
  and `FinishEffects`.

Foreign behaviour is passed in as parameters:

- The postcode libraries: `PostcodeLibrary` holds the UK grammar check, the
  UK normaliser and the US ZIP check as functions nothing is assumed about.
- The geocoder: `geocoder: GeoRequest -> Transport`.
- JavaScript's number-to-string conversion in the brewery URL:
  `show: real -> string`.

Brewery responses reach the store as calls to `Slice.OnFulfilled` or
`Slice.OnRejected`, in arrival order.

The reducers have no freshness check. A last-request-wins design would tag
each fetch with a sequence number and drop stale responses. Here every
response is applied in the order it arrives, and the model does the same.
`Breweries.StaleResponseWins` and `App.OverlappingMoves` show the
consequence: the older of two overlapping responses wins when it arrives last.
`parsePostal` has no length check. The 4..9 bound is a rule of the search
form, applied before `onFinish` runs.

## Model

| member | source | states |
|---|---|---|
| `Strings.Split` | src/App.js:177 | `split` on one character gives at least one field, and no field contains the separator |
| `Strings.JoinSplit` | src/App.js:177 | joining the fields of a split with the separator gives the original string back |
| `Strings.SplitJoin` | src/App.js:177 | splitting a join of separator-free fields gives those fields back |
| `Breweries.LoadingState.Label` | src/features/brewery/index.js:5-10 | each status's string names that status back: `idle`, `loading`, `succeeded`, `failed` |
| `Breweries.LabelsDistinct` | src/features/brewery/index.js:5-10 | the status strings `idle`, `loading`, `succeeded` and `failed` are pairwise different, so the string identifies the status |
| `Breweries.Query` | src/features/brewery/index.js:15 | whatever the numbers render to, the query opens with the `by_dist` parameter and ends with `&per_page=` and the number of results |
| `Breweries.Url` | src/features/brewery/index.js:15 | whatever the numbers render to, the text before the first `?` is the directory endpoint and the text after it is the query |
| `Breweries.QueryFields` | src/features/brewery/index.js:13-15 | the request URL is the directory endpoint and a query with exactly two parameters: `by_dist` with latitude then longitude, and `per_page` with the number of results |
| `Breweries.Reduce` | src/features/brewery/index.js:27-37 | each reducer sets the status of its action; only `fulfilled` writes the list (the payload) and only `rejected` writes the error (its message) |
| `Breweries.ReduceAll` | src/features/brewery/index.js:27-37 | applying actions in arrival order: an empty sequence leaves the state as it was, a non-empty one leaves it non-idle, and the list and the error are either the starting ones or taken from some `fulfilled` or `rejected` action |
| `Breweries.LatestBreweries` | src/features/brewery/index.js:30-33 | the list is the payload of the last `fulfilled` action in arrival order, or the earlier list when no action was `fulfilled` |
| `Breweries.LatestError` | src/features/brewery/index.js:34-37 | the error is the message of the last `rejected` action in arrival order, or the earlier error when no action was `rejected` |
| `Breweries.LastAppliedWins` | src/features/brewery/index.js:27-37 | after any arrival sequence: the list was set by the last `fulfilled` action, the error by the last `rejected` action, and the status by the last action of any kind; issue order plays no part |
| `Breweries.NeverIdleAgain` | src/features/brewery/index.js:21-37 | once any action has been applied, the status is never `idle` again |
| `Breweries.StatusReachable` | src/features/brewery/index.js:27-37 | from every state, each of `loading`, `succeeded` and `failed` is one action away, so no status is terminal |
| `Breweries.StaleResponseWins` | src/features/brewery/index.js:30-33 | two fetches pending, newer response first and older second: the older payload is left, with status `succeeded` and the error untouched |
| `Breweries.Slice.constructor` | src/features/brewery/index.js:21-24 | the initial state is an empty list, status `idle` and no error |
| `Breweries.Slice.OnPending` | src/features/brewery/index.js:27-29 | from any status: `loading`; list and error unchanged |
| `Breweries.Slice.OnFulfilled` | src/features/brewery/index.js:30-33 | `succeeded`; the list is the payload in its order, an empty payload included; the error unchanged |
| `Breweries.Slice.OnRejected` | src/features/brewery/index.js:34-37 | `failed`; the error is the action's message; the old list stays |
| `App.ParsePostal` | src/App.js:39-49 | UK exactly when the UK check passes, with the normalised code; US exactly when the UK check fails and the US check passes, with the unchanged input; otherwise `null` and `""` |
| `App.UKCheckTakesPriority` | src/App.js:41-43 | when the UK check passes, the US check's verdict makes no difference to the result |
| `App.Lookup` | src/App.js:53-65 | rejects with the fixed message exactly when the country is `null`; UK queries `postcode` with the normalised code; US queries `zip` with the raw input |
| `App.Interpret` | src/App.js:67-76 | status -3 or -2 rejects with the upstream `msg`; a transport failure rejects with its message; success exactly when the status is not a sentinel and `output` is not empty, with the coordinate taken from `output[0]` |
| `App.Search` | src/App.js:51-77 | a `null` country rejects with the fixed message; success means the request was sent, the status was not a sentinel, and the result is the first output's coordinate; a received answer with a non-sentinel status and a non-empty `output` always succeeds; a sentinel status rejects with `msg`; a transport failure rejects with its message |
| `App.SearchRequests` | src/App.js:60-65 | a search sends at most one geocoding request, and none at all when the country is `null` |
| `App.Validate` | src/App.js:111-139 | no messages exactly when the postal code has 4..9 characters and the number of results is within 1..50; each rule's message appears exactly when that rule is broken |
| `App.InitialValuesAccepted` | src/App.js:101-104 | the initial values `"91011"` and 50 pass the rules |
| `App.DisplayPostal` | src/App.js:177 | the shown code is a prefix with no `-`, ending at the first `-` or covering the whole string when there is none (also used at line 224) |
| `App.FinishEffects` | src/App.js:79-89 | `onFinish` emits only geocoding requests before its last effect, and that last effect is a fetch at the geocoded coordinate with the submitted number of results exactly when the search succeeded, otherwise the error message; a `null` country emits only the message |
| `App.Controller.constructor` | src/App.js:241-243 | mounting starts at (34.16, -118.0798), zoom 11, and dispatches one fetch of 50 at that centre, which sets the store to `loading` |
| `App.Controller.Dispatch` | src/features/brewery/index.js:12-17 | dispatching `fetchBreweries` applies `pending` to the store, then sends the request |
| `App.Controller.SearchPostal` | src/App.js:51-77 | the method's result is `Search`, it sends `SearchRequests`, and it sets `center` to the coordinate only on success |
| `App.Controller.OnFinish` | src/App.js:79-89 | on success: `center` is the coordinate, one fetch is dispatched and the store is `loading`; on failure the store and `center` are unchanged and only the message is added; `zoom` is unchanged; given a number of results within 1..50, every fetch stays within 1..50 results |
| `App.Controller.Submit` | src/App.js:99-139 | values that break a rule change nothing; accepted values have exactly `onFinish`'s effects, centre, zoom and store outcome |
| `App.Controller.OnBoundsChanged` | src/App.js:252-256 | `center` and `zoom` take the new viewport, and one fetch of 50 is dispatched at the new centre |
| `App.OverlappingMoves` | src/App.js:252-256 | two map moves whose responses arrive in reverse order leave the map at the second centre and zoom, and the list holding the first move's breweries with status `succeeded` and the error unchanged |

## Left out

- Rendering: the React components, the antd drawers, lists, form layout,
  notifications and messages, and the pigeon-maps markers are presentation.
  A shown error is recorded only as a `ShowError` effect.
- HTTP: the calls themselves, the API key in the geocoder URLs and the
  `encodeURIComponent` escaping of the geocoder parameter are not modelled.
  The geocoder's answer and the brewery directory's answer are parameters.
- Response shapes: a malformed geocoder body and the brewery directory's
  JSON decoding are not modelled. A brewery record whose `postal_code` is
  `null` cannot occur in the model, so the list's unguarded `split` call
  cannot fail.
- The postcode libraries: their grammars are not part of this model; they are
  the uninterpreted functions of `App.PostcodeLibrary`.
- Floating point: `parseFloat` and JavaScript's number-to-string conversion.
  Coordinates are carried as `real` values and are never computed with;
  rendering a number is the parameter `show`.
- Timing: asynchronous interleaving and promise scheduling. Each handler runs
  to completion in one step, and each brewery response is a separate call to
  the store, made in arrival order.
- Freshness: there is no sequence-number or "latest request wins" rule,
  because the code has none.
- `src/app/store.js` only registers the slice under the key `breweries`, and
  it has no logic of its own.
- `App.Search`: reading `output[0]` of an empty `output` throws a TypeError
  whose message the runtime supplies. It is modelled as `NoOutput`, without
  the message text.
- `App.Validate`: the form library skips rules for an empty field, and it
  checks `parseInt` of the number of results. Here the number of results is
  always an integer, and an empty field is treated as a string of length 0.
- `App.Controller.OnBoundsChanged`: whether the map library fires this event
  after a programmatic recentring is that library's behaviour, and it is not
  modelled.
