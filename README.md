# Theme preference and application store, modelled in Dafny

This project models the two state holders of a small Vue client application:

- **The theme preference** (`useTheme`). The user's choice is `light`, `dark` or `system`. `system` defers to the colour scheme the operating system reports. Each time a preference is applied, the root element's `data-theme` attribute is set to the mode's name, or removed for `system`. The name is also written under the storage key `theme`. On mount the composable reads that key back and accepts only the three names. It then detects the OS scheme and applies the preference. An OS change re-applies `system` only while `system` is the preference.
- **The application store** (`useAppStore`). It holds a sidebar flag and the state shared by three asynchronous actions: `isLoading`, `error`, `data` and `currencies`. The actions are `fetchData` (a timer), `saveData` (validation, then a timer) and `fetchCurrencies` (one request to the exchange-rate endpoint that keeps the first ten rates of the first table). There is also `resetData`.

Files:

- `use_theme.dfy`: module `UseTheme`.
- `app_store.dfy`: module `AppStore`.
- `decimal_text.dfy`: module `DecimalText`, which writes a non-negative integer as decimal digits. That is JavaScript's text for every integer below 10^21, which covers all the status codes and array indices the store formats.
- `wrappers.dfy`: `Option`.

Each of the two main modules has three parts:

- `State`: the observable state as a value.
- One specification function per operation. Each is named for the state it leaves (`Chosen`, `Toggled`, `Mounted`, `FetchedCurrencies`, …). Its `ensures` says what the source promises.
- A class with the source's own fields (`ThemeComposable`, `Store`). Its methods update those fields step by step. Each method is proved to leave `View() == Spec(old(View()), …)`.

Sequences of events (`UseTheme.Run`) and of completed actions (`AppStore.Run`) let the invariants be stated over whole sessions.

The environment is given as parameters:

- `prefersLight` is the answer of the `(prefers-color-scheme: light)` media query. In `detectSystemTheme` it is also `false` when `matchMedia` is missing.
- The document attribute and the storage key are fields of type `Option<string>`.
- Each awaited timer or request is an outcome parameter: `Settled`, or `Response` with `Body`. `Date.now()` is the `timestamp` a resolution carries.

An asynchronous action is split at its suspension point into `Begin` and a `Settle…` step. Between the two, `isLoading` is observably true.

Three behaviours of the code are easy to misread:

- Take a successful response whose first element has no `rates`. `nbpData[0]?.rates.slice(0, 10)` throws a TypeError. The error is recorded, and `currencies` keeps its old value rather than becoming empty. This is the `Unreadable` body. An empty array or a first element that is `null`/`undefined` gives `[]`.
- On a failed request, `currencies` is left as it was. It is empty after such a request only if it was empty before.
- `saveData` with an invalid payload still clears `error` and raises `isLoading` on entry. It then records `"Invalid payload"` and clears `isLoading`.

## Model

| member | source | states |
|---|---|---|
| `UseTheme.Initial` | src/composables/useTheme.ts:6-7 | a fresh composable prefers `system` and its active theme is `dark`; document and storage are as found |
| `UseTheme.Parse` | src/composables/useTheme.ts:54-57 | a stored string is accepted as mode `t` exactly when it is `t`'s name; every other string, `""` included, is rejected |
| `UseTheme.AttributeFor` | src/composables/useTheme.ts:22-26 | the attribute is absent exactly for `system`, and otherwise reads back as the mode applied |
| `UseTheme.Active` | src/composables/useTheme.ts:39-44 | the active theme is never `system`: it is the preference itself, or the OS signal when the preference is `system` |
| `UseTheme.Opposite` | src/composables/useTheme.ts:49 | the toggle target always differs from the current active scheme |
| `UseTheme.Detected` | src/composables/useTheme.ts:10-16 | the OS signal becomes `light` iff the light query matches, otherwise `dark`; nothing else changes |
| `UseTheme.Applied` | src/composables/useTheme.ts:19-30 | applying mode `t` leaves exactly `t`'s attribute (absent iff `system`, otherwise reading back as `t`) and stores `t`'s name; the preference is untouched, and document and storage are synced when `t` is the current preference |
| `UseTheme.Chosen` | src/composables/useTheme.ts:33-36 | after `setTheme(t)` the preference is `t`, the OS signal is unchanged, and the attribute and storage match `t` |
| `UseTheme.Toggled` | src/composables/useTheme.ts:47-50 | toggling picks an explicit preference, never `system`, different from the previous active scheme, and syncs document and storage |
| `UseTheme.Loaded` | src/composables/useTheme.ts:54-57 | only a stored mode name changes the preference, and then to the mode it names; absence or any other value leaves the preference as it was |
| `UseTheme.Mounted` | src/composables/useTheme.ts:52-75 | after mounting, document and storage match the loaded preference and the OS signal reflects the media query |
| `UseTheme.SystemChanged` | src/composables/useTheme.ts:64-70 | an OS change updates the signal; an explicit light/dark preference, its attribute and its stored value are untouched; under `system` the document is re-synced and the active theme follows the OS |
| `UseTheme.RunKeepsSynced` | src/composables/useTheme.ts:22-29 | every sequence of choices, toggles and OS changes keeps the attribute and storage in step with the preference |
| `UseTheme.SessionInvariant` | src/composables/useTheme.ts:52-75 | from mount on, whatever the document and storage held before: the attribute is absent iff the preference is `system`, and storage holds the preference's name |
| `UseTheme.ToggleTwice` | src/composables/useTheme.spec.ts:53-68 | two toggles restore the original active scheme, now as an explicit preference |
| `UseTheme.InvalidStoredValueIgnored` | src/composables/useTheme.spec.ts:110-117 | an invalid stored value leaves the preference `system`; mount then removes the attribute and overwrites storage with `"system"` |
| `UseTheme.PreferenceSurvivesReload` | src/composables/useTheme.ts:28-57 | the preference one session stores is the preference the next session mounts with |
| `UseTheme.ThemeComposable.constructor` | src/composables/useTheme.ts:6-7 | a new composable starts with preference `system` and OS signal `dark`; document and storage are as found |
| `UseTheme.ThemeComposable.DetectSystemTheme` | src/composables/useTheme.ts:10-16 | updates the `systemTheme` field as `Detected` says |
| `UseTheme.ThemeComposable.ApplyTheme` | src/composables/useTheme.ts:19-30 | writes the attribute and storage fields as `Applied` says |
| `UseTheme.ThemeComposable.SetTheme` | src/composables/useTheme.ts:33-36 | leaves the state `Chosen` gives |
| `UseTheme.ThemeComposable.GetActiveTheme` | src/composables/useTheme.ts:39-44 | a read-only query equal to `Active` of the current state |
| `UseTheme.ThemeComposable.ToggleTheme` | src/composables/useTheme.ts:47-50 | leaves the state `Toggled` gives |
| `UseTheme.ThemeComposable.Mount` | src/composables/useTheme.ts:52-75 | leaves the state `Mounted` gives |
| `UseTheme.ThemeComposable.OnSystemChange` | src/composables/useTheme.ts:64-70 | leaves the state `SystemChanged` gives |
| `DecimalText.NatToDecimal` | src/stores/app.ts:89 | the interpolated status is a non-empty run of digits with no leading zero |
| `DecimalText.DecimalRoundTrip` | src/stores/app.ts:89 | reading the decimal text back gives the number |
| `DecimalText.DecimalInjective` | src/stores/app.ts:71 | distinct numbers have distinct texts, so an array's spread keys do not collide |
| `AppStore.Falsy` | src/stores/app.ts:66 | only primitives are falsy: an array, object or function never is |
| `AppStore.TypeOf` | src/stores/app.ts:66 | `typeof` gives "object" exactly for null, arrays and objects |
| `AppStore.InvalidPayload` | src/stores/app.ts:66-68 | the `saveData` guard rejects exactly the payloads that are not a non-null object or array; `null` is rejected although its `typeof` is "object" |
| `AppStore.Spread` | src/stores/app.ts:71 | spreading copies an object's fields, or an array's elements under their decimal index keys and no other key |
| `AppStore.Augmented` | src/stores/app.ts:71 | the saved record has the payload's keys plus `saved` and `timestamp`; `saved` is `true`, `timestamp` is the clock reading, and every other payload key keeps its value |
| `AppStore.FetchedRecord` | src/stores/app.ts:52 | the fetched record has exactly the keys `message` and `timestamp`, with the fixed message and the clock reading |
| `AppStore.ErrorMessage` | src/stores/app.ts:53-54 | a thrown `Error` is recorded by its own message, and any other thrown value by the action's fallback text |
| `AppStore.IsOk` | src/stores/app.ts:88 | a response is ok exactly when its status is in 200-299 |
| `AppStore.HttpErrorMessage` | src/stores/app.ts:89 | the non-ok error message is the fixed prefix followed by digits only |
| `AppStore.HttpErrorNamesStatus` | src/stores/app.ts:88-90 | the non-ok error message starts with `HTTP error! status: ` and the status code can be read back from the rest |
| `AppStore.FirstRates` | src/stores/app.ts:93 | the stored rates are the first `min(10, n)` rates of the first table, in order, and `[]` when the response array is empty |
| `AppStore.Initial` | src/stores/app.ts:24-30 | the store starts with the sidebar closed, not loading, no error, `data` null and no currencies |
| `AppStore.SidebarToggled` | src/stores/app.ts:32-34 | toggling negates the sidebar flag and changes nothing else |
| `AppStore.SidebarOpened` | src/stores/app.ts:40-42 | opening sets the sidebar flag and changes nothing else |
| `AppStore.SidebarClosed` | src/stores/app.ts:36-38 | closing clears the sidebar flag and changes nothing else |
| `AppStore.SidebarActions` | src/stores/app.ts:32-42 | toggling twice is the identity; open and close set the flag and are idempotent; none touches the async state |
| `AppStore.Begun` | src/stores/app.ts:46-47 | on entry to every async action `isLoading` is true and `error` is null; nothing else changes |
| `AppStore.DataSettled` | src/stores/app.ts:49-57 | when the timer settles, `isLoading` clears; a resolution stores the fetched record and keeps `error`; a rejection keeps `data` and records the error message; sidebar and currencies are untouched |
| `AppStore.FetchedData` | src/stores/app.ts:45-58 | `fetchData` ends with `isLoading` false; `error` is null iff the timer resolved, and then `data` is the fetched record; on rejection `data` is kept and the error message is recorded |
| `AppStore.SaveSettled` | src/stores/app.ts:64-77 | when saving settles, `isLoading` clears; a re-thrown error keeps `data` and is recorded by its message; an invalid payload re-throws "Invalid payload"; a valid resolved save stores the augmented record and re-throws nothing |
| `AppStore.SavedData` | src/stores/app.ts:60-78 | `saveData` ends with `isLoading` false; the caller gets an error iff one is recorded; an invalid payload records "Invalid payload" and keeps `data`; a valid one stores the augmented record |
| `AppStore.CurrenciesSettled` | src/stores/app.ts:85-99 | when the request settles, `isLoading` clears; a delivered response replaces `currencies` with the first ten rates; any failure keeps `currencies` and records the HTTP status message for a non-ok status, or the thrown error's message for a network or decoding failure; sidebar and `data` are untouched |
| `AppStore.FetchedCurrencies` | src/stores/app.ts:81-100 | `fetchCurrencies` ends with `isLoading` false; `error` is null iff the response was ok and readable, and then `currencies` is the first ten rates; otherwise `currencies` is unchanged and the error is the HTTP status message, or the thrown error's message for a network or decoding failure |
| `AppStore.Reset` | src/stores/app.ts:102-107 | `resetData` from any state gives the initial async state and keeps the sidebar flag |
| `AppStore.RunSettles` | src/stores/app.ts:55-57 | after any sequence of completed actions `isLoading` is false |
| `AppStore.SidebarIndependent` | src/stores/app.ts:32-42 | over any sequence of actions, the sidebar flag is what the sidebar actions alone make it |
| `AppStore.Store.constructor` | src/stores/app.ts:24-30 | the sidebar starts closed, not loading, with no error, no data and no currencies |
| `AppStore.Store.ToggleSidebar` | src/stores/app.ts:32-34 | leaves the state `SidebarToggled` gives |
| `AppStore.Store.CloseSidebar` | src/stores/app.ts:36-38 | leaves the state `SidebarClosed` gives |
| `AppStore.Store.OpenSidebar` | src/stores/app.ts:40-42 | leaves the state `SidebarOpened` gives |
| `AppStore.Store.Begin` | src/stores/app.ts:46-47 | the shared entry step, as `Begun` says |
| `AppStore.Store.SettleFetchData` | src/stores/app.ts:49-57 | records the timer's outcome, then clears `isLoading` |
| `AppStore.Store.FetchData` | src/stores/app.ts:45-58 | leaves the state `FetchedData` gives |
| `AppStore.Store.SettleSaveData` | src/stores/app.ts:64-77 | validates, records the outcome, returns the re-thrown error, then clears `isLoading` |
| `AppStore.Store.SaveData` | src/stores/app.ts:60-78 | leaves the state, and returns the error, that `SavedData` gives |
| `AppStore.Store.SettleFetchCurrencies` | src/stores/app.ts:85-99 | records the response's outcome, then clears `isLoading` |
| `AppStore.Store.FetchCurrencies` | src/stores/app.ts:81-100 | leaves the state `FetchedCurrencies` gives |
| `AppStore.Store.ResetData` | src/stores/app.ts:102-107 | leaves the state `Reset` gives |

## Left out

- Vue reactivity is not modelled: `ref`, `onMounted` and the `watch` on `theme`. The watch only re-runs `applyTheme`, which gives the same result when run again, so each operation applies the preference once.
- UseTheme.Mounted: assumes `window.matchMedia` exists. In the code, only `detectSystemTheme` guards against its absence. Mount calls `window.matchMedia(...)` unguarded when it registers the listener, so without it mounting throws before it applies the preference. When the stored value is absent, invalid or `system`, the document attribute and storage then stay as they were. A stored `light` or `dark` is still applied: the load assigns the preference before the throw, and the separate watch on the preference applies it.
- UseTheme.SessionInvariant: holds for one composable instance. Every `useTheme()` call creates its own `theme` and `systemTheme`, but all instances share the one document attribute and the one storage key. With two mounted instances, one instance's OS-change handler can remove the attribute and store `"system"` while the other prefers `light`. The model gives each instance its own `attr` and `stored` fields, so it does not capture this sharing.
- Adding and removing the media-query listener is not modelled. It is lifecycle plumbing. The handler is the method `OnSystemChange(prefersLight)`.
- The real `localStorage`, `document` and `window.matchMedia` are not modelled. They are fields and inputs. Only the storage key `theme` and the `data-theme` attribute are represented.
- `fetch`, `response.json()` and the `setTimeout` delays are not modelled. They are outcome parameters. The JSON decoding step is the `Body` datatype: rate tables, or the error decoding or the `rates` lookup threw. `console.error` is output only.
- A first array element that is `null` or `undefined` gives `[]` in the code. The model's `Tables` body has no such element, so it does not represent this case.
- Running two async actions at once is not modelled. Their steps could interleave on the shared `isLoading` and `error` fields, and the code defines no behaviour for that. Each action is `Begin` followed by its own `Settle…` step.
- The JavaScript event loop is not modelled. An invalid `saveData` payload settles synchronously, before any timer, but the model only orders steps and has no timing.
- `AppStore.Value`: numbers are reals, so a `NaN` payload is not represented. NaN is falsy, and not an object either, so the guard rejects it like any other number. Symbols and bigints are left out for the same reason. The key order of JavaScript objects is not represented.
- `src/i18n/index.ts` is not part of this model. It is a stored-or-`pl` default handed to the translation library, and that library's fallback behaviour is not visible here. The translation tables are static data.
