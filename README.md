# A verified model of the admin client's core

This project models the deterministic core of an admin web client (Nuxt 3 with Vue and
Pinia) in Dafny. The client manages application users, game (Nakama) users, players,
seasons, weeks, events, buckets and changelogs through a REST backend. Under the REST
glue sit many small, stateful or pure pieces. Each one is modelled here in its own
module, and the properties the code promises are proved about it:

- **Client-side stores.** `CacheStore` is the TTL cache with lazy eviction, hit and miss
  counters and an order-independent key. `ApiStore` has the request counter, the
  de-duplicating error list and the data cache. `AuthStore` holds the persisted session,
  role permissions and `canPerformAction`. `UserStore` is the second session store.
  `UiStore` has notifications, modals and toggles. `BrowserStorage` is `localStorage`.
  These are classes whose methods change their fields, proved against functions of the
  old state.
- **Loading and notification registries.** `Loading` and `LoadingStateRegistry` are the
  two loading maps, whose global flag tracks emptiness. `Notifications` holds per-kind
  defaults and persistence. `ErrorHandler` covers categorisation, messages and retry
  rules. `Navigation` covers menu visibility and the current route.
- **Error classification.** `BaseErrorHandler` is the common fallback. Each area has its
  own code-to-message handler: buckets, changelogs, events, seasons, weeks, profile and
  auth. Players and users route errors by the words in their codes into notifications.
- **URL and query-string builders** for every resource client: `BucketsApi`,
  `PlayersApi`, `SeasonsApi`, `EventsApi`, `WeeksApi`, `ChangelogsApi` and `UsersApi`.
  They share `Params` and `Query`. `Query` writes `URLSearchParams` and `JSON.stringify`
  out in full.
- **HTTP clients.** `HttpClient` models `api/client.ts` and `ServiceClient` models
  `services/api/client.ts`, and `AuthApi` models `api/auth.ts`. Covered: header and token
  handling, URL building, and how a fetch outcome becomes a response or an error.
- **Bucket publish validation:** counts, priority gaps, duplicate priorities and the
  verdict.
- **Forms and filters.** `Validation` covers `validateProfileUpdate`, grouping of
  schema-validator errors and `mapBackendError`. `NakamaFilters` and `NakamaUsers` cover
  the game-user filters, request parameters and paging. `UsersComposable` covers the
  user list with search, sort and local updates. `Form`, `PasswordChange` and
  `ProfileEdit` cover form validity, password validation order and the profile diff.
  `DateUtils` buckets relative dates and `UserRole` picks role colours.
- **Route guards.** `GlobalGuard`, `AuthGuard`, `AdminGuard` and `ModeratorGuard` are
  decision functions from the path, session and role to a redirect.

The source duplicates some implementations: two API clients, two loading registries and
two session stores. Each is modelled as written. Time, generated ids and the outcomes of
network calls are parameters. Timers become a log of scheduled removals, with an explicit
method for a timer that fires. `Base` holds the shared vocabulary: JavaScript
truthiness, `includes`, `startsWith`, `trim`, `toLowerCase` and decimal rendering.

## Model

| member | source | states |
|---|---|---|
| CacheStore.CacheStore.constructor | stores/cache.ts:19-25 | an empty cache with both counters at zero |
| CacheStore.CacheStore.Get | stores/cache.ts:40-58 | a live entry returns its data and counts one hit with the map unchanged; an expired or absent key returns null, counts one miss and deletes the key |
| CacheStore.CacheStore.Set | stores/cache.ts:60-70 | the key now maps to an entry stamped with the current time and the given ttl, every other key is untouched, and the counters do not move |
| CacheStore.CacheStore.Remove | stores/cache.ts:77-83 | the result is true exactly when the key was present, and the key is absent afterwards |
| CacheStore.CacheStore.Clear | stores/cache.ts:85-88 | the cache is empty and the counters are kept |
| CacheStore.CacheStore.ClearExpired | stores/cache.ts:90-103 | exactly the entries expired at `now` are deleted, every live entry is kept, and the result is the number deleted |
| CacheStore.CacheStore.CacheInfoOf | stores/cache.ts:105-122 | null exactly for an absent key; otherwise `isExpired` is the negation of `has`, and the time to expiry is non-negative and positive exactly while the entry is live |
| CacheStore.CacheStore.GetOrSet | stores/cache.ts:137-150 | a live non-null value is returned without calling the fetcher; a miss or a cached null calls the fetcher once and stores what it returns with the given ttl; a fetcher that throws stores nothing |
| CacheStore.CacheStore.ResetStats | stores/cache.ts:152-159 | both counters become zero and the entries are kept |
| CacheStore.SetThenGet | stores/cache.ts:40-47 | a value written at `t0` is read back at `t1` whenever `t1 - t0` is below the ttl |
| CacheStore.ClearExpiredLeavesValid | stores/cache.ts:72-75 | after `clearExpired`, `has` holds for every key still stored |
| CacheStore.SortKeysSorted | stores/cache.ts:129-130 | sorting distinct keys gives a strictly ascending sequence with the same elements |
| CacheStore.SortedUnique | stores/cache.ts:129-130 | two strictly ascending sequences with the same elements are equal, so the sorted key order is unique |
| CacheStore.Keys | stores/cache.ts:129 | the keys of the parameter object, one per property, in its own order |
| CacheStore.SameLookup | stores/cache.ts:131 | objects with the same pairs and distinct keys give every key the same value |
| CacheStore.GenerateKeyOrderIndependent | stores/cache.ts:128-135 | the generated key depends only on the set of (key, value) pairs, not on the order the properties were created in |
| ApiStore.WithoutId | stores/api.ts:53-55 | the filtered list holds exactly the stored errors whose id differs, and is no longer than before |
| ApiStore.WithoutIdNoDuplicates | stores/api.ts:53-55 | filtering never creates two errors with the same message and code |
| ApiStore.WithoutIdIdempotent | stores/api.ts:53-55 | removing an id a second time changes nothing |
| ApiStore.WithoutAbsentId | stores/api.ts:53-55 | an id that no error carries removes nothing |
| ApiStore.RunMatched | stores/api.ts:77-92 | with every finish preceded by its start, in any interleaving, the counter is the number of requests still in flight and the clamp at 0 never fires |
| ApiStore.FinishAtZero | stores/api.ts:81-83 | a finish while the counter is 0 is absorbed: any events after it end where they would have without it |
| ApiStore.ApiStore.constructor | stores/api.ts:17-20 | not loading, no errors, an empty cache and a zero counter |
| ApiStore.ApiStore.SetLoading | stores/api.ts:29-31 | `loading` takes the given value and nothing else changes |
| ApiStore.ApiStore.AddError | stores/api.ts:33-47 | the error is appended (with its id and time) exactly when no stored error has the same message and code; either way one such error is then stored and the list stays free of duplicates |
| ApiStore.ApiStore.ClearErrors | stores/api.ts:49-51 | the list is empty, so `hasErrors` is false |
| ApiStore.ApiStore.RemoveError | stores/api.ts:53-55 | the list is the old one without that id, in order, and no error with that id is left |
| ApiStore.ApiStore.ClearCache | stores/api.ts:57-59 | the cache is empty and nothing else changes |
| ApiStore.ApiStore.GetCachedData | stores/api.ts:61-67 | the stored data while `now - timestamp < ttl`, otherwise null |
| ApiStore.ApiStore.SetCachedData | stores/api.ts:69-75 | the key now maps to the data stamped `now` with the ttl, other keys are untouched |
| ApiStore.ApiStore.IncrementRequestCount | stores/api.ts:77-79 | the counter goes up by one and `isRequesting` holds |
| ApiStore.ApiStore.DecrementRequestCount | stores/api.ts:81-83 | the counter goes down by one but never below 0; from 0 or 1 `isRequesting` is false |
| ApiStore.ApiStore.WithRequestTracking | stores/api.ts:85-92 | the count is one higher while `fn` runs and back to its prior value afterwards whether `fn` returned or threw; the outcome of `fn` is passed through |
| ApiStore.SetThenGetCached | stores/api.ts:61-75 | data written at `t0` is read back at `t1` inside the ttl |
| ApiStore.ExpiredStaysCached | stores/api.ts:61-67 | past the ttl `getCachedData` gives null and the entry is not deleted |
| AuthStore.Permissions | stores/auth.ts:142-146 | the fixed permission list of admin, mod and user; any other role has none |
| AuthStore.HasPermission | stores/auth.ts:139-149 | false without a user |
| AuthStore.PermissionTable | stores/auth.ts:139-149 | promotion and `view_all` are admin-only, `view_users` is mod-only, managing, deleting and blacklisting belong to admin and mod, and a plain user holds only the own-profile pair |
| AuthStore.CanPerformAction | stores/auth.ts:152-158 | false without a user; against oneself, true exactly for `view_own_profile` and `edit_own_profile`, whatever the role |
| AuthStore.CanPerformActionRules | stores/auth.ts:160-172 | on someone else: delete and blacklist need admin or mod and a non-admin target, promote needs an admin and a non-admin target, view needs admin or mod, and every other action is denied |
| AuthStore.AdminTargetProtected | stores/auth.ts:160-172 | nobody may act on an admin other than themselves except to view them |
| AuthStore.AuthStore.constructor | stores/auth.ts:49-56 | a signed-out store with no token or user, not loading and initialising |
| AuthStore.AuthStore.UserName | stores/auth.ts:70 | 'Unknown User' without a user, the user's non-empty name otherwise, and never empty |
| AuthStore.AuthStore.UserEmail | stores/auth.ts:71 | the user's email, or '' without a user |
| AuthStore.AuthStore.UserId | stores/auth.ts:72 | the user's id when there is a user with a non-zero id, otherwise null |
| AuthStore.AuthStore.UserRole | stores/auth.ts:73 | 'guest' without a user, the user's non-empty role otherwise |
| AuthStore.AuthStore.AuthorizationHeader | stores/auth.ts:79-82 | 'Bearer ' followed by the token, or by 'null' when there is none |
| AuthStore.AuthStore.SetAuth | stores/auth.ts:109-117 | token, user and `isAuthenticated` are set, and in the browser `auth_token` and `auth_user` are written |
| AuthStore.AuthStore.ClearAuth | stores/auth.ts:120-128 | token and user are null, `isAuthenticated` is false, and in the browser both keys are removed |
| AuthStore.AuthStore.InitializeAuth | stores/auth.ts:87-106 | the session is restored only when both stored keys are non-empty; a stored user that fails to parse ends in `clearAuth`; `isInitializing` always ends false |
| AuthStore.AuthStore.UpdateUser | stores/auth.ts:131-136 | no-op without a user; otherwise only the given fields are overlaid, the token is kept, and `auth_user` is written again |
| AuthStore.SetAuthThenInitialize | stores/auth.ts:87-117 | a session written by `setAuth` is restored by a later `initializeAuth`, given a parser that reads back what was written |
| AuthStore.ClearAuthThenInitialize | stores/auth.ts:87-128 | after `clearAuth`, `initializeAuth` finds nothing and the session stays empty |
| BrowserStorage.Storage.Get | stores/auth.ts:16-26 | the stored value in the browser, otherwise null |
| BrowserStorage.Storage.Set | stores/auth.ts:28-36 | writes the key in the browser and does nothing elsewhere |
| BrowserStorage.Storage.Remove | stores/auth.ts:38-46 | removes the key in the browser and does nothing elsewhere |
| Types.Overlay | stores/auth.ts:133 | every field given in the patch replaces the user's, every other field is kept, and id and creation time never change |
| UserStore.HasRole | stores/user.ts:15-23 | false without a user; for one role, the user's role equals it; for a list, the user's role is in it |
| UserStore.UserStore.constructor | stores/user.ts:7-10 | no user, no token, not loading and no error |
| UserStore.UserStore.IsAdmin | stores/user.ts:25 | true exactly when the user's role is 'admin' |
| UserStore.UserStore.IsModerator | stores/user.ts:26 | true exactly when the user's role is 'admin' or 'mod' |
| UserStore.UserStore.SetUser | stores/user.ts:29-31 | only the user changes |
| UserStore.UserStore.SetToken | stores/user.ts:33-42 | the store's token is set; a truthy token is installed in the auth client and stored, a falsy one removes both the header and the stored token |
| UserStore.UserStore.Login | stores/user.ts:44-65 | success exactly for a successful reply with data, which installs its token and user; otherwise the session is kept and the error is the reply's message or 'Login failed', or the thrown message or 'An unexpected error occurred'; loading always ends false |
| UserStore.UserStore.Logout | stores/user.ts:67-71 | no user and no token, so not authenticated, and the client has no Authorization header |
| UserStore.UserStore.CheckAuth | stores/user.ts:73-103 | without a stored token it is false and nothing changes; otherwise it is true exactly for a successful reply with data, which keeps the token and sets the user, and any other outcome logs out |
| UserStore.MessageOr | stores/user.ts:56 | the reply's message when it is a non-empty string, otherwise the default |
| UiStore.WithoutNotification | stores/ui.ts:59-61 | exactly the notifications with another id remain, none added |
| UiStore.WithoutNotificationIdempotent | stores/ui.ts:59-61 | removing an id twice is removing it once |
| UiStore.WithoutNotificationAppend | stores/ui.ts:59-61 | removal keeps the other entries in order: removing from `a + b` is removing from each |
| UiStore.OpenModals | stores/ui.ts:36 | exactly the open modals, and only open ones |
| UiStore.FirstModal | stores/ui.ts:113 | the position of the first modal with that id, or none when no modal has it |
| UiStore.UiStore.constructor | stores/ui.ts:26-31 | no notifications or modals, the light theme, the sidebar closed and no overlay |
| UiStore.UiStore.AddNotification | stores/ui.ts:42-57 | one entry is appended at the end; a removal is scheduled unless the duration is exactly 0, after the duration or 5000 ms when it is missing |
| UiStore.UiStore.RemoveNotification | stores/ui.ts:59-61 | the list is the old one without that id, in order |
| UiStore.UiStore.Expire | stores/ui.ts:53-55 | the scheduled removal removes that id and nothing else |
| UiStore.UiStore.ClearNotifications | stores/ui.ts:63-65 | the list is empty and `hasNotifications` is false |
| UiStore.UiStore.ShowSuccess | stores/ui.ts:67-74 | appends a success entry whose message defaults to the title; its removal is scheduled after the given duration or 5000 ms, except for duration 0; modals, theme, sidebar and overlay unchanged |
| UiStore.UiStore.ShowError | stores/ui.ts:76-83 | appends an error entry whose message defaults to the title; its removal is scheduled after the given duration or 5000 ms, except for duration 0; modals, theme, sidebar and overlay unchanged |
| UiStore.UiStore.ShowWarning | stores/ui.ts:85-92 | appends a warning entry whose message defaults to the title; its removal is scheduled after the given duration or 5000 ms, except for duration 0; modals, theme, sidebar and overlay unchanged |
| UiStore.UiStore.ShowInfo | stores/ui.ts:94-101 | appends an info entry whose message defaults to the title; its removal is scheduled after the given duration or 5000 ms, except for duration 0; modals, theme, sidebar and overlay unchanged |
| UiStore.UiStore.OpenModal | stores/ui.ts:103-110 | appends an open modal with a new id, so `hasOpenModals` holds; notifications, schedule, theme, sidebar and overlay unchanged |
| UiStore.UiStore.CloseModal | stores/ui.ts:112-117 | the first modal with that id is closed in place, the others and the length are kept; no match changes nothing |
| UiStore.UiStore.CloseAllModals | stores/ui.ts:119-123 | every modal is kept and closed, so no modal is open |
| UiStore.UiStore.ToggleTheme | stores/ui.ts:125-127 | light becomes dark and dark becomes light |
| UiStore.UiStore.SetTheme | stores/ui.ts:129-131 | the theme is the given one; nothing else in the store changes |
| UiStore.UiStore.ToggleSidebar | stores/ui.ts:133-135 | the sidebar flag is negated |
| UiStore.UiStore.OpenSidebar | stores/ui.ts:137-139 | the sidebar is open; nothing else in the store changes |
| UiStore.UiStore.CloseSidebar | stores/ui.ts:141-143 | the sidebar is closed; nothing else in the store changes |
| UiStore.UiStore.SetLoadingOverlay | stores/ui.ts:145-147 | the overlay flag is the given one |
| UiStore.HasOpenModalsIff | stores/ui.ts:36-37 | `hasOpenModals` holds exactly when `currentModals` is non-empty |
| UiStore.ToggleTwice | stores/ui.ts:125-135 | toggling the theme twice restores it, and so does toggling the sidebar twice |
| UiStore.PersistentNeverScheduled | stores/ui.ts:52-57 | a notification with duration 0 never has a removal scheduled |
| UiStore.RemoveTwice | stores/ui.ts:59-61 | removing a notification twice is the same as removing it once |
| HttpClient.ResponseOf | api/client.ts:125-178 | success exactly for an ok response with a body; an error response passes its body on as the error; a success carries the body's `data` and `message`; an abort gives the 408 `REQUEST_TIMEOUT` error and any other failure the status-0 `NETWORK_ERROR` error with the thrown message or 'Network error' |
| HttpClient.BodyOf | api/client.ts:121-123 | a body exactly for truthy data, and it is the data's JSON text |
| HttpClient.BearerRoundTrip | api/client.ts:30-48 | a token without spaces reads back from its `Bearer` header; a token with a space splits into more than two parts and reads back as null |
| HttpClient.PresentParams | api/client.ts:64-70 | never more pairs than parameters |
| HttpClient.PresentParamsAll | api/client.ts:64-70 | every parameter that has a value is appended |
| HttpClient.PresentParamsNone | api/client.ts:64-70 | parameters that are all null or undefined append nothing |
| HttpClient.ApiClient.constructor | api/client.ts:15-25 | the given base URL and timeout, and JSON `Content-Type` and `Accept` headers |
| HttpClient.ApiClient.SetAuthToken | api/client.ts:30-36 | a truthy token writes `Authorization: Bearer <token>`, a falsy one deletes it, and no other header changes |
| HttpClient.ApiClient.GetAuthToken | api/client.ts:41-48 | null when there is no `Authorization` header |
| HttpClient.ApiClient.UpdateBaseUrl | api/client.ts:53-55 | only the base URL changes |
| HttpClient.ApiClient.Get | api/client.ts:60-73 | a joined base URL and path without any ':' has no scheme, so `new URL` throws 'Invalid URL' and nothing is sent; otherwise the URL is the base URL and path with every present parameter appended in order, and the reply is the `request` mapping of the outcome; a GET without a body |
| HttpClient.ApiClient.Send | api/client.ts:78-104 | the URL is the base URL and path, the verb is the given one, a body is sent for truthy data, and the reply is the `request` mapping |
| HttpClient.SetThenGetAuthToken | api/client.ts:30-48 | after `setAuthToken(t)` with a non-empty token without spaces, `getAuthToken()` returns it |
| HttpClient.ClearThenGetAuthToken | api/client.ts:30-48 | after `setAuthToken` with null or '', there is no token |
| AuthApi.LoginPayload | api/auth.ts:13-17 | strategy 'local' and the email and password as given |
| AuthApi.AuthApi.Login | api/auth.ts:12-20 | a POST of the login payload to '/authentication' |
| AuthApi.AuthApi.GetCurrentUser | api/auth.ts:25-27 | a GET of '/authentication' without parameters; with a base URL without ':' (the shared client's default '') the URL constructor throws |
| AuthApi.AuthApi.SetToken | api/auth.ts:32-41 | a truthy token goes into the client and, in the browser, into storage; a falsy one is removed from both |
| AuthApi.AuthApi.TokenLookup | api/auth.ts:46-61 | the client's token when truthy, else the stored one in the browser, else nothing truthy |
| AuthApi.AuthApi.GetToken | api/auth.ts:46-61 | returns that token, and a token found only in storage is installed into the client |
| AuthApi.AuthApi.Logout | api/auth.ts:66-68 | no `Authorization` header and, in the browser, no stored token |
| AuthApi.SetThenGetToken | api/auth.ts:32-61 | a token set through `setToken` is what `getToken` returns |
| AuthApi.LogoutThenGetToken | api/auth.ts:46-68 | after `logout`, `getToken` finds no token anywhere |
| Query.FormEncodeNoAmpersand | api/seasons.ts:100 | an encoded name or value never holds '&' or '=', so `params.toString()` keeps pairs apart |
| Query.SerializeEmpty | api/seasons.ts:100-101 | `params.toString()` is empty exactly when no pair was appended |
| Query.WithQueryShape | api/seasons.ts:100-101 | `queryString ? path + '?' + queryString : path`: the bare path without pairs, path, '?' and the query with them |
| Query.SerializeSplits | api/seasons.ts:100 | splitting the serialised query on '&' gives back exactly the encoded pairs, in order |
| Params.NumParam | api/weeks.ts:65-66 | a pair exactly when the number is present and non-zero, holding its decimal text |
| Params.StrParam | api/weeks.ts:67-69 | a pair exactly when the string is present and non-empty, holding it unchanged |
| Params.ScalarParam | api/weeks.ts:82-83 | a pair exactly when the `number | string` value is truthy, holding its text |
| Params.SortFieldOrder | api/seasons.ts:92-95 | nothing without a sort; with one, `sort[field]` then `sort[order]` |
| Params.Repeated | api/seasons.ts:97 | one `select` pair per element, in order |
| Params.Select | api/seasons.ts:96-98 | a missing list adds nothing; a present one adds one pair per field |
| Params.IdPathInjective | api/seasons.ts:145 | two ids give the same `` `${base}/${id}` `` path only when they are equal |
| Params.AlwaysQueryUrl | api/seasons.ts:136-140 | the range URL always carries '?', and its query splits back into exactly the given pairs, in order |
| Params.SameQuery | api/seasons.ts:100-119 | the list and count URLs built from the same pairs differ only in the path |
| Notifications.DefaultDurationFor | composables/ui/useNotifications.ts:36-41 | every kind's default duration is positive |
| Notifications.CountKind | composables/ui/useNotifications.ts:117-122 | a kind never counts more notifications than the list holds |
| Notifications.CountKindsTotal | composables/ui/useNotifications.ts:117-122 | the four per-kind counts add up to the whole count |
| Notifications.CountKindAppend | composables/ui/useNotifications.ts:117-122 | one more notification raises its own kind's count by one and no other |
| Notifications.Notifications.constructor | composables/ui/useNotifications.ts:24-33 | the composable works on the given UI store |
| Notifications.Notifications.AddNotification | composables/ui/useNotifications.ts:49-69 | one store entry with the title or '', and duration 0 when persistent, the given one or the kind's default otherwise; a non-zero duration schedules the removal of that id; the generated id is returned; modals, theme, sidebar and overlay unchanged |
| Notifications.Notifications.Show | composables/ui/useNotifications.ts:87-101 | `addNotification` with the method's own kind: the same entry, the same scheduled removal, and the rest of the UI store unchanged |
| Notifications.Notifications.ShowPersistent | composables/ui/useNotifications.ts:104-114 | stored with duration 0 and no removal scheduled |
| Notifications.Notifications.RemoveNotification | composables/ui/useNotifications.ts:72-74 | the store's list without that id; modals, schedule, theme, sidebar and overlay unchanged |
| Notifications.Notifications.ClearAllNotifications | composables/ui/useNotifications.ts:77-79 | the list is empty; modals, schedule, theme, sidebar and overlay unchanged |
| Notifications.ReadList | composables/ui/useNotifications.ts:25-32 | the computed reads the list through a ref and throws a TypeError exactly when the destructured getter is the unwrapped array |
| Notifications.CountThrough | composables/ui/useNotifications.ts:117-122 | the count throws exactly when the read does; otherwise it is the whole list's length, or one kind's count when a kind is given |
| Notifications.NonEmptyThrough | composables/ui/useNotifications.ts:125 | `hasNotifications` throws exactly when the read does; otherwise it holds iff the list is non-empty |
| Notifications.Notifications.ClearNotificationsByType | composables/ui/useNotifications.ts:82-84 | reading `undefined.filter` throws a TypeError before anything is assigned |
| Notifications.Notifications.GetNotificationCount | composables/ui/useNotifications.ts:117-122 | as written every call throws, being the count through the destructured, unwrapped getter |
| Notifications.Notifications.HasNotifications | composables/ui/useNotifications.ts:125 | as written reading the computed throws |
| Notifications.Notifications.NotificationCount | composables/ui/useNotifications.ts:117-122 | the corrected count, over the store's own list: one kind's count when a kind is given, else all notifications; it is what the count returns through a ref |
| Notifications.CountThrowsOnOneError | composables/ui/useNotifications.ts:25-32 | with one error notification stored, the count as written throws while the corrected count is 1 |
| Notifications.ShowErrorCounts | composables/ui/useNotifications.ts:91-93 | `showError` raises the corrected error count by exactly one and leaves the other counts alone |
| ErrorHandler.NumberOf | composables/ui/useErrorHandler.ts:30 | a numeric code compares as itself; a missing code compares as NaN |
| ErrorHandler.Categorize | composables/ui/useErrorHandler.ts:27-34 | 401 or 403 exactly when auth; 422 exactly when validation; otherwise a code of 500 or more is api, a `NetworkError` or a message with 'network' is network, else unknown; 'permission' is never reached |
| ErrorHandler.ExtractMessage | composables/ui/useErrorHandler.ts:37-57 | a string is its own message; a truthy message is replaced for 'fetch'/'network' and then 'timeout', kept otherwise; then `data.message`, `data.error`, the fallback; an object never gives '' |
| ErrorHandler.CodeOrStatus | composables/ui/useErrorHandler.ts:62 | the code when truthy, else the status |
| ErrorHandler.ServerErrorsRetryable | composables/ui/useErrorHandler.ts:60-74 | a 5xx error is api and retryable; a code of 600 or more is api but retryable only when its message says 'timeout' |
| ErrorHandler.ClientErrorsNotRetryable | composables/ui/useErrorHandler.ts:60-74 | auth and validation errors are retryable exactly when their message says 'timeout' |
| ErrorHandler.Tone | composables/ui/useErrorHandler.ts:169-180 | 'info' without an error; otherwise 'warning' exactly for validation and network and 'error' for every other category |
| ErrorHandler.Icon | composables/ui/useErrorHandler.ts:183-194 | 'mdi-information' exactly when there is no error |
| ErrorHandler.ErrorHandler.constructor | composables/ui/useErrorHandler.ts:19-24 | no error and not loading |
| ErrorHandler.ErrorHandler.HandleError | composables/ui/useErrorHandler.ts:77-157 | the info built from the error (its extracted message, never 'permission') becomes the current error, and it is added to the api store unless an equal error is already there; nothing else in the store changes |
| ErrorHandler.ErrorHandler.ClearError | composables/ui/useErrorHandler.ts:160-163 | no current error, the api store's errors emptied, and type and colour back to 'info' |
| Loading.Find | composables/ui/useLoading.ts:110-112 | a found state is stored under that id; nothing is found exactly when the id is absent |
| Loading.Put | composables/ui/useLoading.ts:50 | a present id is replaced in place; an absent one is appended |
| Loading.Remove | composables/ui/useLoading.ts:71 | exactly the entries with other ids remain, and the id is gone |
| Loading.PutFind | composables/ui/useLoading.ts:50 | after `set`, ids stay distinct, the id maps to the new state and every other id keeps its state |
| Loading.FindDistinct | composables/ui/useLoading.ts:110-112 | with distinct ids, a stored state is found under its own id |
| Loading.RemoveDistinct | composables/ui/useLoading.ts:71 | `delete` keeps ids distinct, removes one entry when the id was present and changes nothing when it was absent |
| Loading.RemovePut | composables/ui/useLoading.ts:50-71 | `set` then `delete` of the same id is `delete` alone |
| Loading.Clamp | composables/ui/useLoading.ts:84 | the result lies in [0, 100] and a value already there is kept |
| Loading.MeanProgress | composables/ui/useLoading.ts:178-184 | 0 without states, else the mean progress rounded to the nearest integer, halves up |
| Loading.AverageProgressBounds | composables/ui/useLoading.ts:178-184 | with every progress in [0, 100] the average is in [0, 100] |
| Loading.WithMessage | composables/ui/useLoading.ts:173-175 | exactly the states whose message is truthy |
| Loading.LoadingRegistry.constructor | composables/ui/useLoading.ts:17-22 | no states, no timers, the global flag down |
| Loading.LoadingRegistry.HasActiveLoading | composables/ui/useLoading.ts:123 | some state is stored exactly when the global flag is up |
| Loading.LoadingRegistry.AverageProgress | composables/ui/useLoading.ts:178-180 | 0 without states |
| Loading.LoadingRegistry.GetLoadingDuration | composables/ui/useLoading.ts:126-132 | 0 for an unknown id, else the time since its start |
| Loading.LoadingRegistry.StartLoading | composables/ui/useLoading.ts:30-66 | the new state is stored under the given or generated id, other ids keep theirs, all three flags go up, and a timer is armed exactly when the timeout is positive |
| Loading.LoadingRegistry.StopLoading | composables/ui/useLoading.ts:69-78 | the id is forgotten (one fewer entry when it was there); the last one to go lowers all three flags, otherwise they keep their values; the api store's errors, count and cache and the rest of the UI store unchanged |
| Loading.LoadingRegistry.UpdateProgress | composables/ui/useLoading.ts:81-86 | the entry's progress becomes the clamped value; unknown ids and all other entries are untouched |
| Loading.LoadingRegistry.UpdateMessage | composables/ui/useLoading.ts:89-94 | only that entry's message changes; unknown ids are ignored |
| Loading.LoadingRegistry.StopAllLoading | composables/ui/useLoading.ts:97-102 | nothing stored and every flag down |
| Loading.LoadingRegistry.TimerFires | composables/ui/useLoading.ts:57-62 | the timed-out entry is stopped if it is still there: the last one to go lowers the global flag, `api.loading` and the overlay, otherwise all three keep their values; an id no longer loading changes no state; the timers, the api store's errors, count and cache and the rest of the UI store unchanged |
| Loading.LoadingRegistry.WithLoading | composables/ui/useLoading.ts:135-147 | the outcome passes through and the entry it started is gone afterwards, returned or thrown |
| Loading.LoadingRegistry.WithProgress | composables/ui/useLoading.ts:150-166 | as `withLoading`, with the reported progress applied to its own entry on the way |
| LoadingStateRegistry.LoadingStates.constructor | composables/ui/useLoadingState.ts:20-25 | no states, no timers, and the request flag as read at setup |
| LoadingStateRegistry.LoadingStates.ActiveLoadingCount | composables/ui/useLoadingState.ts:174 | a positive count exactly when the global flag is up |
| LoadingStateRegistry.LoadingStates.HasActiveLoading | composables/ui/useLoadingState.ts:173 | some state is stored exactly when the global flag is up |
| LoadingStateRegistry.LoadingStates.IsAnyLoading | composables/ui/useLoadingState.ts:175 | true whenever some state is stored |
| LoadingStateRegistry.LoadingStates.GetLoadingDuration | composables/ui/useLoadingState.ts:125-128 | 0 for an unknown id, else the time since its start |
| LoadingStateRegistry.LoadingStates.StartLoading | composables/ui/useLoadingState.ts:33-76 | the new state is stored and the global flag raised; the overlay only when `showOverlay` is true, the spinner only when `showSpinner` is not false; a timer exactly for a positive timeout |
| LoadingStateRegistry.LoadingStates.StopLoading | composables/ui/useLoadingState.ts:79-88 | the id is forgotten; the last one to go lowers the spinner and the overlay, otherwise they keep their values; the api store's errors, count and cache and the rest of the UI store unchanged |
| LoadingStateRegistry.LoadingStates.UpdateProgress | composables/ui/useLoadingState.ts:91-96 | the entry's progress becomes the clamped value; unknown ids and other entries are untouched |
| LoadingStateRegistry.LoadingStates.UpdateMessage | composables/ui/useLoadingState.ts:99-104 | only that entry's message changes |
| LoadingStateRegistry.LoadingStates.StopAllLoading | composables/ui/useLoadingState.ts:107-112 | nothing stored and every flag down |
| LoadingStateRegistry.LoadingStates.TimerFires | composables/ui/useLoadingState.ts:67-72 | the timed-out entry is stopped if it is still there: the last one to go lowers the global flag, `api.loading` and the overlay, otherwise all three keep their values; an id no longer loading changes no state; the timers, the api store's errors, count and cache and the rest of the UI store unchanged |
| LoadingStateRegistry.LoadingStates.WithLoading | composables/ui/useLoadingState.ts:131-142 | the outcome passes through and its own entry is gone afterwards |
| LoadingStateRegistry.LoadingStates.WithProgress | composables/ui/useLoadingState.ts:145-160 | as `withLoading`, with progress reports on the way |
| LoadingStateRegistry.LoadingStates.WithApiLoading | composables/ui/useLoadingState.ts:163-170 | one more request is counted while it runs and the count is back afterwards; its entry is gone |
| Navigation.VisibilityRule | composables/ui/useNavigation.ts:75-80 | an item is visible exactly when its `requiresAuth` matches the session and, when it lists roles and a role is given, the role is among them |
| Navigation.Visible | composables/ui/useNavigation.ts:85 | exactly the visible items are kept |
| Navigation.VisibleAll | composables/ui/useNavigation.ts:85 | a list whose items are all visible passes the filter unchanged |
| Navigation.FilteredNavigationItems | composables/ui/useNavigation.ts:83-86 | signed in, only main items; otherwise only Login and Register |
| Navigation.FilteredMenus | composables/ui/useNavigation.ts:16-86 | signed-in users see all four main items and visitors exactly Login and Register, whatever the role |
| Navigation.MenuVisible | composables/ui/useNavigation.ts:75-85 | a menu of items without roles that all ask for the session's state is shown whole |
| Navigation.NavigationState.constructor | composables/ui/useNavigation.ts:12-13 | the menu closed and no current route |
| Navigation.NavigationState.ToggleMobileMenu | composables/ui/useNavigation.ts:60-62 | the menu flag flips, the route stays |
| Navigation.NavigationState.CloseMobileMenu | composables/ui/useNavigation.ts:65-67 | the menu is closed, the route stays |
| Navigation.NavigationState.OpenMobileMenu | composables/ui/useNavigation.ts:70-72 | the menu is open, the route stays |
| Navigation.NavigationState.UpdateCurrentRoute | composables/ui/useNavigation.ts:89-96 | afterwards exactly the given route is active |
| Navigation.ToggleMenuTwice | composables/ui/useNavigation.ts:60-62 | toggling twice restores the menu flag |
| BaseErrorHandler.CommonMessage | composables/errors/useBaseErrorHandler.ts:63-83 | a fixed text for each of the four network and server codes; any other code gives the error's message, or the default when it is empty |
| BaseErrorHandler.CommonMessageNonEmpty | composables/errors/useBaseErrorHandler.ts:63-83 | with a non-empty default the message is never empty |
| BaseErrorHandler.MessageTexts | composables/errors/useBaseErrorHandler.ts:93 | one text per element |
| BaseErrorHandler.ErrorJsonMembers | composables/errors/useBaseErrorHandler.ts:91-96 | the error's `details` and `message` read back from its object form |
| BaseErrorHandler.FormatValidationErrorsCases | composables/errors/useBaseErrorHandler.ts:91-97 | with a `details.errors` array, 'Validation error: ' and the element messages joined by ', '; otherwise the message, or 'Invalid credentials' when it is empty |
| BaseErrorHandler.ValidationTextOfArray | composables/errors/useSeasonsErrorHandler.ts:75-81 | handing `details.errors` itself to `formatValidationErrors` turns an array of field errors into 'Validation errors: Invalid credentials' |
| BaseErrorHandler.ValidationTextWithoutDetails | composables/errors/useSeasonsErrorHandler.ts:75-81 | without `details` the area's own text is used |
| BaseErrorHandler.BaseErrorHandler.constructor | composables/errors/useBaseErrorHandler.ts:46-47 | no error and no message |
| BaseErrorHandler.BaseErrorHandler.HandleCommonError | composables/errors/useBaseErrorHandler.ts:53-86 | the error (or null) is recorded and the returned message is the one stored: the default without an error, the common message with one |
| BaseErrorHandler.BaseErrorHandler.ClearError | composables/errors/useBaseErrorHandler.ts:102-105 | no error and no message |
| BaseErrorHandler.BaseErrorHandler.HandleInArea | composables/errors/useSeasonsErrorHandler.ts:60-95 | the stored message is returned: the default without an error, the area's own text for a code it words (leaving `error` alone), otherwise the common message with the error recorded |
| BaseErrorHandler.BaseErrorHandler.HandleRecorded | composables/errors/useAuthErrorHandler.ts:23-63 | the error is always recorded and the stored message returned: the default without an error, the area's text for a code it words, else the common message |
| BaseErrorHandler.ClearThenIsErrorCode | composables/errors/useBaseErrorHandler.ts:102-112 | after `clearError`, `isErrorCode` is false for every code |
| AuthErrors.SignInWordedCodes | composables/errors/useAuthErrorHandler.ts:29-59 | sign-in words exactly the credential, token, permission and validation codes |
| AuthErrors.RegistrationWordedCodes | composables/errors/useAuthErrorHandler.ts:74-91 | registration words exactly clashes and validation failures, and a clash says 'This email is already registered' exactly when `details.field` is 'email' |
| AuthErrors.ValidationAlike | composables/errors/useAuthErrorHandler.ts:51-53 | both handlers word a validation failure with `formatValidationErrors` |
| AuthErrors.AuthErrorHandler.constructor | composables/errors/useAuthErrorHandler.ts:10-18 | a fresh base handler with no error |
| AuthErrors.AuthErrorHandler.Handle | composables/errors/useAuthErrorHandler.ts:23-95 | the error is recorded and the stored message returned: the operation's default without an error, its own text for a code it words, else the common message |
| BucketsErrors.BucketErrorMessage | composables/errors/useBucketsErrorHandler.ts:7-107 | the handler's own text for a code it words, otherwise the common message with the default 'An error occurred' |
| BucketsErrors.AuthAndServerCodesWorded | composables/errors/useBucketsErrorHandler.ts:7-107 | every bucket handler words `UNAUTHORIZED`, `FORBIDDEN` and `INTERNAL_ERROR` itself, so the common server text never shows |
| BucketsErrors.DatabaseUniqueCodeNotWorded | composables/errors/useBucketsErrorHandler.ts:47-48 | the handlers match the literal 'UNIQUE_VIOLATION', so the database code '23505' shows the error's own message or the default |
| BucketsErrors.ClashesWordedOnWrite | composables/errors/useBucketsErrorHandler.ts:39-90 | a name clash is worded exactly on create and update; a constraint violation exactly on delete |
| BucketsErrors.ValidationWorded | composables/errors/useBucketsErrorHandler.ts:7-107 | `VALIDATION_ERROR` is worded by every handler except the single fetch and delete |
| ChangelogsErrors.ChangelogErrorMessage | composables/errors/useChangelogsErrorHandler.ts:7-90 | the handler's own text for a code it words, otherwise the common message |
| ChangelogsErrors.WordedCodes | composables/errors/useChangelogsErrorHandler.ts:7-90 | every handler words the auth, permission, validation and server codes; `NOT_FOUND` exactly for the list, entity and user lookups; no other code |
| ChangelogsErrors.NotFoundDeferred | composables/errors/useChangelogsErrorHandler.ts:62-90 | a date-range or count lookup that finds nothing shows the error's own message or the default |
| EventsErrors.AuthAndServerCodesWorded | composables/errors/useEventsErrorHandler.ts:7-224 | every events handler words the auth, permission and server codes, never with the common server text |
| EventsErrors.NotFoundWorded | composables/errors/useEventsErrorHandler.ts:7-224 | `NOT_FOUND` is worded by every handler except create |
| EventsErrors.ConflictWordedOnlyOnWrite | composables/errors/useEventsErrorHandler.ts:83-126 | `ALREADY_EXISTS` and '23505' are worded exactly on create and update |
| EventsErrors.UnknownCodesDeferred | composables/errors/useEventsErrorHandler.ts:7-224 | a code outside the worded ones always goes to the common handler |
| EventsErrors.EventsErrorHandler.constructor | composables/errors/useEventsErrorHandler.ts:4-6 | a fresh base handler with no error |
| EventsErrors.EventsErrorHandler.Handle | composables/errors/useEventsErrorHandler.ts:7-224 | the stored message is returned: the operation's default without an error, its own text for a code it words, else the common message with the error recorded |
| NoticeErrors.Prefix | composables/errors/usePlayersErrorHandler.ts:13 | '' without a context, else the context and ': ' |
| NoticeErrors.TruthyMember | composables/errors/usePlayersErrorHandler.ts:68-69 | a text only for a member that is present and truthy |
| NoticeErrors.FieldName | composables/errors/usePlayersErrorHandler.ts:68 | a null detail, or an `instancePath` that is neither a string nor null, throws; otherwise the path without its first '/' when that is non-empty, and 'field' when the detail has neither `instancePath` nor `field` |
| NoticeErrors.FieldErrorTexts | composables/errors/usePlayersErrorHandler.ts:67-71 | throws exactly when some detail's text throws; otherwise one `field: message` text per detail, in order |
| NoticeErrors.FieldErrorText | composables/errors/usePlayersErrorHandler.ts:68-70 | throws exactly when the field name throws; otherwise the name, ': ' and the message |
| NoticeErrors.NullDetailThrows | composables/errors/usePlayersErrorHandler.ts:65-71 | a null element anywhere in a non-empty `details` array makes the field-error message throw |
| NoticeErrors.FieldErrorsMessage | composables/errors/usePlayersErrorHandler.ts:65-76 | no message exactly when `details` is not a non-empty array; for one, a throw exactly when an element's text throws, else the texts joined by ', ' |
| NoticeErrors.FirstMatch | composables/errors/usePlayersErrorHandler.ts:82-153 | the text of the first rule whose keyword the message contains, and none exactly when no keyword occurs |
| NoticeErrors.ShadowedRule | composables/errors/usePlayersErrorHandler.ts:82-153 | a rule whose keyword contains an earlier rule's keyword can never fire |
| PlayersErrors.PlayerNotice | composables/errors/usePlayersErrorHandler.ts:12-57 | the generic player handler only shows error notices |
| PlayersErrors.ValidationNotice | composables/errors/usePlayersErrorHandler.ts:62-160 | throws exactly when the field errors throw; otherwise one prefixed error notice: the field errors of a non-empty `details` array, else for `VALIDATION_ERROR` the first keyword's text or the raw message, else the raw message |
| PlayersErrors.DatabaseNotice | composables/errors/usePlayersErrorHandler.ts:165-208 | the database handler only shows error notices |
| PlayersErrors.SearchTableKinds | composables/errors/usePlayersErrorHandler.ts:213-244 | a too-broad search warns, an empty result informs, the search handler's other codes are errors |
| PlayersErrors.SearchNotice | composables/errors/usePlayersErrorHandler.ts:213-244 | the search handler's own prefixed notice for its codes, else the generic player notice |
| PlayersErrors.UpdateTableKinds | composables/errors/usePlayersErrorHandler.ts:249-276 | only 'no changes detected' warns; the update handler's other codes are errors |
| PlayersErrors.UpdateNotice | composables/errors/usePlayersErrorHandler.ts:249-276 | the update handler's own prefixed notice for its codes, else the generic player notice |
| PlayersErrors.ChangelogTable | composables/errors/usePlayersErrorHandler.ts:281-304 | every code the changelog handler words is an error |
| PlayersErrors.ChangelogNotice | composables/errors/usePlayersErrorHandler.ts:281-304 | the changelog handler's own prefixed notice for its codes, else the generic player notice |
| PlayersErrors.ChangelogRetrievalWording | composables/errors/usePlayersErrorHandler.ts:12-57 | the changelog handler and the generic player handler word a retrieval failure differently |
| PlayersErrors.HandleErrorNotice | composables/errors/usePlayersErrorHandler.ts:309-325 | the notice of the sub-handler the code is routed to, routes checked in the source's order; only the validation route can throw, exactly when its field errors do |
| PlayersErrors.NoDatabaseRouteWithoutB | composables/errors/usePlayersErrorHandler.ts:314 | a code without a 'B' never reaches the database handler |
| PlayersErrors.DatabaseNoticeCodes | composables/errors/usePlayersErrorHandler.ts:165-208 | the database handler shows a notice exactly for its own codes |
| PlayersErrors.DatabaseCodesNeverRouted | composables/errors/usePlayersErrorHandler.ts:309-325 | none of the database handler's codes is routed to it, so its notices never show through `handleError` |
| PlayersErrors.PlayerRouteByMissingChars | composables/errors/usePlayersErrorHandler.ts:309-325 | a code lacking one letter of each routing word reaches the generic player handler |
| PlayersErrors.NullFieldErrorThrows | composables/errors/usePlayersErrorHandler.ts:62-71 | `VALIDATION_ERROR` with `details` `[null]` makes `handleError` throw |
| PlayersErrors.ValidationAlwaysShown | composables/errors/usePlayersErrorHandler.ts:312-313 | a validation-routed error throws exactly when its field errors throw, and otherwise shows exactly one error notice |
| PlayersErrors.ValidationRulesFirstMatch | composables/errors/usePlayersErrorHandler.ts:82-83 | a message mentioning 'Username' gets the username text |
| PlayersErrors.PlayersErrorHandler.constructor | composables/errors/usePlayersErrorHandler.ts:5-7 | the handler shows notices through the given notifications |
| PlayersErrors.PlayersErrorHandler.HandleError | composables/errors/usePlayersErrorHandler.ts:309-325 | the routed notice, if any, is added to the UI store with its kind's default duration and its removal scheduled; a throwing field error adds and schedules nothing; modals, theme, sidebar and overlay unchanged |
| ProfileErrors.EmailClash | composables/errors/useProfileErrorHandler.ts:48-63 | an update clash says the email is in use exactly when the clash is on the email field, for either clash code |
| ProfileErrors.PermissionCodesAlike | composables/errors/useProfileErrorHandler.ts:39-90 | `FORBIDDEN` and `INSUFFICIENT_PERMISSIONS` read the same in both handlers |
| ProfileErrors.UpdateValidation | composables/errors/useProfileErrorHandler.ts:30-33 | update validation failures are worded by `formatValidationErrors` on the error |
| ProfileErrors.FetchWordedCodes | composables/errors/useProfileErrorHandler.ts:76-103 | fetching words exactly the auth, permission and not-found codes |
| ProfileErrors.ProfileErrorHandler.constructor | composables/errors/useProfileErrorHandler.ts:8-18 | a fresh base handler with no error |
| ProfileErrors.ProfileErrorHandler.Handle | composables/errors/useProfileErrorHandler.ts:23-103 | the error is recorded and the stored message returned: the default without an error, the handler's text for a code it words, else the common message |
| SeasonsErrors.AuthAndServerCodesWorded | composables/errors/useSeasonsErrorHandler.ts:7-189 | every seasons handler words the auth, permission and server codes, never with the common server text |
| SeasonsErrors.NotFoundWorded | composables/errors/useSeasonsErrorHandler.ts:7-189 | `NOT_FOUND` is worded by every handler except create |
| SeasonsErrors.ConflictWordedOnlyOnCreate | composables/errors/useSeasonsErrorHandler.ts:62-131 | title clashes are worded exactly by create; an update that collides falls back to the common message |
| SeasonsErrors.UnknownCodesDeferred | composables/errors/useSeasonsErrorHandler.ts:7-189 | a code outside the worded ones always goes to the common handler |
| SeasonsErrors.SeasonsErrorHandler.constructor | composables/errors/useSeasonsErrorHandler.ts:4-6 | a fresh base handler with no error |
| SeasonsErrors.SeasonsErrorHandler.Handle | composables/errors/useSeasonsErrorHandler.ts:7-189 | the stored message is returned: the operation's default without an error, its own text for a code it words, else the common message with the error recorded |
| UsersErrors.UserNotice | composables/errors/useUsersErrorHandler.ts:12-81 | an error notice exactly for the generic user handler's own codes, nothing otherwise |
| UsersErrors.ValidationNotice | composables/errors/useUsersErrorHandler.ts:86-130 | throws exactly when the field errors throw; otherwise one prefixed error notice: field errors of a non-empty `details` array, else a keyword's text for `VALIDATION_ERROR`, a fixed text for `INVALID_INPUT`, else the message or 'Validation failed' |
| UsersErrors.IncorrectPasswordTextUnreachable | composables/errors/useUsersErrorHandler.ts:114-117 | 'Current password incorrect' is checked after 'Current password', so its text never shows |
| UsersErrors.AuthNotice | composables/errors/useUsersErrorHandler.ts:135-158 | always one error notice, 'Authentication failed' for codes it does not word |
| UsersErrors.AuthorizationNotice | composables/errors/useUsersErrorHandler.ts:163-186 | always one error notice, 'Authorization failed' for codes it does not word |
| UsersErrors.DatabaseNotice | composables/errors/useUsersErrorHandler.ts:191-214 | always one error notice; '23505' says the email exists exactly when the message mentions 'email'; other codes say 'Database operation failed' |
| UsersErrors.RoutedNotice | composables/errors/useUsersErrorHandler.ts:231-241 | the notice of the sub-handler the code is routed to; only the validation route can throw, exactly when its field errors do |
| UsersErrors.Unwrap | composables/errors/useUsersErrorHandler.ts:223 | a truthy nested `error` member is preferred, else the thrown value itself |
| UsersErrors.HandleErrorNotice | composables/errors/useUsersErrorHandler.ts:219-242 | without a value or a truthy code, the 'unexpected error' notice; with a string code, the routed notice or its throw; a truthy non-string code throws |
| UsersErrors.RoutedAlwaysShown | composables/errors/useUsersErrorHandler.ts:231-238 | every route except the generic user handler shows exactly one error notice, unless it is the validation route and its field errors throw |
| UsersErrors.PostgresCodesRouted | composables/errors/useUsersErrorHandler.ts:237 | a code of the shape `23` and three digits reaches the database handler |
| UsersErrors.InvalidCredentialsShowsNothing | composables/errors/useUsersErrorHandler.ts:231-241 | `INVALID_CREDENTIALS` goes to the generic user handler, which shows nothing |
| UsersErrors.Shown | composables/errors/useUsersErrorHandler.ts:7 | a notice becomes exactly one store entry, no notice none |
| UsersErrors.UsersErrorHandler.constructor | composables/errors/useUsersErrorHandler.ts:5-7 | the handler shows notices through the given notifications |
| UsersErrors.UsersErrorHandler.HandleError | composables/errors/useUsersErrorHandler.ts:219-242 | the notice, if any, is added to the UI store with its kind's default duration and its removal scheduled; a non-string code or a throwing field error adds and schedules nothing; modals, theme, sidebar and overlay unchanged |
| WeeksErrors.AuthAndServerCodesWorded | composables/errors/useWeeksErrorHandler.ts:7-183 | every weeks handler words the auth, permission and server codes, never with the common server text |
| WeeksErrors.NotFoundWorded | composables/errors/useWeeksErrorHandler.ts:7-183 | `NOT_FOUND` is worded by every handler except create |
| WeeksErrors.ConflictWordedOnlyOnCreate | composables/errors/useWeeksErrorHandler.ts:62-128 | `ALREADY_EXISTS` is worded exactly by create, and '23505' by none |
| WeeksErrors.ValidationWorded | composables/errors/useWeeksErrorHandler.ts:7-183 | `VALIDATION_ERROR` reaches the common handler exactly from the single-week and by-season fetches |
| WeeksErrors.WeeksErrorHandler.constructor | composables/errors/useWeeksErrorHandler.ts:4-6 | a fresh base handler with no error |
| WeeksErrors.WeeksErrorHandler.Handle | composables/errors/useWeeksErrorHandler.ts:7-183 | the stored message is returned: the operation's default without an error, its own text for a code it words, else the common message with the error recorded |
| BucketsApi.FilterParams | api/buckets.ts:90-95 | only the six filter keys |
| BucketsApi.SortParams | api/buckets.ts:98-102 | one `sort[key]=value` pair per sort entry, in order |
| BucketsApi.FilterKeysArePlain | api/buckets.ts:90-95 | no filter key is `limit`, `skip`, `select` or a `sort[...]` key |
| BucketsApi.CountOmitsPaging | api/buckets.ts:86-129 | the count query has only filter pairs; the list query starts with the same pairs and adds one pair per limit, skip, sort entry and selected field |
| BucketsApi.EmptyQueryUrls | api/buckets.ts:107-126 | an empty query goes to the bare '/buckets' and '/buckets/count' |
| BucketsApi.ZeroBoundIsValid | api/buckets.ts:244-265 | a bound of 0 is defined (`!== undefined`), so a level range with min 0 is a valid rule |
| BucketsApi.ErrorsOf | api/buckets.ts:197-209 | one error for a missing event plus one for missing rules |
| BucketsApi.BucketErrors | api/buckets.ts:197-209 | the errors number the buckets without events plus those without rules |
| BucketsApi.WithoutEvents | api/buckets.ts:199-202 | never more than the buckets |
| BucketsApi.WithEmptyRules | api/buckets.ts:205-208 | never more than the buckets |
| BucketsApi.Priorities | api/buckets.ts:193 | the buckets' priorities, one per bucket |
| BucketsApi.GapsExact | api/buckets.ts:212-218 | the gaps are exactly the numbers 1..n missing from the priorities, ascending |
| BucketsApi.GapWarnings | api/buckets.ts:212-218 | one warning per gap |
| BucketsApi.GapWarningsText | api/buckets.ts:216 | each warning is 'Priority k is missing' for its own gap |
| BucketsApi.DuplicateIff | api/buckets.ts:221-224 | the set of priorities is smaller exactly when two buckets share a priority |
| BucketsApi.ValidationCounts | api/buckets.ts:188-240 | the error count is the buckets without events plus those without rules plus one for duplicates, and the result is valid exactly when all three are absent; gaps never make it invalid |
| BucketsApi.NoGapsWhenNumbered | api/buckets.ts:212-224 | priorities 1..n leave no gaps and no duplicates |
| BucketsApi.ValidateBucketsOnPublish | api/buckets.ts:167-241 | fetches the season-and-week path; a failed fetch gives the invalid result with one error; otherwise a success holding the checked result and 'Validation completed' |
| BucketsApi.CheckBuckets | api/buckets.ts:197-209 | the loop produces exactly the per-bucket errors and counts of the specification functions |
| BucketsApi.CheckBucket | api/buckets.ts:199-208 | one bucket's errors and whether it lacks an event or rules |
| BucketsApi.CheckStep | api/buckets.ts:197-209 | one more bucket appends its own errors and adds its own counts |
| BucketsApi.FindGaps | api/buckets.ts:212-218 | the loop produces exactly the missing priorities and their warnings |
| PlayersApi.DefinedNum | api/players.ts:322 | a pair exactly when the number is defined, 0 included |
| PlayersApi.DefinedBool | api/players.ts:323-325 | a pair exactly when the flag is defined, 'false' included |
| PlayersApi.RangeNum | api/players.ts:328-341 | an encoded pair exactly for a plain number |
| PlayersApi.RangeJson | api/players.ts:422 | one JSON member per given bound |
| PlayersApi.RawRange | api/players.ts:420-443 | a raw `key=<JSON>` part exactly for a range object |
| PlayersApi.RawSort | api/players.ts:446-450 | a raw `sort=<JSON of field and order>` part exactly when a sort is given |
| PlayersApi.RawPieces | api/players.ts:420-450 | seven raw pieces: the six range fields in order, then the sort |
| PlayersApi.Extend | api/players.ts:421-422 | the part alone onto an empty string, else '&' and the part |
| PlayersApi.ExtendJoin | api/players.ts:421-449 | extending a join of non-empty parts joins one more part |
| PlayersApi.AppendRange | api/players.ts:420-443 | one raw append keeps the query string the '&'-join of the parts so far, with the range part added when present |
| PlayersApi.AppendSort | api/players.ts:446-450 | the sort append keeps the query string the '&'-join of the parts, with the sort part last |
| PlayersApi.AppendRawParts | api/players.ts:420-450 | the hand-written appends produce the '&'-join of the encoded part and every raw part, in order |
| PlayersApi.GetPlayersUrl | api/players.ts:302-455 | '/players' when no part is present, else '/players?' and all parts joined by '&' |
| PlayersApi.AppendFields | api/players.ts:306-408 | the `params.append` calls produce exactly the encoded pairs of the query, group by group |
| PlayersApi.EmptyQueryParts | api/players.ts:452 | an empty query goes to the bare '/players' |
| PlayersApi.RangeByType | api/players.ts:328-341 | a range object yields a raw part and no encoded pair, a number the reverse, nothing nothing |
| PlayersApi.SortIsLast | api/players.ts:446-450 | with a sort, its raw JSON is the last part of the query string |
| PlayersApi.RawPartsStart | api/players.ts:420-450 | every raw part begins with its field name |
| PlayersApi.SerializeStart | api/players.ts:417 | the encoded part never begins with '&' |
| PlayersApi.NoLeadingSeparator | api/players.ts:417-450 | the query string never begins with '&', whichever parts are present |
| PlayersApi.NoLimitInFilters | api/players.ts:309-408 | no filter group carries a `limit` pair |
| PlayersApi.LimitOnlyWhenTruthy | api/players.ts:306 | `limit` is sent, first, exactly when it is truthy; a limit of 0 is dropped |
| PlayersApi.DefinedFalsyKept | api/players.ts:322-323 | `chatRole` 0 and `chatBanned` false are still sent |
| PlayersApi.PlayerUrl | api/players.ts:460-469 | '/players/' followed by the id unchanged |
| PlayersApi.HistoryParams | api/players.ts:484-490 | at most five pairs; with a sort, the last is `sort` holding its JSON; without one, no `sort` pair |
| PlayersApi.HistoryParamsEmpty | api/players.ts:484-493 | no pairs exactly when no field is truthy and there is no sort |
| PlayersApi.PlayerHistoryUrl | api/players.ts:481-496 | '/players/{id}/history', with '?' and the query only when a pair is present |
| PlayersApi.PlayerChangelogsUrl | api/players.ts:501-516 | '/player-changelogs', with '?' and the query only when a pair is present |
| PlayersApi.CmsUserChangesUrl | api/players.ts:521-536 | '/cms-users/{id}/changes', with '?' and the query only when a pair is present |
| SeasonsApi.FilterParams | api/seasons.ts:84-89 | only the status, date-range and search keys |
| SeasonsApi.FilterKeysArePlain | api/seasons.ts:84-89 | no filter key is `limit`, `skip`, `select` or a `sort[...]` key |
| SeasonsApi.CountOmitsPaging | api/seasons.ts:80-122 | the count query has only filter pairs; the list query starts with the same pairs and adds limit and skip when truthy, two pairs for a sort and one per selected field |
| SeasonsApi.EmptyQueryUrls | api/seasons.ts:100-119 | an empty query goes to the bare '/seasons' and '/seasons/count' |
| SeasonsApi.SortBeforeSelect | api/seasons.ts:90-98 | a sort is sent as `sort[field]` then `sort[order]`, right after limit and skip |
| SeasonsApi.SeasonPaths | api/seasons.ts:145-175 | each action path is the season's path and one more segment, and different seasons never share a path |
| EventsApi.FilterParams | api/events.ts:107-113 | only the status, date-range and search keys |
| EventsApi.FilterKeysArePlain | api/events.ts:107-113 | no filter key is `limit`, `skip`, `select` or a `sort[...]` key |
| EventsApi.CountOmitsPaging | api/events.ts:103-147 | the count query has only filter pairs; the list query starts with the same pairs and adds limit and skip when truthy, two pairs for a sort and one per selected field |
| EventsApi.EmptyQueryUrls | api/events.ts:124-144 | an empty query goes to the bare '/events' and '/events/count' |
| EventsApi.SortBeforeSelect | api/events.ts:114-122 | a sort is sent as `sort[field]` then `sort[order]`, right after limit and skip |
| EventsApi.EventPaths | api/events.ts:160-187 | publish and archive are the event's path and one more segment, never the same, and different events never share a path |
| WeeksApi.CountParams | api/weeks.ts:82-85 | only season, week number and the two dates |
| WeeksApi.EmptyQueryUrls | api/weeks.ts:71-88 | an empty query goes to the bare '/weeks' and '/weeks/count' |
| WeeksApi.CountOmitsPaging | api/weeks.ts:59-91 | the count has no limit, skip or sort; the list holds the same filters after the paging pairs and ends with a plain `sort` pair when one is given |
| WeeksApi.SeasonIdTruthiness | api/weeks.ts:82 | a `seasonId` of the number 0 is dropped, the string '0' is sent |
| WeeksApi.WeekPaths | api/weeks.ts:104-129 | a season's week path is its weeks path and the week number; different week ids never share a path |
| ChangelogsApi.PageParams | api/changelogs.ts:52-55 | at most four paging and ordering pairs |
| ChangelogsApi.EmptyQueryUrls | api/changelogs.ts:34-123 | an empty query goes to the bare '/changelogs' and '/changelogs/count' |
| ChangelogsApi.CountIsListWithCountPath | api/changelogs.ts:20-125 | the count URL is the list URL with '/count' in the path; it keeps limit, offset and ordering |
| ChangelogsApi.HistoryIsListTail | api/changelogs.ts:44-82 | the history queries carry the same paging and ordering pairs the list query ends with |
| ChangelogsApi.HistoryBarePaths | api/changelogs.ts:57-80 | without paging or ordering the history requests go to their bare paths |
| ChangelogsApi.DateRangeParams | api/changelogs.ts:93-102 | the two dates come first, always |
| ChangelogsApi.DateRangeUrl | api/changelogs.ts:85-107 | the URL always has '?', and its query splits into the two date pairs first, even for empty dates |
| UsersApi.EntryParams | api/users.ts:26-35 | no pair exactly for null or undefined; an object `sort` as its JSON; any other value as its text |
| UsersApi.KeysArePresentKeys | api/users.ts:25-36 | every present key is sent once, in order, and no other; 0, false and '' included |
| UsersApi.GetUsersUrl | api/users.ts:20-43 | '/users' without params; otherwise the path with the pairs of the present keys, '?' only when some pair exists |
| UsersApi.AbsentValuesGiveBarePath | api/users.ts:24-40 | with only null and undefined values there are no pairs and the URL is '/users' |
| UsersApi.FalsyValuesSent | api/users.ts:27-33 | 0 is sent as '0' and false as 'false' |
| UsersApi.UserPaths | api/users.ts:49-82 | different users never share a path, and no user path is the bare '/users' |
| ServiceClient.TruthyMember | services/api/client.ts:76-89 | a member only when it is present and truthy |
| ServiceClient.StatusOf | services/api/client.ts:67-70 | 500 without a response |
| ServiceClient.HandleError | services/api/client.ts:62-121 | the thrown error has the status (500 without a response), the fixed text of 401, 403, 404, 422 and 500 or else the extracted message, the error's name or 'ApiError', and its `className` and `data` |
| ServiceClient.ResponseBodyFirst | services/api/client.ts:69-81 | with a response, a string body is the message; `error.data` and `error.message` are ignored |
| ServiceClient.NoResponseAlwaysServerError | services/api/client.ts:67-110 | without a response the status is 500 and its fixed text replaces whatever `error.data` or `error.message` said |
| ServiceClient.HandleErrorIntended | services/api/client.ts:62-121 | the same as `handleError` with a response; without one, status 500 and the extracted message |
| ServiceClient.IntendedKeepsNetworkMessage | services/api/client.ts:88-90 | under the corrected rule a network failure's own message reaches the caller |
| ServiceClient.RequestBody | services/api/client.ts:132-134 | a body exactly for a truthy body and a method other than GET, and it is the body's JSON |
| ServiceClient.GetNeverSendsBody | services/api/client.ts:132-162 | `get` never sends a body; every other verb sends a truthy one |
| ServiceClient.ApiClient.constructor | services/api/client.ts:24-26 | the given base URL and no token |
| ServiceClient.ApiClient.SetToken | services/api/client.ts:28-30 | the token is the given one |
| ServiceClient.ApiClient.BuildUrl | services/api/client.ts:32-46 | base and endpoint alone without params; with keys, '?' and every present entry, and '?' even when no entry survives |
| ServiceClient.ApiClient.BuildHeaders | services/api/client.ts:48-60 | always a Content-Type; Authorization exactly for a truthy token or a custom one; custom headers override both; no other header |
| ServiceClient.ApiClient.Request | services/api/client.ts:123-142 | the URL as `buildURL` makes it; the headers keep Content-Type, every custom header and, unless overridden, 'Bearer <token>'; GET by default; the body by the rule above; a fetched body is returned; a rejection throws `handleError`'s error as written |
| ServiceClient.ClearedTokenHeaders | services/api/client.ts:28-60 | after `setToken(null)` no Authorization header unless the caller passes one |
| ServiceClient.TokenHeaders | services/api/client.ts:28-60 | after `setToken(t)` every header build sends 'Bearer t' |
| Validation.EmailPatternAccepts | utils/validation.ts:258 | every address of the form part@part.part passes the pattern |
| Validation.EmailPatternShape | utils/validation.ts:258 | a passing address has exactly one '@' and no white space |
| Validation.Check | utils/validation.ts:250-282 | a message exactly when the check failed |
| Validation.ProfileErrors | utils/validation.ts:244-290 | at most five messages |
| Validation.PasswordErrors | utils/validation.ts:266-283 | at most three messages, and none without a new password |
| Validation.ValidateProfileUpdate | utils/validation.ts:244-290 | valid exactly when no check fails and exactly when there are no messages; each failed check files one message under its own field and in `errors`, in order; no other field |
| Validation.IdentityChecks | utils/validation.ts:249-263 | name and email are each checked only when present, and file their message under their own field |
| Validation.PasswordChecks | utils/validation.ts:266-283 | the three password checks, only with a new password, each filing its own field |
| Validation.NoPasswordChecksWithoutNewPassword | utils/validation.ts:266 | without a new password only name and email can fail |
| Validation.PasswordChecksIndependent | utils/validation.ts:266-283 | a short password without confirmation or current password reports all three, in order |
| Validation.EmptyFieldsAreNotChecked | utils/validation.ts:249-258 | an empty name or email is not checked |
| Validation.GoodPasswordChangePasses | utils/validation.ts:266-283 | a matching password of six or more with the current one given passes |
| Validation.GeneralMessages | utils/validation.ts:103-104 | never more general messages than errors |
| Validation.FieldMessages | utils/validation.ts:96-101 | never more field messages than errors |
| Validation.FieldMessagesEmpty | utils/validation.ts:96-101 | a field has no messages exactly when no error names it |
| Validation.FieldMapAgrees | utils/validation.ts:92-101 | the built object holds exactly the fields with messages, each with its messages in order |
| Validation.GroupErrors | utils/validation.ts:92-105 | the loop produces the general messages and, for exactly the named fields, their messages |
| Validation.ValidateWithSchema | utils/validation.ts:86-145 | valid data gives empty results; otherwise the validator's errors (none without a list) are grouped into general and field messages |
| Validation.FieldOfDropsFirstSlash | utils/validation.ts:98 | only the first '/' of a path is dropped |
| Validation.GroupingCounts | utils/validation.ts:95-105 | every error lands in exactly one place |
| Validation.CountWithPath | utils/validation.ts:96 | never more than the errors |
| Validation.ActualError | utils/validation.ts:150-160 | the response body when there is one, `data` when there is no response, else the error itself |
| Validation.ElementMessages | utils/validation.ts:167 | defined exactly when no element is null, one message per element |
| Validation.StatusMessage | utils/validation.ts:219-240 | the network text for status 0 or 500, fixed texts for 404, 403 and 429, else the unexpected-error text |
| Validation.MapBackendError | utils/validation.ts:148-241 | throws only for a known error name; a body without a known name gets the status text |
| Validation.ResponseBodyWins | utils/validation.ts:150-155 | with a response body, `data` and the error's own members are ignored |
| Validation.EmptyResponseIgnoresData | utils/validation.ts:150-160 | a response without a body falls back to the error itself, not to `data` |
| Validation.NameBeforeStatus | utils/validation.ts:148-241 | a Conflict about an email is a duplicate whatever the status |
| Validation.FieldErrorsJoined | utils/validation.ts:163-169 | the field errors of a BadRequest are joined by '. ' |
| NakamaFilters.Set | composables/useNakamaFilters.ts:86-88 | the key now holds the value and every other key is unchanged |
| NakamaFilters.Entry | composables/useNakamaFilters.ts:36-70 | a query entry exactly when the key is active, holding its name and value |
| NakamaFilters.CountIsQueryLength | composables/useNakamaFilters.ts:31-112 | the active count equals the number of keys the query sets, at most 15 |
| NakamaFilters.DefaultsAreInactive | composables/useNakamaFilters.ts:6-28 | with the default filters nothing is active, the count is 0 and the query is empty |
| NakamaFilters.CountImpliesFlag | composables/useNakamaFilters.ts:9-112 | a positive count implies `hasActiveFilters` |
| NakamaFilters.EmptyLocationFlagsWithoutCount | composables/useNakamaFilters.ts:12-95 | the converse fails: an empty location raises the flag but is neither counted nor sent |
| NakamaFilters.ChatRoleZeroIsSent | composables/useNakamaFilters.ts:37 | chat role 0 is active and sent as 0 |
| NakamaFilters.RangeEntryShape | composables/useNakamaFilters.ts:41-64 | a range is sent exactly when a bound is off its default, as '<lo>-<hi>' |
| NakamaFilters.FilterPanel.constructor | composables/useNakamaFilters.ts:6 | the filters start at their defaults |
| NakamaFilters.FilterPanel.ClearFilters | composables/useNakamaFilters.ts:76-78 | every key back to its default |
| NakamaFilters.FilterPanel.ResetFilters | composables/useNakamaFilters.ts:81-83 | every key back to its default |
| NakamaFilters.FilterPanel.UpdateFilter | composables/useNakamaFilters.ts:86-88 | only that key changes |
| NakamaFilters.FilterPanel.BuildFilterQuery | composables/useNakamaFilters.ts:31-73 | one entry per active key, in declaration order, as many as the active count |
| NakamaFilters.FilterPanel.GetActiveFilterCount | composables/useNakamaFilters.ts:91-112 | the count of active keys, equal to the query's length, at most 15, and positive only with the flag raised |
| NakamaFilters.AddEntry | composables/useNakamaFilters.ts:36-70 | one step adds the key's entry exactly when it is active |
| NakamaFilters.CountIfActive | composables/useNakamaFilters.ts:95-109 | one step adds one exactly when the key is active |
| NakamaFilters.ActiveKeyIsSent | composables/useNakamaFilters.ts:31-73 | every active key is sent with its value |
| NakamaUsers.Assign | composables/useNakamaUsers.ts:83-87 | assigning a key keeps the object's size or adds one entry |
| NakamaUsers.LookupAssign | composables/useNakamaUsers.ts:83-87 | after `params[key] = v` the key reads `v` and every other key reads as before |
| NakamaUsers.PagingPart | composables/useNakamaUsers.ts:59-67 | exactly the `limit` and `skip` entries |
| NakamaUsers.SearchPart | composables/useNakamaUsers.ts:70-73 | at most a `search` entry |
| NakamaUsers.SortPart | composables/useNakamaUsers.ts:76-79 | at most a `sort` entry |
| NakamaUsers.BuildBaseParams | composables/useNakamaUsers.ts:56-79 | the paging, search and sort entries, as the specification function gives them |
| NakamaUsers.BuildLoadParams | composables/useNakamaUsers.ts:56-87 | the base entries followed by every filter that is sent |
| NakamaUsers.LookupAppend | composables/useNakamaUsers.ts:56-87 | reading a key from a concatenation takes the first part's value when it has one |
| NakamaUsers.PagingParams | composables/useNakamaUsers.ts:59-67 | "All" (-1) asks for 10000 users from 0; a page size asks for `(page - 1) * limit` onwards |
| NakamaUsers.SearchParam | composables/useNakamaUsers.ts:70-73 | the trimmed search is sent exactly when it is not blank |
| NakamaUsers.BlankSearchNotSent | composables/useNakamaUsers.ts:70-73 | a blank term adds nothing between paging and sort |
| NakamaUsers.UnsentFilterIgnored | composables/useNakamaUsers.ts:83-87 | a null, undefined or '' filter leaves the parameters as they were |
| NakamaUsers.SentFilterRead | composables/useNakamaUsers.ts:83-87 | a sent filter reads as its text, and 0 and false are sent |
| NakamaUsers.CacheKeyParams | composables/useNakamaUsers.ts:35-42 | the six cache-key entries |
| NakamaUsers.CacheKeyParamsRead | composables/useNakamaUsers.ts:35-42 | the six keys are distinct and each reads back its value |
| NakamaUsers.ChatRoleColor | composables/useNakamaUsers.ts:243-251 | grey exactly for a role other than 0, 1 and 2 |
| NakamaUsers.ChatRoleLabel | composables/useNakamaUsers.ts:254-262 | 'Unknown' exactly for a role other than 0, 1 and 2 |
| NakamaUsers.LabelMatchesColour | composables/useNakamaUsers.ts:243-262 | label and colour pick the same role: User/blue, Mod/orange, Admin/red, Unknown/grey |
| NakamaUsers.TotalPages | composables/useNakamaUsers.ts:282-288 | 1 for "All"; otherwise the least number of pages that holds `total` |
| NakamaUsers.FailureNotice | composables/useNakamaUsers.ts:102-110 | an error notice whose text is the message the generic handler extracts: a thrown string itself, never empty for an object |
| NakamaUsers.NakamaUsersTable.constructor | composables/useNakamaUsers.ts:18-31 | no users, page 1 of size 10, total 0, empty search by username, sort by username ascending, no filters |
| NakamaUsers.NakamaUsersTable.LoadPage | composables/useNakamaUsers.ts:137-152 | requests that page under the current settings; on success the users, total and page are replaced and an info notice names the page; on failure they are kept and the error notice with the generic handler's message is returned |
| NakamaUsers.NakamaUsersTable.StorePage | composables/useNakamaUsers.ts:140-147 | on success the fetched page replaces the shown one with its info notice; on failure the page is kept and the error notice returned; settings unchanged |
| NakamaUsers.NakamaUsersTable.LoadInitialUsers | composables/useNakamaUsers.ts:117-134 | requests page 1 under unchanged settings; on success the users and total are replaced and the page is 1, with a success notice exactly when some users came back; on failure the users, total and page are kept and the error notice with the generic handler's message is returned |
| NakamaUsers.NakamaUsersTable.UpdateItemsPerPage | composables/useNakamaUsers.ts:155-158 | the new size, the other settings unchanged, then page 1 is requested with it; on success the users, total and page are replaced and the page's info notice returned; on failure they are kept and the error notice with the generic handler's message is returned; the size stays changed either way |
| NakamaUsers.NakamaUsersTable.SearchUsers | composables/useNakamaUsers.ts:161-165 | the new term and field, the other settings unchanged, then page 1 is requested with it; on success the users, total and page are replaced and the page's info notice returned; on failure they are kept and the error notice with the generic handler's message is returned |
| NakamaUsers.NakamaUsersTable.SortUsers | composables/useNakamaUsers.ts:168-172 | the new sort, the other settings unchanged, and the current page is requested with it; on success the users, total and page are replaced and the page's info notice returned; on failure they are kept and the error notice with the generic handler's message is returned |
| NakamaUsers.NakamaUsersTable.ClearSearch | composables/useNakamaUsers.ts:175-179 | an empty term and the username field, the other settings unchanged, then page 1 without a search; on success the users, total and page are replaced and the page's info notice returned; on failure they are kept and the error notice with the generic handler's message is returned |
| NakamaUsers.NakamaUsersTable.ApplyFilters | composables/useNakamaUsers.ts:182-185 | the new filters, the other settings unchanged, then page 1 is requested with them; on success the users, total and page are replaced and the page's info notice returned; on failure they are kept and the error notice with the generic handler's message is returned |
| NakamaUsers.NakamaUsersTable.ClearFilters | composables/useNakamaUsers.ts:188-191 | no filters, the other settings unchanged, then page 1 without any; on success the users, total and page are replaced and the page's info notice returned; on failure they are kept and the error notice with the generic handler's message is returned |
| NakamaUsers.AllHasOnePage | composables/useNakamaUsers.ts:282-288 | "All" has a single page |
| NakamaUsers.PagingFlags | composables/useNakamaUsers.ts:290-304 | "All" has neither a next nor a previous page; the last page has no next; a next page means users remain; a previous page exactly past page 1 |
| UsersComposable.FilterUsers | composables/useUsers.ts:215-228 | keeps exactly the users the field test accepts, never more than were given |
| UsersComposable.SearchUsers | composables/useUsers.ts:211-229 | a blank term returns the list itself; otherwise exactly the users whose chosen field contains the lower-cased term |
| UsersComposable.UnknownFieldSearchesAll | composables/useUsers.ts:223-226 | a field other than name, email or id matches when any of the three does |
| UsersComposable.FilterKeepsOrder | composables/useUsers.ts:215 | the kept users appear in their original order |
| UsersComposable.SearchIgnoresTermCase | composables/useUsers.ts:214 | searching for the lower-cased term gives the same users |
| UsersComposable.Insert | composables/useUsers.ts:233-246 | one more element, the same users plus the new one |
| UsersComposable.InsertSorted | composables/useUsers.ts:233-246 | inserting into a sorted list keeps it sorted |
| UsersComposable.SortBy | composables/useUsers.ts:233-246 | a permutation of the list |
| UsersComposable.SortBySorted | composables/useUsers.ts:233-246 | the result is sorted by the comparator |
| UsersComposable.SortUsers | composables/useUsers.ts:232-247 | a permutation of the users, sorted ascending for 'asc' and descending otherwise, strings compared lower-cased |
| UsersComposable.InsertWithKey | composables/useUsers.ts:233-246 | an inserted user goes ahead of every user that shares its key, and the others with that key keep their order |
| UsersComposable.SortByStable | composables/useUsers.ts:233-246 | the sort is stable, as `Array.prototype.sort` is: the users sharing any one key keep their relative order |
| UsersComposable.UnknownSortFieldKeepsOrder | composables/useUsers.ts:234-245 | a field the record lacks compares all pairs equal, so the stable sort keeps the order |
| UsersComposable.FindIndex | composables/useUsers.ts:117 | -1 exactly when no user has the id; otherwise the first index holding it |
| UsersComposable.RemoveId | composables/useUsers.ts:156 | exactly the users with another id |
| UsersComposable.RemoveAbsentId | composables/useUsers.ts:156 | removing an id nobody has changes nothing |
| UsersComposable.BlacklistTarget | composables/useUsers.ts:183 | the first list entry with the id, else the user on display |
| UsersComposable.UserList.constructor | composables/useUsers.ts:18-32 | an empty list, no user on display, count 0, no error |
| UsersComposable.UserList.LoadUsers | composables/useUsers.ts:35-71 | on success the list and its count are replaced, with 'Loaded N users successfully' only when users came back, and the stored error is kept (the shared handler's `clearError` does not reset it); on failure the message is the error and the list is kept |
| UsersComposable.UserList.GetUser | composables/useUsers.ts:74-103 | on success the returned user is on display and the stored error is kept; on failure the error is stored and the list untouched |
| UsersComposable.UserList.UpdateUser | composables/useUsers.ts:106-142 | on success only the first entry with the id becomes the returned user, and the user on display too when its id matches, and the stored error is kept; on failure nothing but the error changes |
| UsersComposable.UserList.DeleteUser | composables/useUsers.ts:145-177 | on success every entry with the id is removed, the count is the new length and the user on display is cleared when it matches, and the stored error is kept; on failure only the error changes |
| UsersComposable.UserList.ToggleBlacklist | composables/useUsers.ts:180-208 | no target fails with 'User not found' and sends nothing; otherwise the negated flag is requested and the notice says 'added to' or 'removed from' |
| UsersComposable.UserList.ClearUserError | composables/useUsers.ts:280-283 | the error is cleared and nothing else changes |
| UsersComposable.DeleteIsIdempotent | composables/useUsers.ts:156 | after a delete no entry has the id, and deleting again changes nothing |
| UsersComposable.ListEntryBeatsCurrentUser | composables/useUsers.ts:183 | a list entry with the id wins over the user on display |
| UsersComposable.RoleColor | composables/useUsers.ts:250-257 | grey exactly for a role other than admin, mod and user |
| UsersComposable.RoleIcon | composables/useUsers.ts:260-267 | the question-mark icon exactly for a role other than admin, mod and user |
| UsersComposable.RoleColorAndIconAgree | composables/useUsers.ts:250-267 | two roles share a colour exactly when they share an icon |
| Form.FirstNaming | composables/useForm.ts:42-47 | none exactly when no general error names the field; otherwise the earliest one that does |
| Form.ValidResultClearsError | composables/useForm.ts:31-36 | a valid verdict leaves the field's error '' |
| Form.FieldErrorsComeFirst | composables/useForm.ts:38-39 | a field-specific error wins over the general errors |
| Form.GeneralErrorFallback | composables/useForm.ts:40-48 | without a field entry the error is the earliest general error naming the field, else '' |
| Form.ClearedErrorsDoNotBlock | composables/useForm.ts:55-62 | with every error cleared, the form is valid exactly when every field is filled in |
| Form.UndefinedErrorBlocks | composables/useForm.ts:56 | an `undefined` error keeps the form invalid |
| Form.FormModel.constructor | composables/useForm.ts:9-14 | the data is a copy of the initial data, no errors, not valid, not loading, empty banners |
| Form.FormModel.UpdateFormValidity | composables/useForm.ts:55-62 | valid exactly when every field is filled in and no error is non-empty; nothing else changes |
| Form.FormModel.ValidateField | composables/useForm.ts:27-52 | only that field's error changes, to the validator's verdict on the current data, and validity is recomputed |
| Form.FormModel.SetField | composables/useForm.ts:100-103 | the field takes the value and the watcher recomputes validity |
| Form.FormModel.ResetForm | composables/useForm.ts:65-71 | the initial data, no errors, empty banners, not valid; loading kept |
| Form.FormModel.SetLoading | composables/useForm.ts:74-76 | only the loading flag changes |
| Form.FormModel.SetError | composables/useForm.ts:79-82 | the error banner is set and the success banner cleared |
| Form.FormModel.SetSuccess | composables/useForm.ts:85-88 | the success banner is set and the error banner cleared |
| Form.FormModel.ClearError | composables/useForm.ts:91-93 | only the error banner is cleared |
| Form.FormModel.ClearSuccess | composables/useForm.ts:96-98 | only the success banner is cleared |
| Form.ResetThenValidity | composables/useForm.ts:55-71 | straight after a reset the form is invalid, and a recomputation makes it valid exactly when the initial data is complete |
| PasswordChange.UpdateFailureText | composables/usePasswordChange.ts:119 | the profile handler's text for a failed update: its default without an error, its own wording for a code it knows, else the common message |
| PasswordChange.ThrownText | composables/usePasswordChange.ts:134 | never empty; the thrown message when it has one |
| PasswordChange.Required | composables/usePasswordChange.ts:32 | passes exactly for a non-empty value |
| PasswordChange.MinLength | composables/usePasswordChange.ts:33 | passes exactly from 6 characters |
| PasswordChange.PasswordMatch | composables/usePasswordChange.ts:34-37 | passes exactly for a non-empty value equal to the new password; empty asks for a confirmation |
| PasswordChange.FormCheck | composables/usePasswordChange.ts:80-99 | no message exactly when all three fields are set, the new password has 6 characters and is confirmed; otherwise the first failing check's message in source order |
| PasswordChange.FormCheckAgreesWithRules | composables/usePasswordChange.ts:31-99 | the submit-time check passes exactly when the field rules all pass |
| PasswordChange.MissingFieldReportedFirst | composables/usePasswordChange.ts:80-85 | an empty current password is reported as a missing field whatever else is wrong |
| PasswordChange.PasswordDialog.constructor | composables/usePasswordChange.ts:14-28 | closed, not loading, empty fields, every password hidden |
| PasswordChange.PasswordDialog.OpenPasswordModal | composables/usePasswordChange.ts:41-47 | empty fields, the handler's error cleared, the dialog open; visibility kept |
| PasswordChange.PasswordDialog.ClosePasswordModal | composables/usePasswordChange.ts:50-59 | closed, empty fields, every password hidden, the handler's error cleared |
| PasswordChange.PasswordDialog.ToggleCurrentPasswordVisibility | composables/usePasswordChange.ts:62-64 | only that flag flips |
| PasswordChange.PasswordDialog.ToggleNewPasswordVisibility | composables/usePasswordChange.ts:66-68 | only that flag flips |
| PasswordChange.PasswordDialog.ToggleConfirmPasswordVisibility | composables/usePasswordChange.ts:70-72 | only that flag flips |
| PasswordChange.PasswordDialog.ChangePassword | composables/usePasswordChange.ts:75-139 | a failed check returns its message and sends nothing; otherwise the current and new password are sent for the signed-in user; success closes the dialog, a failed reply returns the handler's text and stores it as the handler's error, a throw its message; on every path but success the dialog, its fields and its visibility flags are unchanged, and without a reply the handler's error too; never left loading |
| PasswordChange.ToggleTwice | composables/usePasswordChange.ts:62-72 | toggling twice restores the flag |
| ProfileEdit.MinLength | composables/useProfileEdit.ts:26 | passes exactly for empty or from 2 characters |
| ProfileEdit.EmailRule | composables/useProfileEdit.ts:27-31 | passes exactly for empty or a value the address pattern accepts |
| ProfileEdit.Changed | composables/useProfileEdit.ts:58-64 | a field is sent exactly when it is non-empty and differs from the signed-in user's, and then as typed |
| ProfileEdit.Saved | composables/useProfileEdit.ts:77-84 | the user keeps id, role, flag and creation time, takes the sent name and email, and the new timestamp when one came back |
| ProfileEdit.UnchangedFormSendsNothing | composables/useProfileEdit.ts:58-67 | unchanged or emptied fields give an empty diff |
| ProfileEdit.SavedTakesFormValues | composables/useProfileEdit.ts:58-84 | after a save the user's name and email are the form's values |
| ProfileEdit.ProfileDialog.constructor | composables/useProfileEdit.ts:14-22 | closed, not loading, empty fields |
| ProfileEdit.ProfileDialog.OpenEditModal | composables/useProfileEdit.ts:35-40 | the fields copied from the signed-in user ('' without one), the handler's error cleared, the dialog open |
| ProfileEdit.ProfileDialog.CloseEditModal | composables/useProfileEdit.ts:43-48 | closed, empty fields, the handler's error cleared |
| ProfileEdit.ProfileDialog.SaveProfile | composables/useProfileEdit.ts:51-114 | an empty diff closes and succeeds without a request; otherwise the diff is sent, success updates the signed-in user and closes (clearing the handler's error and message), a failed reply returns the handler's text and records the reply's error and that text, a throw or a missing user returns its message; every failure keeps the dialog, its fields and (without a reply) the handler's error and message; the store's token, loading flag and error are untouched |
| DateUtils.FormatWith | composables/useDateUtils.ts:3-12 | 'N/A' for a falsy date, else the locale rendering |
| DateUtils.ElapsedSeconds | composables/useDateUtils.ts:20 | the whole seconds elapsed, rounded down, also for dates in the future |
| DateUtils.FormatRelativeTime | composables/useDateUtils.ts:15-28 | 'N/A' for a falsy date, else the bucket text of the elapsed seconds |
| DateUtils.FutureIsJustNow | composables/useDateUtils.ts:20-22 | a date in the future or under a minute ago reads 'Just now' |
| DateUtils.RelativeBuckets | composables/useDateUtils.ts:22-27 | each bucket covers its range and shows the whole number of its units, at least one (minutes below 60, hours below 24, days below 30, months at most 12) |
| DateUtils.AgoIsNotJustNow | composables/useDateUtils.ts:22-27 | a count text never reads 'Just now' |
| DateUtils.TwelveMonths | composables/useDateUtils.ts:26 | 362 days read '12 months ago', since months are 30 days |
| DateUtils.IsToday | composables/useDateUtils.ts:31-36 | false for a falsy date, else whether the local calendar days agree |
| DateUtils.IsThisWeek | composables/useDateUtils.ts:39-46 | false for a falsy date |
| DateUtils.IsThisWeekWindow | composables/useDateUtils.ts:43-45 | true exactly when the dates are at most seven days apart, in either direction, and symmetric |
| UserRole.RoleColor | composables/useUserRole.ts:3-11 | 'accent' exactly for 'admin' in any letter case, 'primary' otherwise |
| UserRole.RoleColorIgnoresCase | composables/useUserRole.ts:4 | roles equal after lower-casing get the same colour |
| GlobalGuard.Decide | middleware/auth.global.ts:9-33 | login for a protected prefix without a session, the dashboard for a login or register prefix with one, the dashboard for '/admin' without admin or '/mod' without moderator, otherwise no redirect, in that order |
| GlobalGuard.AdminPath | middleware/auth.global.ts:10-28 | on '/admin' a signed-out visitor goes to login, a non-admin to the dashboard, an admin stays |
| GlobalGuard.PrefixCountsAsProtected | middleware/auth.global.ts:13 | '/usersettings' counts as protected through the '/users' prefix |
| GlobalGuard.AdminRedirectedFromModPath | middleware/auth.global.ts:31-33 | a signed-in admin on a '/mod' path is sent to the dashboard, because the auth store's `isModerator` means exactly 'mod' |
| GlobalGuard.Guard | middleware/auth.global.ts:1-34 | on the client during initialisation the session is restored first: with a stored token and a user that parses, that token and user are signed in; with a user that does not parse, the session and both keys are cleared; without both keys nothing changes; initialisation ends. Off the client or after initialisation the store is untouched. The decision reads the store as it then is |
| AuthGuard.Decide | middleware/auth.ts:5-21 | no redirect without `requiresAuth`; with it, login carrying the path as `redirect` exactly when signed out |
| AuthGuard.Guard | middleware/auth.ts:5-21 | redirects exactly when the route requires a session and the user store lacks a token or a user |
| AuthGuard.RedirectKeepsPath | middleware/auth.ts:12-15 | the login redirect carries the full path back |
| AdminGuard.Decide | middleware/admin.ts:5-23 | login with the path when signed out, access denied ('admin-required') when not admin, otherwise no redirect |
| AdminGuard.SignedOutNeverDenied | middleware/admin.ts:9-21 | a signed-out visitor never sees the access-denied page |
| AdminGuard.Guard | middleware/admin.ts:5-23 | against the user store: signed-in visitors pass exactly with role 'admin', otherwise access denied |
| ModeratorGuard.Decide | middleware/moderator.ts:5-23 | login with the path when signed out, access denied ('moderator-required') when not moderator, otherwise no redirect |
| ModeratorGuard.SignedOutNeverDenied | middleware/moderator.ts:9-21 | a signed-out visitor never sees the access-denied page |
| ModeratorGuard.Guard | middleware/moderator.ts:5-23 | against the user store: signed-in visitors pass exactly with role 'mod' or 'admin' |

## Left out

- Network I/O is not modelled: `fetch`/`$fetch`, body parsing and the abort timer. Each request's outcome is a parameter: a body, an abort, or a failure with its message.
- Clocks, ids and timers are not modelled. `Date.now()`, ISO timestamps and random ids are parameters. `setTimeout` removals and loading timeouts are recorded as scheduled, and an explicit method stands for a timer that fires.
- Concurrency is not modelled. Calls are sequential, so the single-flight behaviour of `getOrSet` and races between overlapping request-tracking or loading wrappers are absent.
- JavaScript numbers are modelled as unbounded integers. Fractions (the win-ratio slider), `NaN` and the infinities are absent, and so is `cacheStats.hitRate`.
- Strings are sequences of Unicode code points, not UTF-16 code units. Lengths, `<` comparisons and `JSON.stringify` escapes agree only for characters in the Basic Multilingual Plane.
- `toLowerCase` is modelled on ASCII letters only.
- Objects keep their members in insertion order. JavaScript's rule of putting integer-like keys first (affecting `Object.keys`, `JSON.stringify` and `generateKey`) is not modelled.
- Locale-dependent rendering is a parameter: `toLocaleDateString`, `toLocaleString` and `toDateString`, and the local calendar day that `isToday` compares.
- `formatCurrency` and `formatPercentage` of `useNakamaUsers` are left out (locale and floating-point formatting through `Intl`). So are `formatDate` and `formatDateTime` of `useUsers`, which are locale rendering.
- `getNakamaUser` and `updateNakamaUser` of `useNakamaUsers` are left out: they forward one request and report its result through notifications.
- AJV schema compilation and format checking are not modelled. A validator's verdict and its error list are inputs.
- Console output is not modelled. Notifications are modelled in three places: the players and users error handlers add theirs to the UI store, and the game-user table returns its notices, the error notice of a failed load included. Elsewhere they are left out: the profile and password dialogs, `useUsers` and `useAuth`.
- The request-tracking, cache and loading wrappers around composable calls are not modelled. `UsersComposable.UserList.LoadUsers` and `NakamaUsers.NakamaUsersTable.LoadPage` receive the outcome of the request; a cache hit that skips the request is not modelled.
- The outcome of `JSON.parse` on a stored user is a parameter.
- Backend error messages are strings; a non-string `message` is not modelled.
- Thin wrappers and re-exports are not part of this model: the services' auth, users and nakama wrappers, `composables/api/*`, the index files, the plugins and `useAuth`'s orchestration. Neither is the module error-handler template.
- Vue reactivity is not modelled. The deep watcher of `useForm` is the method `Form.FormModel.SetField`, which recomputes validity after a change.
- NakamaUsers.NakamaUsersTable.UpdateItemsPerPage: the page size is kept to the select's options (10, 25, 50, 100 and -1 for "All"), which the source's type does not enforce.
- PlayersApi: the history, changelog and CMS-user builders serialise `query.sort` as an object with `field` then `order`; another member order in the caller's object is not modelled.
- UsersComposable.UserList: the shared error handler is not modelled; a failure's stored text is the message the failure carries.
- Notifications.Notifications.ClearNotificationsByType: the evidently intended removal of one kind is not modelled. Even with the read repaired, the new list would be assigned to a computed without a setter, and the store has no operation that replaces its list.
- Notifications: the per-kind computeds (`successNotifications` and the rest) read the same undefined value and throw like `hasNotifications`. They are not modelled separately.
- HttpClient.ApiClient.Get: the WHATWG URL parser and serialiser are reduced to two cases. A joined string with no ':' throws. Any other string is treated as an absolute URL whose text is kept, followed by '?' and the parameters. Not modelled: the parser's other failures (such as 'http://' or a bad port), its normalisation of host and path, its percent-encoding of characters such as '"' or a space in the path, a query already in the path (the parameters join it with '&'), and a fragment (the query goes before it).
- NakamaUsers.NakamaUsersTable.SearchUsers: the field is always passed; the source's default field 'all' is left to the caller.
- ErrorHandler.NumberOf: only strings of decimal digits convert to numbers. JavaScript also converts strings with surrounding white space, a sign, a fraction, an exponent or a hex, octal or binary prefix (' 500', '-1', '5e2', '0x1f4'); the model treats them as NaN.
- NakamaUsers.NakamaUsersTable.LoadPage: on a failed load only the error notice of `handleApiError` is modelled. The handler's recording of the error is not: its own error ref and the `api` store's error list. The same holds for every table method that loads.
- BaseErrorHandler.MessageTexts: a null element of `details.errors` is rendered as ''; the source throws a TypeError at `e.message` instead. The throw is therefore not propagated through `FormatValidationValue`, `FormatValidationErrors`, `ValidationText`, `AuthErrors.AuthText`, `ProfileErrors.ProfileText` or the auth and profile handlers that use them.
- UserStore.MessageOr: a truthy message that is not a string (a number, say) would itself become the stored error in the source; the model falls back to the default text for it.

## Findings

| source | as written | input that shows it | evidently intended | confidence | as-written member | corrected member |
|---|---|---|---|---|---|---|
| services/api/client.ts:62-110 | `statusCode` starts at 500 and only a response changes it, so the `case 500` rewrite replaces every message extracted from `error.data` or `error.message` when there is no response | a network failure with no response and message 'fetch failed' is thrown as 'Server error. Please try again later.' | without a response, keep the extracted message (status 500) | not executed | ServiceClient.NoResponseAlwaysServerError | ServiceClient.HandleErrorIntended |
| composables/ui/useNotifications.ts:25-32 | `currentNotifications` is destructured from the setup store, so it is the unwrapped array and `currentNotifications.value` is `undefined`; every read of the `notifications` computed throws | one error notification in the store; `getNotificationCount('error')` throws a TypeError | read the store list through `storeToRefs`, so the count is 1 | not executed | Notifications.CountThrowsOnOneError | Notifications.Notifications.NotificationCount |
