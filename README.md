# otlob-qr front-end: session, list-state and routing model

This project models the logic of the otlob-qr web front-end, a Next.js client for
a restaurant QR-menu platform, and proves properties of that model. Three parts
are covered:

- **The session and token machinery.** This is the axios request and response
  interceptors of `lib/api.ts` and the `authService` of `lib/auth.ts`.
  - `localStorage` is a `map<string, string>`.
  - The `subscriptionExpired` JSON entry is a `Notice` record.
  - Every HTTP call and every navigation is recorded as an `Event` in the browser's trace.
  - The outcome of each request, including the refresh call and the resent request, is an input.
- **The page handlers.**
  - The owner dashboard (`app/dashboard/page.tsx`): category and item list updates, the `loadingActions` re-entrancy guard, the image check and the QR-code regeneration sequence.
  - The administrator page (`app/admin/page.tsx`): restaurant list, remaining-days badge, card actions and the forms.
  - The login page (`app/login/page.tsx`).
  - The restaurant settings page (`app/dashboard/settings/page.tsx`).
  - The dashboard layout (`app/dashboard/layout.tsx`).
  - The subscription-expired page (`app/dashboard/subscription-expired/page.tsx`).

  Each page is a class whose fields are the page's React state. Each handler is a method that states the page's whole new state, and the effects it adds to the browser's trace, from the replies it is given.
- **The validators and route computations.** These are pure functions with lemmas:
  - the password rules and their order;
  - the image MIME and size check;
  - the role-based redirect;
  - navigation-link matching;
  - the last-path-segment extraction;
  - remaining days and their urgency, computed on integer milliseconds.

Files:

| file | contents |
|---|---|
| `wrappers.dfy` | `Option` |
| `browser.dfy` | the browser: storage, the expiry notice slot, pathname, and the trace of calls and navigations |
| `strings.dfy` | substring search, split/join, last path segment, `String.prototype.trim` |
| `lists.dfy` | `Array.prototype.filter` and `map` on sequences |
| `api.dfy` | the interceptors as functions on a `State`, their properties, and the `Client` class proved against them |
| `auth.dfy` | `authService` |
| `feedback.dfy` | the toast record and the `error.response?.data?.message \|\| fallback` rule |
| `upload.dfy` | the image type and size check shared by two pages |
| `dashboard.dfy`, `admin.dfy`, `login.dfy`, `settings.dfy`, `layout.dfy`, `expired.dfy` | one module per page |

## Model

| member | source | states |
|---|---|---|
| Api.ApiUrl | lib/api.ts:3 | the base URL is the environment value when it is set and non-empty, and the local default otherwise; it is never empty |
| Api.WithBearer | lib/api.ts:13-21 | `Authorization` becomes `Bearer <token>` exactly when a non-empty access token is stored; otherwise the headers are unchanged; no other header is added, removed or changed |
| Api.Client.Authorize | lib/api.ts:13-21 | the request interceptor rewrites the request's headers as `WithBearer` says and leaves its `_retry` flag alone |
| Api.WithHint | lib/api.ts:28-42 | an error without a response keeps its code; its message becomes the "cannot connect to API_URL" hint exactly when the code is `ECONNREFUSED` or the message contains "Network Error"; otherwise the error is unchanged |
| Api.ExpiryNotice | lib/api.ts:50-53 | the stored notice carries the server's message, or the default Arabic text when that is missing or empty, and the server's `expiredAt` |
| Api.Classify | lib/api.ts:26-91 | the interceptor's branches in their fixed order: no response, then 403 with `SUBSCRIPTION_EXPIRED`, then 401 not yet retried, then reject; each is stated as an if-and-only-if |
| Api.OnError | lib/api.ts:26-91 | the response interceptor only appends to the trace. A transport error is rejected with the hinted message and nothing else changes. A rejected branch returns the original error with no effect. A 401 always leaves `_retry` set. An already-retried request is rejected with storage and headers untouched. A resolved result is the resent request's result |
| Api.Dispatch | lib/api.ts:13-26 | one pass through axios: the trace grows by at least the call; a resolved result is the first reply or the resent one; `_retry` ends set exactly when it was set or a 401 came back |
| Api.Client.Send | lib/api.ts:13-26 | sending a request changes the browser and the request exactly as `Dispatch` says, and never the pathname |
| Api.Client.OnResponseError | lib/api.ts:26-91 | the error handler changes the browser and the request exactly as `OnError` says |
| Api.RenewedCredentials | lib/api.ts:72-79 | after a refresh, the new access token is stored and put in the bearer header; the refresh token is replaced only when the reply carries one; every other storage key and every other header keeps its value, and no other key is added; trace, notice and `_retry` are unchanged |
| Api.SubscriptionExpiredEffects | lib/api.ts:47-60 | a 403 `SUBSCRIPTION_EXPIRED` stores the notice and rejects with the original error. It leaves tokens and headers alone. It navigates to the expired page exactly when the path does not contain `/subscription` |
| Api.NoRefreshTokenRejects | lib/api.ts:62-90 | a first 401 with no stored refresh token only marks the request retried and rejects with the original error: no refresh call, no storage change, no navigation |
| Api.RefreshFailureEndsSession | lib/api.ts:82-87 | a failed refresh removes both tokens and keeps every other key. It records the refresh call and then the navigation to `/login`, and it rejects with the refresh error |
| Api.RefreshSuccessResends | lib/api.ts:65-81 | a successful refresh stores the new tokens and sets the new bearer. Every other storage key and every other header keeps its value. The trace gains exactly the refresh call and one resend of the original request, followed at most by the expired-page redirect of the resend's own 403; it never navigates to `/login`. A resolved resend is the result, and a failed resend is a rejection |
| Api.RetriedNeverNavigatesToLogin | lib/api.ts:62-63 | an error on an already-retried request adds at most the navigation to the expired page |
| Api.RetriedAddsNoRefresh | lib/api.ts:62-63 | an error on an already-retried request issues no refresh call |
| Api.RefreshedAddsOneRefresh | lib/api.ts:62-81 | a first 401 with a refresh token and a successful refresh issues exactly one refresh call, the resent request's own failure included |
| Api.AtMostOneRefresh | lib/api.ts:62-90 | any error on any request issues exactly one refresh call when it is a first 401 and a refresh token is stored, and none otherwise |
| Api.RefreshCountAppend | lib/api.ts:68-70 | the number of refresh calls in a trace is additive over concatenation |
| Auth.SessionAfter | lib/auth.ts:25-28 | both tokens are written exactly when the reply resolved with a non-empty access token; otherwise storage is unchanged; no other key changes |
| Auth.RegisterBody | lib/auth.ts:18-24 | the register body holds phone and password, and the optional names only when given |
| Auth.LoginBody | lib/auth.ts:33-36 | the login body holds the phone and the password, or `''` when the password is omitted or empty |
| Auth.Register | lib/auth.ts:18-30 | posts the register body, writes tokens as `SessionAfter` says, and returns the reply unchanged |
| Auth.Login | lib/auth.ts:32-42 | posts the login body, writes tokens as `SessionAfter` says, and returns the reply unchanged |
| Auth.SetPassword | lib/auth.ts:44-54 | posts the new password and its confirmation, writes tokens as `SessionAfter` says, and returns the reply unchanged |
| Auth.Logout | lib/auth.ts:56-67 | calls the server only when a refresh token is stored, then always removes both tokens and only them; afterwards the user is not authenticated |
| Auth.GetToken | lib/auth.ts:69-72 | no token without a window; otherwise the stored access token, if any |
| Auth.IsAuthenticated | lib/auth.ts:74-76 | authenticated exactly when a window exists and a non-empty access token is stored |
| Browser.GetItem | lib/auth.ts:70 | `getItem` gives a value exactly for a stored key, and that key's value |
| Browser.OrElse | lib/api.ts:51 | JavaScript's `v \|\| fallback` on an optional string |
| Feedback.ServerMessage | app/dashboard/page.tsx:157 | the server's message exists only on an error with a response |
| Feedback.FailureText | app/dashboard/page.tsx:157 | the toast text is the server's non-empty message, else the handler's fallback |
| Upload.CheckImage | app/dashboard/page.tsx:229-237 | an image is accepted exactly when its type matches and it is at most 5 MiB; a wrong type is reported before a size problem |
| Upload.ImagePatternIsTypeList | app/dashboard/page.tsx:229 | the MIME pattern accepts exactly the five listed image types |
| Dashboard.HeadNamesPrefix | app/dashboard/page.tsx:146 | the first eight characters of an action key's prefix determine the prefix |
| Dashboard.ActionKeyInjective | app/dashboard/page.tsx:146-147 | two actions share a `loadingActions` key exactly when they are the same action, so one action's guard never blocks another |
| Dashboard.Replaced | app/dashboard/page.tsx:171 | replacing a category keeps length and order, puts the server's category at every matching id, and keeps every other entry |
| Dashboard.Counted | app/dashboard/page.tsx:213 | the category's item count becomes the old count (0 when missing) plus one; nothing else in it changes |
| Dashboard.WithItemCounted | app/dashboard/page.tsx:213 | only categories whose id matches are counted up; length, order and every other category are kept |
| Dashboard.ItemCountedOnce | app/dashboard/page.tsx:210-213 | the total item count grows by exactly the number of categories with that id |
| Dashboard.WithoutCategory | app/dashboard/page.tsx:190 | deleting a category keeps exactly the categories with another id |
| Dashboard.WithoutItemsOf | app/dashboard/page.tsx:192 | deleting a category keeps exactly the items of other categories |
| Dashboard.DeleteCategoryKeepsOrder | app/dashboard/page.tsx:190-192 | both deletions distribute over concatenation, so the kept entries stay in their order |
| Dashboard.NoItemsNoChange | app/dashboard/page.tsx:192 | when no item belongs to the category, the item list is unchanged |
| Dashboard.QrDeletions | app/dashboard/page.tsx:315-324 | one DELETE per existing QR code, in list order |
| Dashboard.DashboardPage.constructor | app/dashboard/page.tsx:40-55 | the page's initial state |
| Dashboard.DashboardPage.Show | app/dashboard/page.tsx:54 | replaces the page's whole state |
| Dashboard.DashboardPage.TryBegin | app/dashboard/page.tsx:146-147 | an action starts exactly when its key is not in flight, and its key is in flight afterwards |
| Dashboard.DashboardPage.Finish | app/dashboard/page.tsx:159 | the `finally` block removes the action's key and changes nothing else |
| Dashboard.DashboardPage.FetchCategories | app/dashboard/page.tsx:106-113 | fetches the categories and keeps the old list on failure |
| Dashboard.DashboardPage.FetchItems | app/dashboard/page.tsx:115-122 | fetches the items and keeps the old list on failure |
| Dashboard.DashboardPage.FetchSettings | app/dashboard/page.tsx:124-131 | fetches the settings and keeps the old value on failure |
| Dashboard.DashboardPage.FetchQrCodes | app/dashboard/page.tsx:133-140 | fetches the QR codes and keeps the old list on failure |
| Dashboard.DashboardPage.FetchRestaurantData | app/dashboard/page.tsx:93-98 | the four fetches in order, each updating only its own list |
| Dashboard.DashboardPage.Load | app/dashboard/page.tsx:74-104 | loads the owner's first restaurant and its data. With no restaurant, or a failed list, nothing else is fetched. Loading always ends |
| Dashboard.DashboardPage.HandleCreateCategory | app/dashboard/page.tsx:144-161 | no effect without a restaurant or while the same action is in flight. Otherwise one POST; on success the server's category is appended and the modal closes; on failure an error toast appears. The guard set ends as it started |
| Dashboard.DashboardPage.HandleUpdateCategory | app/dashboard/page.tsx:163-180 | as above, with one PATCH and the matching category replaced in place |
| Dashboard.DashboardPage.HandleDeleteCategory | app/dashboard/page.tsx:182-200 | nothing happens unless confirmed; on success the category and all its items are removed |
| Dashboard.DashboardPage.HandleCreateItem | app/dashboard/page.tsx:202-222 | on success the item is appended and its category's count goes up by one |
| Dashboard.DashboardPage.SendItemImage | app/dashboard/page.tsx:243-265 | upload, then PATCH the item, then refetch, each only when the previous step succeeded |
| Dashboard.DashboardPage.HandleItemImageUpload | app/dashboard/page.tsx:224-276 | the type and size checks come before the guard and make no call. The upload sequence ends with the uploading marker cleared and the guard set as it started |
| Dashboard.DashboardPage.HandleUpdateItem | app/dashboard/page.tsx:278-292 | one PATCH, then a refetch only on success |
| Dashboard.DashboardPage.HandleDeleteItem | app/dashboard/page.tsx:294-308 | nothing happens unless confirmed; one DELETE, then a refetch only on success |
| Dashboard.DashboardPage.DeleteQrCodes | app/dashboard/page.tsx:315-325 | every existing QR code is deleted, in order, whatever each deletion's outcome |
| Dashboard.DashboardPage.HandleGenerateQr | app/dashboard/page.tsx:310-337 | every existing code is deleted before the single POST that creates the new one; the list is refetched only after a successful create |
| Admin.CeilDiv | app/admin/page.tsx:208 | `Math.ceil(a / b)` is the least integer `q` with `a <= q * b` |
| Admin.RemainingDays | app/admin/page.tsx:203-210 | no end date gives no figure; otherwise the ceiling of the time left in whole days |
| Admin.ExpiredAfterAFullDay | app/admin/page.tsx:411-412 | a card shows as expired exactly when the period ended at least a full day before now |
| Admin.UrgencyOf | app/admin/page.tsx:444-446 | red exactly up to 7 days, yellow exactly from 8 to 30, green exactly above 30 |
| Admin.UrgencyMonotone | app/admin/page.tsx:444-446 | fewer remaining days is never less urgent |
| Admin.BadgeOf | app/admin/page.tsx:435-450 | no badge without an end date; the expired badge exactly when `isExpired`; otherwise the non-negative remaining days, coloured by `UrgencyOf` of those days |
| Admin.RedWithinAWeek | app/admin/page.tsx:444 | a period that has not expired and ends within seven days is shown in red |
| Admin.CardActions | app/admin/page.tsx:458-480 | edit and delete are always offered, in that order; cancel-subscription is offered exactly when the status is `ACTIVE` |
| Admin.WithoutRestaurant | app/admin/page.tsx:129 | deleting a restaurant keeps exactly the entries with another id |
| Admin.DeleteKeepsOrder | app/admin/page.tsx:129 | the deletion distributes over concatenation, so kept entries stay in order |
| Admin.EditFormFor | app/admin/page.tsx:138-145 | the edit form copies name and plan and sets the extension to 0 |
| Admin.AdminPage.constructor | app/admin/page.tsx:76-118 | the page's initial state, with the create form empty, plan `PRO` and duration 1 |
| Admin.AdminPage.FetchData | app/admin/page.tsx:97-110 | both lists are replaced only when both requests succeed; loading always ends |
| Admin.AdminPage.DeleteRestaurant | app/admin/page.tsx:122-134 | nothing happens unless confirmed; on success exactly the matching restaurant is removed |
| Admin.AdminPage.OpenEditModal | app/admin/page.tsx:136-147 | opens the edit modal on the restaurant with the form from `EditFormFor` |
| Admin.AdminPage.UpdateRestaurant | app/admin/page.tsx:149-175 | no effect without a restaurant being edited; on success, refetch and close the modal |
| Admin.AdminPage.CreateRestaurant | app/admin/page.tsx:177-187 | posts the form; on success, refetch, close the modal and reset the form to its empty state |
| Admin.AdminPage.CancelSubscription | app/admin/page.tsx:189-201 | nothing happens unless confirmed; one PATCH to the cancel endpoint, and a refetch on success |
| Login.HomeFor | app/login/page.tsx:38-42 | `SUPER_ADMIN` goes to `/admin` and every other role to `/dashboard` |
| Login.ErrorText | app/login/page.tsx:45 | the server's message, else the error's own message, else the default text |
| Login.PasswordArg | app/login/page.tsx:30 | an empty password is passed as `undefined` |
| Login.SetupProblem | app/login/page.tsx:59-75 | the three checks in order: both fields filled, then equal, then at least 8 characters; each outcome is an if-and-only-if |
| Login.RouteAfter | app/login/page.tsx:77-90 | a resolved reply with a user redirects home by role. A rejection shows the error text. A reply without a user shows the engine's type error |
| Login.LoginOutcome | app/login/page.tsx:30-49 | a password-setup reply switches to the setup form and never redirects; any other reply ends as `RouteAfter` says |
| Login.SuccessfulLoginOpensSession | app/login/page.tsx:30-42 | a login with a token and a user, and no setup needed, stores a non-empty token and redirects home |
| Login.LoginPage.constructor | app/login/page.tsx:9-15 | the form's initial state |
| Login.LoginPage.Conclude | app/login/page.tsx:32-48 | applies an outcome: the setup form, a navigation or an error message; loading ends |
| Login.LoginPage.HandleLogin | app/login/page.tsx:17-50 | an empty phone is refused with no call. Otherwise it sends the trimmed phone and the optional password, then stores the session and concludes |
| Login.LoginPage.HandleSetPassword | app/login/page.tsx:52-92 | a failed check is reported with no call; otherwise `setPassword` runs and the page concludes |
| Strings.Trim | app/login/page.tsx:30 | the trimmed phone neither starts nor ends with white space; a string without white space is its own trim; a blank string trims to `''` |
| Strings.TrimIsSlice | app/login/page.tsx:30 | the trim of `s` is the slice of `s` that starts right after the leading white space and is followed only by white space, so trimming removes white space at both ends and nothing else |
| Settings.PrimaryColorOf | app/dashboard/settings/page.tsx:48 | a colour is present exactly when the restaurant has settings holding `primaryColor`, and it is that setting's value |
| Settings.ColorAfter | app/dashboard/settings/page.tsx:48-50 | the colour is overwritten only by a non-empty `settings.primaryColor` |
| Settings.WithLogo | app/dashboard/settings/page.tsx:124 | the logo URL is set and every other settings key is kept; no key is added besides `customLogo` |
| Settings.LogoKeepsColor | app/dashboard/settings/page.tsx:124 | setting a logo never changes the colour the page shows |
| Settings.ChangeProblem | app/dashboard/settings/page.tsx:139-146 | a mismatch is reported first, then a password shorter than 8 characters; there is no separate empty-field check |
| Settings.SameAcceptedPasswords | app/dashboard/settings/page.tsx:139-146 | both pages accept exactly the same password pairs; they only word the empty case differently |
| Settings.SettingsPage.constructor | app/dashboard/settings/page.tsx:12-29 | the initial state, with the default colour `#0284c7` |
| Settings.SettingsPage.FetchRestaurant | app/dashboard/settings/page.tsx:39-57 | takes the first restaurant and its name; its colour overrides the default only when set |
| Settings.SettingsPage.SaveGeneral | app/dashboard/settings/page.tsx:59-85 | no effect without a restaurant; otherwise one PATCH of name and colour, and the colour is taken from the reply only when it holds one |
| Settings.SettingsPage.UploadLogo | app/dashboard/settings/page.tsx:87-135 | the type and size checks come before any call. Upload, then PATCH the settings. On success the logo is merged into the settings |
| Settings.SettingsPage.SubmitPasswordChange | app/dashboard/settings/page.tsx:137-155 | a problem is reported with no call. A submit while a change is in flight does nothing. Otherwise exactly one call is sent and the flag is raised |
| Settings.SettingsPage.CompletePasswordChange | app/dashboard/settings/page.tsx:151-165 | on success both password fields are cleared; the flag is lowered in every case |
| Layout.SettingsPagesHighlightSettings | app/dashboard/layout.tsx:46-50 | any path under `/dashboard/settings` highlights the settings link and not the dashboard link |
| Layout.AtMostOneActive | app/dashboard/layout.tsx:46-50 | no path highlights both links |
| Layout.NoPathnameNoLink | app/dashboard/layout.tsx:48-49 | without a pathname no link is highlighted |
| Layout.RequireSession | app/dashboard/layout.tsx:28-34 | an unauthenticated visitor is sent to `/login`, and an authenticated one is not |
| Layout.HandleLogout | app/dashboard/layout.tsx:36-39 | logout removes both tokens and only afterwards navigates to `/login`, as the last effect |
| SubscriptionExpired.RestaurantIdFromPath | app/dashboard/subscription-expired/page.tsx:25-29 | the id is the last `/`-separated segment, unless it is empty or the page's own segment |
| SubscriptionExpired.ReadsAppendedId | app/dashboard/subscription-expired/page.tsx:25-29 | a path ending in `/<id>` yields that id |
| SubscriptionExpired.NoIdOnOwnRoute | app/dashboard/subscription-expired/page.tsx:25-29 | on its own route, with or without a trailing slash, the page finds no id |
| Strings.LastSegmentAfter | app/dashboard/subscription-expired/page.tsx:25-26 | the last segment of `a/b` is `b` when `b` has no separator |
| Strings.LastSegmentIsTail | app/dashboard/subscription-expired/page.tsx:25-26 | the last segment is a separator-free suffix that follows a separator or is the whole string |
| Strings.JoinSplit | app/dashboard/subscription-expired/page.tsx:25 | joining the split parts gives back the string |
| SubscriptionExpired.RenewTarget | app/dashboard/subscription-expired/page.tsx:35-47 | without an id, renewal goes to `/dashboard`; with one, to that restaurant's subscription page |
| SubscriptionExpired.DisplayMessage | app/dashboard/subscription-expired/page.tsx:72 | the stored message when there is a non-empty one; otherwise, with no notice or an empty message, the default text; never empty |
| SubscriptionExpired.ShowsInterceptorMessage | app/dashboard/subscription-expired/page.tsx:72 | the page shows the server's message stored by the interceptor, or the same default |
| SubscriptionExpired.FormatDate | app/dashboard/subscription-expired/page.tsx:50-58 | an empty date formats as `''`; any other date is localised |
| SubscriptionExpired.SubscriptionExpiredPage.constructor | app/dashboard/subscription-expired/page.tsx:14-15 | no notice and no id at first |
| SubscriptionExpired.SubscriptionExpiredPage.Mount | app/dashboard/subscription-expired/page.tsx:17-33 | the stored notice is taken if present, and the slot is always emptied, so a second read sees nothing. The id is taken from the path |
| SubscriptionExpired.SubscriptionExpiredPage.HandleRenew | app/dashboard/subscription-expired/page.tsx:35-48 | navigates to `RenewTarget` of the id found |
| Lists.FilterMembers | app/admin/page.tsx:129 | `filter` keeps exactly the elements that pass the test |
| Lists.FilterAppend | app/admin/page.tsx:129 | `filter` distributes over concatenation |

## Left out

- Rendering: JSX, Tailwind classes, modals, tabs and `app/components/Toast.tsx` (the toast's timer and colours) are not modelled. A toast is only the record a page stores.
- Networking: axios, HTTP and `FormData` are not modelled. Every response is an input `Response`. This includes the refresh reply and the reply to the resent request. Each page's API call, and each call of `authService` (`Auth.Register`, `Auth.Login`, `Auth.SetPassword`, `Auth.Logout`), is one `Call` event whose outcome is given. The interceptor effects are modelled in `Api` and are not composed into these calls. For example, a wrong-password 401 on login while a stale refresh token is stored would trigger a refresh (lib/api.ts:62-79); the model of `Auth.Login` does not show it.
- Concurrency: `Promise.all` in the dashboard loader, the admin loader and the QR deletions is modelled as sequential calls in source order. Handlers run to completion, so interleaving at `await` points is not modelled. The one exception is the settings password change, which is split into `SubmitPasswordChange` and `CompletePasswordChange` so that a second submit while the first is pending can be stated.
- Refresh coalescing: concurrent refreshes are not coalesced. The code does not coalesce them either: each failing request refreshes once on its own.
- Dates: `Date`, `toLocaleDateString` and floating-point `Math.ceil` are not modelled. Times are integer milliseconds, `now` is a parameter, and `FormatDate` takes the localising function as a parameter. `Math.ceil` can return `-0` in JavaScript; the model's integers do not distinguish it.
- JSON: `JSON.parse`/`stringify` of the `subscriptionExpired` entry is not modelled. The entry is a `Notice` record in its own slot of the browser, and a malformed entry is not modelled.
- Browser globals: `window.confirm` is a boolean input. `window.location.href` and `router.push` are both a recorded `Navigated` event. `router.refresh` and the current location's reload are not modelled.
- Server rendering: the `typeof window` guards in `lib/api.ts` are taken as true. Only `Auth.GetToken` and `Auth.IsAuthenticated` model the no-window case, as a null browser.
- Upload headers: the headers of the two direct `axios.post` uploads (including a `Bearer null` when no token is stored) are not recorded. Only the URL and the folder are recorded.
- Admin stats: the platform statistics are three counters. The growth and breakdown lists are not modelled.
- Admin logout: the admin page's own logout button is not modelled; `Layout.HandleLogout` models the same `authService.logout` call.
- Admin refetch: `fetchData` after an update, a create or a cancel is not awaited in the source. The model completes it inside the handler: before the success alert for an update, after it for a cancel. A create shows no success alert.
- Dashboard remaining days: the dashboard's own `calculateRemainingDays` (app/dashboard/page.tsx:61-68) is the same computation as the admin page's and is covered by `Admin.RemainingDays`.
- Item prices: the source's `price` is a JavaScript number (`Number(price)` on the form's text, app/dashboard/page.tsx:665), so it may be fractional. The model keeps integer prices, sent as decimal text; floating-point prices are not modelled.
- Logging: the `console.error` calls in the interceptor (lib/api.ts:29-34) and in the page handlers' `catch` blocks only write to the developer console. They change no state and are not modelled.
- String lengths: JavaScript counts UTF-16 code units and the model counts characters, so the 8-character password rule differs for characters outside the Basic Multilingual Plane.
- Api.Dispatch: its own contract is weaker than the interceptor's behaviour. The effects of each branch are stated by the lemmas about `Api.OnError`, which `Dispatch` calls.
- Lists.Filter: its own contract only bounds the length; membership is stated by `Lists.FilterMembers` and order by `Lists.FilterAppend`.
- Admin.IsExpired and Layout.IsActive: these predicates carry no contract of their own. Their meaning is stated by `Admin.ExpiredAfterAFullDay`, `Admin.BadgeOf` and the `Layout` lemmas.
- Api.RenewedCredentials: a refresh reply without an access token stores the text `undefined`, as `localStorage.setItem` does. The same holds for a missing refresh token in `Auth.SessionAfter`.
- Login.RouteAfter: the fallback message is stated but practically unreachable, because a rejected axios call always has a message.
- Settings.ChangeProblem: a pair of empty passwords is reported as too short, because the settings page has no separate empty check.
- SubscriptionExpired.NoIdOnOwnRoute: on the page's own route (`/dashboard/subscription-expired`) no id is found, so renewal always goes to `/dashboard` there.
