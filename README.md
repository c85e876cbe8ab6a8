# Session store, activity cache, route guards and mock auth endpoints

This project models the logic core of a Nuxt/Pinia fitness application in Dafny:

- **Session store** (`stores/auth.ts`, module `Auth`). It holds `{user, token, initialized}` and mirrors the session into the two browser-storage entries `auth_token` and `auth_user`. Its getters `isAuthenticated`, `isCoach` and `isAthlete` are pure functions of the state, as Pinia getters are. Its actions `setAuth`, `updateUser`, `logout`, `initializeAuth` and `login` are methods of the class `AuthStore`. That class has the three state fields plus a `storage` map field, a `navigations` log and the constant `isClient` (`process.client`). Each method is proved against a pure transition function (`AfterSetAuth`, `AfterLogout`, …) over a `StoreView`. The contracts of `AfterSetAuth`, `AfterUpdateUser`, `AfterLogout` and `AfterLogin` state the whole new state and storage. `AfterInitialize`'s contract states only that initialised becomes true; the lemmas `InitializeOnServer`, `InitializeMissing`, `InitializeRestores` and `InitializeCorruptIsLogout` state its effect in each case. Other lemmas relate the transitions: a corrupt stored user ends as a logout, what `setAuth` writes is what `initializeAuth` restores, a failed login changes nothing, and so on.
- **Activity cache** (`stores/activity.ts`, modules `Activity` and `Calendar`). `ActivityStore` keeps `activities: map<Date, DailyActivity>` and the `selectedDate` cursor. Its methods are the cache-or-generate lookup, the day-over-day metric change, the month listing and the cursor update. Each is stated in terms of the pure cache function `Cached` or `CachedAll`. The class invariant says every cached record is one the generator can produce for its key. The generator `Generate` is a function of the date and of supplied random values. Its contract `IsGeneratedFor` gives the weekend and weekday step ranges, the derived figures as floors of ratios, 24 labelled hourly samples within their hour's band, and the floor of their mean. `Calendar` replaces the date library: month lengths, the day before a date, the days of a month, and JavaScript's `getDay` computed from a day count since 1970-01-01.
- **Route guards** (`middleware/auth.global.ts`, `middleware/auth.ts`, module `Guards`). The public-landing guard is a method over an `AuthStore`, because it triggers `initializeAuth`. Its decision is the pure `LandingDecision`. The protected-app guard is a pure function of the path and the session state.
- **Mock endpoints** (`server/api/auth/*.ts`, module `MockApi`). These are the credential check and the bearer-header check, as functions from the request to a result or a 401. `LoginAgainstMock` connects the login endpoint to the store's `login` action.

Inputs the code takes from its environment are parameters:
- `Math.random()`: the `Draw` values, each in [0, 1). One draw for the step count, then one per hour.
- "Today" for the month listing: the `today` parameter.
- The reply of `fetch` in `login`: the `Reply` parameter.
- `JSON.parse` and `JSON.stringify` of a user: function constants of the store.
- `navigateTo`: a recorded entry in `navigations`.

Points where the code behaves differently from what one might expect (the model follows the code):
- `initializeAuth` with only one of the two storage entries present (or one of them empty) does not log out. It leaves user, token and storage as they were (`InitializeMissing`).
- `getMetricChange` has no guard against a zero previous value. The model represents JavaScript's non-finite quotient as `NotFinite`, and proves that it cannot arise for generated records: every numeric field of a generated record is positive.
- In the initial state the selected date has no cached record, so `SelectedActivity()` is `None` until something looks that date up.
- `isAuthenticated` uses JavaScript truthiness, so an empty-string token does not authenticate (`SetAuthAuthenticates`).
- Any non-ok login reply fails with "Invalid credentials". The endpoint's own message is not passed on.

## Model

| member | source | states |
|---|---|---|
| `Calendar.DaysInMonth` | stores/activity.ts:54-56 | a month has 28 to 31 days; February has 29 exactly in leap years |
| `Calendar.YearLength` | stores/activity.ts:36 | a year is 366 days long exactly when it is a leap year, otherwise 365 |
| `Calendar.PrevDay` | stores/activity.ts:36 | the day before a date is an earlier valid date; within a month it is the previous day, and on the 1st it is the last day of an earlier month (with `PrevDayNumber` and `DayNumberIncreasing`, the day immediately before) |
| `Calendar.PrevDayNumber` | stores/activity.ts:36 | the day before a date is numbered exactly one less, so `subDays(d, 1)` steps back one day across month and year ends |
| `Calendar.DayNumberIncreasing` | stores/activity.ts:36 | day numbers increase in chronological order, so with `PrevDayNumber` the day before is unique |
| `Calendar.MonthDays` | stores/activity.ts:53-56 | the days of a month are the dates 1 through its last day of that month, in strictly ascending order |
| `Calendar.IsWeekend` | stores/activity.ts:72-73 | a day is a weekend day exactly when its weekday is Sunday (0) or Saturday (6) |
| `Calendar.WeekendIsTwoDays` | stores/activity.ts:72-73 | the day before a Sunday is a Saturday and a weekend day; the day before a Saturday is not; the day before a Monday is |
| `Calendar.DayOfWeek` | stores/activity.ts:72 | the weekday is a number from 0 (Sunday) to 6 (Saturday) |
| `Calendar.PrevDayWeekday` | stores/activity.ts:72 | the day before has the previous weekday, modulo 7 |
| `Calendar.KnownWeekdays` | stores/activity.ts:72 | the weekday agrees with the real calendar on fixed dates (1970-01-01 Thursday, 2000-02-29 Tuesday, 2024-01-01 Monday, ...) |
| `Activity.BaseRate` | stores/activity.ts:85-91 | the hourly base heart rate is 90 for hours 7-9, 85 for 17-19, 75 for the other hours 6-22 and 70 otherwise |
| `Activity.HourLabel` | stores/activity.ts:97 | an hour's label is five characters: two decimal digits followed by ":00" |
| `Activity.HourLabelRoundTrip` | stores/activity.ts:97 | the label's two decimal digits read back as the hour, so they are the zero-padded tens and ones of the hour |
| `Activity.HourlySamples` | stores/activity.ts:83-100 | there are exactly 24 samples; sample i is labelled with hour i, and its value lies in [base(i), base(i)+10) |
| `Activity.Generate` | stores/activity.ts:71-113 | a generated record has the given date; steps lie in [6000, 8000) on Saturday and Sunday and in [8000, 12000) otherwise; active minutes are floor(steps/100); distance is steps*0.0007 rounded to tenths; calories are floor(steps*0.04); it has 24 samples as above; the average is the floor of the samples' mean |
| `Activity.StepsRangeCovered` | stores/activity.ts:75-78 | every step count of the day's range is produced by some random value, so the range is exact |
| `Activity.SumValues` | stores/activity.ts:109 | a single sample sums to its own value; non-negative samples have a non-negative sum |
| `Activity.SumValuesConcat` | stores/activity.ts:109 | the sum of two runs of samples concatenated is the sum of their sums, so the fold's order does not matter |
| `Activity.SampleSumBounds` | stores/activity.ts:109 | samples within their bands sum to between the sum of the base rates and that sum plus 9 per sample |
| `Activity.BaseRateDay` | stores/activity.ts:83-91 | the 24 base rates sum to 1840 |
| `Activity.AverageBounds` | stores/activity.ts:109 | a generated average heart rate lies in [76, 85] |
| `Activity.NumericValue` | stores/activity.ts:41-44 | date and heart rate have no numeric value; steps, active minutes, distance (in tenths) and calories each give that field's own value |
| `Activity.MetricChange` | stores/activity.ts:41-49 | the result is "0" exactly for a non-numeric field; non-finite exactly for a zero previous value; otherwise the percentage p with p * previous = (current - previous) * 100 |
| `Activity.GeneratedValuesPositive` | stores/activity.ts:45 | every numeric field of a generated record is positive |
| `Activity.GeneratedChangeIsFinite` | stores/activity.ts:44-49 | against a generated previous-day record the change is never non-finite, and it is "0" exactly for date and heart rate |
| `Activity.Cached` | stores/activity.ts:27-31 | after a lookup the date is cached; only that key can be added; every earlier entry is unchanged; on a miss the new entry is a generated record |
| `Activity.CachedIdempotent` | stores/activity.ts:28-31 | a second lookup of the same date changes nothing, whatever randomness it is offered |
| `Activity.CachedKeepsGenerated` | stores/activity.ts:28-29 | a lookup keeps every cached record a generated record for its own key |
| `Activity.CachedAllFrame` | stores/activity.ts:58-61 | looking up a run of days adds exactly those days and keeps every earlier entry |
| `Activity.ActivityStore.constructor` | stores/activity.ts:17-20 | the initial state selects today and caches nothing |
| `Activity.ActivityStore.SelectedActivity` | stores/activity.ts:23 | the selected activity is defined exactly when the selected date is cached, and it is that record |
| `Activity.ActivityStore.GetActivityForDate` | stores/activity.ts:27-32 | the cache becomes `Cached(old cache, d)`; the result is the stored record for `d`, the earlier one on a hit; the cursor is unchanged |
| `Activity.ActivityStore.GetMetricChange` | stores/activity.ts:34-50 | looks up `d` and then the day before, so both are cached afterwards; returns their `MetricChange`, which is never non-finite and is "0" exactly for date and heart rate |
| `Activity.ActivityStore.LookUpDays` | stores/activity.ts:58-61 | maps the days to their records in order, caching each; the cache becomes `CachedAll` of the days |
| `Activity.ActivityStore.GetMonthlyActivities` | stores/activity.ts:52-62 | returns one record per day of today's month; record i is dated day i+1; dates are ascending; every record is the cached one |
| `Activity.ActivityStore.SetSelectedDate` | stores/activity.ts:64-67 | sets the cursor to `d`, caches `d`, and the selected activity is then defined |
| `Auth.IsAuthenticated` | stores/auth.ts:28 | authenticated exactly when initialised with a non-empty token; never before initialisation |
| `Auth.IsCoach` | stores/auth.ts:29 | true exactly when a user is signed in with role coach, so false when nobody is |
| `Auth.IsAthlete` | stores/auth.ts:30 | true exactly when a user is signed in with role athlete, so false when nobody is |
| `Auth.RolesExclusive` | stores/auth.ts:29-30 | never both coach and athlete; a signed-in user is one of the two |
| `Auth.Truthy` | stores/auth.ts:92 | a stored string is truthy exactly when it is present and not empty |
| `Auth.WithSession` | stores/auth.ts:61-64 | writes both session keys and leaves every other key as it was |
| `Auth.WithoutSession` | stores/auth.ts:79-82 | removes both session keys and leaves every other key as it was |
| `Auth.ReadPersisted` | stores/auth.ts:88-94 | storage holds a session to restore only when both entries are non-empty; it is corrupt when they are but the user does not parse; otherwise it is missing |
| `Auth.AfterSetAuth` | stores/auth.ts:56-65 | token and user are set and initialised is true; on the client both keys are written; on the server storage is untouched; nothing is navigated |
| `Auth.AfterUpdateUser` | stores/auth.ts:67-73 | only the user changes; token and initialised are kept; on the client only `auth_user` is written |
| `Auth.AfterLogout` | stores/auth.ts:75-85 | token and user become null; initialised is kept; on the client both keys are removed; a navigation to "/" is always requested |
| `Auth.AfterInitialize` | stores/auth.ts:87-103 | initialised is always true afterwards |
| `Auth.LoginOutcome` | stores/auth.ts:34-53 | login succeeds exactly on an ok reply whose body parses, with that body; a non-ok reply fails with "Invalid credentials"; a rejected fetch, or an ok reply whose body does not parse, fails with that error's message |
| `Auth.Message` | stores/auth.ts:52 | an `Error` gives its own message; any other thrown value gives "Authentication failed" |
| `Auth.AfterLogin` | stores/auth.ts:44-52 | a successful login is exactly `setAuth` with the reply's token and user; a failed login changes nothing |
| `Auth.SetAuthAuthenticates` | stores/auth.ts:56-59 | after `setAuth` the session is authenticated exactly when the token is not empty |
| `Auth.LogoutSignsOut` | stores/auth.ts:75-84 | after `logout` nobody is authenticated, coach or athlete, and the last navigation is "/" |
| `Auth.InitializeOnServer` | stores/auth.ts:87-102 | off the client, `initializeAuth` only sets initialised |
| `Auth.InitializeMissing` | stores/auth.ts:92-102 | with an entry missing or empty, user, token, storage and navigations are unchanged |
| `Auth.InitializeRestores` | stores/auth.ts:92-96 | with both entries present and a parseable user, the stored token and user are adopted and storage is untouched |
| `Auth.InitializeCorruptIsLogout` | stores/auth.ts:97-99 | on a parse failure, state, storage and navigations end exactly as after `logout`, with initialised true |
| `Auth.LogoutClearsPersisted` | stores/auth.ts:79-92 | after a client logout, a later `initializeAuth` finds nothing to restore |
| `Auth.PersistedSessionRestores` | stores/auth.ts:61-96 | what `setAuth` writes is what a fresh store's `initializeAuth` restores, given a non-empty token and a parser that reads back what was written |
| `Auth.InitializeIdempotent` | stores/auth.ts:87-103 | running `initializeAuth` twice is the same as running it once |
| `Auth.FailedLoginChangesNothing` | stores/auth.ts:44-52 | a failed login leaves state, storage and navigations unchanged |
| `Auth.AuthStore.constructor` | stores/auth.ts:21-25 | a fresh store has no user, no token and is not initialised |
| `Auth.AuthStore.SetAuth` | stores/auth.ts:56-65 | the new state, storage and navigations are `AfterSetAuth` of the old |
| `Auth.AuthStore.UpdateUser` | stores/auth.ts:67-73 | the new state, storage and navigations are `AfterUpdateUser` of the old |
| `Auth.AuthStore.Logout` | stores/auth.ts:75-85 | the new state, storage and navigations are `AfterLogout` of the old |
| `Auth.AuthStore.InitializeAuth` | stores/auth.ts:87-103 | the new state, storage and navigations are `AfterInitialize` of the old |
| `Auth.AuthStore.Login` | stores/auth.ts:34-54 | returns `LoginOutcome` of the reply; the new state, storage and navigations are `AfterLogin` of the old |
| `Text.StartsWith` | middleware/auth.global.ts:3 | case-sensitive prefix test: the prefix is no longer than the string and matches it character for character |
| `Guards.LandingDecision` | middleware/auth.global.ts:14-22 | "/" is always allowed; any other path redirects exactly when not authenticated; the redirect goes to "/" and never to the path being visited |
| `Guards.PublicLandingGuard` | middleware/auth.global.ts:1-23 | an `/api` path is allowed with the store untouched; otherwise `initializeAuth` runs exactly when not yet initialised, the session is initialised afterwards, and the answer is `LandingDecision` on the resulting session; it never redirects to the visited path |
| `Guards.ProtectedAppGuard` | middleware/auth.ts:1-11 | anonymous users go to "/login" from any other path; authenticated users go from "/login" to "/dashboard"; every other case, including an anonymous visit to "/login", is allowed; it never redirects to the target |
| `Guards.ProtectedRedirectSettles` | middleware/auth.ts:4-10 | following a protected-app redirect once is then allowed |
| `Guards.LandingRedirectSettles` | middleware/auth.global.ts:15-22 | following a landing redirect once is then allowed |
| `Guards.ApiPathsBypass` | middleware/auth.global.ts:3-5 | every path "/api" + anything takes the bypass |
| `MockApi.HandleLogin` | server/api/auth/login.post.ts:1-21 | succeeds exactly for email "thale@gartland.dev" with password "demo", with token "mock-jwt-token" and the demo user; anything else is 401 "Invalid credentials" |
| `MockApi.HandleCurrentUser` | server/api/auth/user.get.ts:1-18 | succeeds exactly when the header is present and starts with "Bearer ", returning the demo user; otherwise 401 "Unauthorized" |
| `MockApi.DemoUserShape` | server/api/auth/login.post.ts:8-13 | the returned user has id "1" and role athlete, and its email differs from the sign-in email |
| `MockApi.LoginDependsOnlyOnMatch` | server/api/auth/login.post.ts:5 | two requests that agree on whether both fields match get the same answer |
| `MockApi.BearerTokenIgnored` | server/api/auth/user.get.ts:4-17 | "Bearer " followed by any token, even an empty one, returns the demo user |
| `MockApi.MalformedHeadersRejected` | server/api/auth/user.get.ts:2-9 | a missing header, a lower-case "bearer " and "Bearer" without the space are all rejected |
| `MockApi.EndpointsAgreeOnUser` | server/api/auth/user.get.ts:12-17 | both endpoints return the same user |
| `MockApi.ReplyOf` | stores/auth.ts:36-44 | the login action sees an ok reply exactly when the handler succeeded |
| `MockApi.LoginAgainstMock` | stores/auth.ts:34-50 | the demo credentials leave the store authenticated as the demo athlete with the mock token; anything else fails with "Invalid credentials" and leaves the store unchanged |

## Left out

- `plugins/auth.ts` is not part of this model. It is start-up wiring: it calls `initializeAuth` on the client and copies the state into the server-rendering payload.
- `nuxt.config.ts` is not part of this model. It holds build configuration only.
- Activity dates are `Date` values (year, month, day). The `'yyyy-MM-dd'` strings the code uses as keys are not modelled, and neither are `parseISO`/`format` or the strings that are not valid dates. The time zone and the range limit of JavaScript `Date` are also left out.
- `Activity.Generate`: steps and heart-rate values are computed in exact real arithmetic. With IEEE doubles, the largest value `Math.random()` can return could round `random()*variance + base` up to `base + variance`. That would put steps on 8000 on a weekend, or a heart sample on its band's upper end. The model does not capture this.
- `Activity.Generate`: distance is kept in tenths of a kilometre and rounded half up. `toFixed(1)` on the double `steps*0.0007` may round an exact tie the other way. Calories are `floor(steps/25)`, which is what `Math.floor(steps*0.04)` gives for integer step counts.
- `Activity.MetricChange`: the percentage is the exact rational. Rounding it with `toFixed(1)` and producing the string are left out.
- `JSON.parse`/`JSON.stringify` of users are supplied functions. A parse that succeeds with something other than a user record (a number, say) is not modelled.
- `Auth.AuthStore.Login`: the network request, its awaiting, and interleaving with other actions are not modelled. Neither are a reply body lacking `token` or `user`, nor an exception thrown by `localStorage` inside the `try`.
- `MockApi.HandleLogin`: the request is always a record with an email and a password, as the store's own `login` sends. A POST without a JSON body, on which reading `body.email` throws a `TypeError` instead of answering 401, is not modelled.
- Pinia reactivity and the router's actual navigation are left out. A navigation is only recorded in `navigations` or returned as a redirect target.
- Nothing enforces that a non-null token comes with a non-null user, because the code does not enforce it either.
