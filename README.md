# KeyFlow UI core, modelled in Dafny

KeyFlow is a typing-practice web application. Most of it is Vue glue. This project models, and proves
properties of, the parts that hold logic of their own:

- the **typing session** store: per-character classification of the input against the target text,
  the correct and incorrect counts, accuracy and words per minute, key handling, the adaptive extension
  of the text and the countdown timer (`typing.dfy`);
- the **rate limiter** (a bounded first-in-first-out queue whose task starts are spaced by a minimum
  interval) and the **throttle** timing rule (`ratelimiter.dfy`);
- the **toast list** shared by the application (`toast.dfy`);
- the **settings** store: the API/local conversions, the defaults merge, single-field updates, saving
  and resetting (`settings.dfy`);
- the **router**'s route metadata, its `beforeEach` guard and its `afterEach` intended-route restore
  (`router.dfy`);
- the **HTTP client** policy: bearer-token attachment, the classification of failed requests into
  toasts, the 401 session-expiry branch, and the rate-limited `saveTest` endpoint (`api.dfy`);
- the **auth** store: user conversion, error-message selection and the sign-in, sign-up, OAuth,
  fetch-user and sign-out actions (`auth.dfy`);
- the **theme** and **language** preference stores, including the `useLanguage` composable whose
  language is one value shared by every caller (`theme.dfy`, `language.dfy`).

`common.dfy` holds the shared value types: `Option`, `Result`, JavaScript truthiness, and
`startsWith`/`includes`. `storage.dfy` models `localStorage` and `sessionStorage` as a `Storage` object
holding a map from string keys to strings.

Objects whose fields the source reassigns are Dafny classes: Pinia stores, the limiter, the throttle
closure, the toast state and the storages. The typing session, the limiter, the toast state, the auth,
theme and language stores and the API client have a `Valid()` invariant that their public actions
keep. The helpers `TypingSession.StartTimer`, `StopTimer` and `FinishTest`, `RateLimiter.StartHead` and
`ThemeStore.ApplyTheme` run inside an action and keep only part of it (`StartHead` keeps `Consistent()`,
`ApplyTheme` touches only the root styling); the action that calls them restores `Valid()`. The settings
store, the storages, the request config and the shared language value have no invariant beyond their
field types.
Pure mappings are functions, and the properties that relate several operations are lemmas.

Time is a logical clock. Every event handler of the limiter and the throttle receives the time
`elapsed: nat` since the previous event. The typing store's tick is one firing of its one-second
interval. Remote calls are given as their outcome (`Result`). A toast that a store or an interceptor
would show is returned as a `Notice` value; `ToastStore.Post` shows such a notice.

## Model

| member | source | states |
|---|---|---|
| Common.Truthy | src/services/api.ts:24 | JavaScript truthiness of an optional string: neither null/undefined nor the empty string |
| Common.TruthyNumber | src/stores/settings.ts:27 | JavaScript truthiness of an optional number: neither null/undefined nor 0 |
| Common.StartsWith | src/services/api.ts:25 | the string is the prefix followed by the rest of it |
| Common.IncludesAt | src/services/api.ts:56 | a copy of the needle at any position makes `includes` true |
| Common.IncludesIff | src/services/api.ts:53-56 | `includes` holds exactly when some position starts a copy of the needle |
| WebStorage.Storage.GetItem | src/stores/auth.ts:143 | `getItem` gives the stored value, and null exactly when the key is absent |
| WebStorage.Storage.SetItem | src/stores/auth.ts:56 | `setItem` maps the key to the value and leaves every other key alone |
| WebStorage.Storage.RemoveItem | src/stores/auth.ts:154 | `removeItem` drops the key and leaves every other key alone |
| Typing.Chars | src/stores/typing.ts:20-28 | one entry per text character; entry i is pending iff i is at or past the input's length, otherwise correct iff the input has the same character at i |
| Typing.Count | src/stores/typing.ts:32-37 | a filter count never exceeds the list's length |
| Typing.CountsCoverTyped | src/stores/typing.ts:32-37 | the correct and the incorrect filter counts add up to min(input length, text length): every typed position inside the text is one or the other |
| Typing.CorrectChars | src/stores/typing.ts:32-34 | the correct count is at most the number of typed characters and at most the text length |
| Typing.IncorrectChars | src/stores/typing.ts:35-37 | the incorrect count is the rest of the typed part: min(input length, text length) minus the correct count |
| Typing.CharsOfPrefix | src/stores/typing.ts:106-111 | extending the text leaves the classification of every earlier position unchanged |
| Typing.RoundDiv | src/stores/typing.ts:40 | `Math.round(a / b)` for b > 0 is the integer r with (2r−1)·b ≤ 2a < (2r+1)·b, and it is non-negative for a ≥ 0 |
| Typing.RoundDivAtMost | src/stores/typing.ts:40 | a quotient of at most c rounds to at most c |
| Typing.RoundRatio | src/stores/typing.ts:53 | `Math.round(a / b)` for any non-zero b: the integer nearest to a/b, halves rounded up, for either sign of b |
| Typing.Accuracy | src/stores/typing.ts:38-41 | 100 for empty input; otherwise the nearest integer to 100·correct/typed |
| Typing.AccuracyInRange | src/stores/typing.ts:38-41 | accuracy always lies in 0..100 |
| Typing.AccuracyOfFlawlessInput | src/stores/typing.ts:38-41 | when every typed character is correct the accuracy is exactly 100 |
| Typing.AccuracyOfHallo | src/stores/__tests__/typing.spec.ts:61-68 | "hallo" typed against "hello" scores 80, strictly between 0 and 100 |
| Typing.Wpm | src/stores/typing.ts:43-54 | 0 with no correct characters; once finished, round(correct/5); while running, 0 before a second has elapsed, else round(correct·60/(5·elapsed)); never negative |
| Typing.Split | src/stores/typing.ts:109 | `split(' ')` gives at least one piece and no piece contains the separator |
| Typing.Join | src/stores/typing.ts:110 | `join(sep)` starts with the first word and has at least one character per separator it adds |
| Typing.JoinSplit | src/stores/typing.ts:109-110 | joining the pieces of a split with the same separator gives the string back |
| Typing.JoinTakeIsPrefix | src/stores/typing.ts:110 | joining the first k pieces gives a prefix of joining all of them |
| Typing.Extension | src/stores/typing.ts:106-111 | the appended part is a space followed by a prefix of the text |
| Typing.NearEnd | src/stores/typing.ts:107 | the text is extended exactly when at most 20 characters of it lie beyond the input, in particular once the input has reached its end |
| Typing.TypingSession.constructor | src/stores/typing.ts:11-17 | empty text and input, not started, 60 seconds left, no timer |
| Typing.TypingSession.StartTimer | src/stores/typing.ts:61-71 | afterwards a timer is installed (a second call installs nothing new) |
| Typing.TypingSession.StopTimer | src/stores/typing.ts:73-78 | afterwards no timer is installed |
| Typing.TypingSession.FinishTest | src/stores/typing.ts:80-83 | the session is finished and the timer cleared |
| Typing.TypingSession.Tick | src/stores/typing.ts:64-70 | with a timer installed, one second less; at 0 or below the session finishes and the timer is cleared; without a timer nothing changes; the invariant is kept |
| Typing.TypingSession.Reset | src/stores/typing.ts:114-121 | empty input, not started or finished, no start time, 60 seconds, no timer; accuracy is then 100 and WPM 0 |
| Typing.TypingSession.SetText | src/stores/typing.ts:56-59 | the text is replaced and the session reset |
| Typing.TypingSession.HandleKeyPress | src/stores/typing.ts:85-112 | the first key starts the session and the timer; after the finish nothing changes; Backspace drops the last character (nothing on empty input); other multi-character keys are ignored; a character is appended and, near the end, the text is extended by Extension; the old text stays a prefix and the input never outgrows the text |
| RateLimiting.Tasks | src/utils/rateLimiter.ts:87-101 | the tasks of a start list, in the same order |
| RateLimiting.SpacedApart | src/utils/rateLimiter.ts:88-100 | with consecutive starts at least minInterval apart, starts i and j are at least (j−i)·minInterval apart |
| RateLimiting.RateLimiter.constructor | src/utils/rateLimiter.ts:48-58 | an empty, idle limiter with the given interval and capacity |
| RateLimiting.RateLimiter.Default | src/utils/rateLimiter.ts:55-58 | the defaults are 1000 and 10 |
| RateLimiting.RateLimiter.StartHead | src/utils/rateLimiter.ts:97-101 | the head task leaves the queue and starts now, and lastCallTime is now |
| RateLimiting.RateLimiter.LoopIteration | src/utils/rateLimiter.ts:87-104 | an empty queue ends the loop (not processing, queue empty); otherwise the loop sleeps when the interval has not passed since the last start, or starts the head task |
| RateLimiting.RateLimiter.ProcessQueue | src/utils/rateLimiter.ts:80-105 | nothing when already processing or the queue is empty; otherwise the loop's first pass |
| RateLimiting.RateLimiter.Execute | src/utils/rateLimiter.ts:60-78 | rejected with "Rate limit queue is full…" and nothing changed iff the queue holds maxQueueSize tasks; otherwise the task joins the back of the queue; the invariant keeps started tasks followed by queued ones equal to the accepted tasks in order (FIFO), starts spaced by minInterval, and the queue within capacity |
| RateLimiting.RateLimiter.Wake | src/utils/rateLimiter.ts:91-101 | the spacing sleep ends once due and the head task starts then |
| RateLimiting.RateLimiter.TaskDone | src/utils/rateLimiter.ts:100-104 | after the running task settles, the loop makes its next pass |
| RateLimiting.ThrottleDecision | src/utils/rateLimiter.ts:10-25 | run now iff at least delay has passed since the last execution; otherwise wait exactly until lastExecTime + delay |
| RateLimiting.Throttled.constructor | src/utils/rateLimiter.ts:6-7 | no execution yet, lastExecTime 0, nothing pending |
| RateLimiting.Throttled.Invoke | src/utils/rateLimiter.ts:9-25 | runs at once and records the time when delay has passed; otherwise replaces the single pending call with itself, due delay after the last execution |
| RateLimiting.Throttled.Fire | src/utils/rateLimiter.ts:13-24 | a due pending call runs, records the time and is no longer pending |
| Toasts.IndexOfId | src/composables/useToast.ts:43 | `findIndex`: the first position holding the id, or −1 iff no toast has it |
| Toasts.Without | src/composables/useToast.ts:42-47 | the reference removal is no longer than the list and holds no toast with the id |
| Toasts.RemoveAtDrops | src/composables/useToast.ts:44-45 | `splice(index, 1)` for a found index drops exactly that position and shifts the later ones down; -1 leaves the list as it is |
| Toasts.RemoveByIdIsWithout | src/composables/useToast.ts:42-47 | with distinct ids, splicing out the found index equals dropping the toast with that id |
| Toasts.WithoutAbsent | src/composables/useToast.ts:44 | dropping an id nobody has leaves the list unchanged |
| Toasts.WithoutMembers | src/composables/useToast.ts:42-47 | dropping an id removes exactly the toasts with that id and keeps every other one |
| Toasts.WithoutKeepsOrder | src/composables/useToast.ts:42-47 | dropping an id keeps the others in order, with increasing ids, and removes exactly the toasts with that id |
| Toasts.ToastStore.constructor | src/composables/useToast.ts:16-20 | no toasts, next id 1 |
| Toasts.ToastStore.Show | src/composables/useToast.ts:23-40 | appends one toast with the current id, type default 'info' and duration default 4000; increments the counter and returns the id; sets the expiry timer only for a positive duration; ids stay increasing |
| Toasts.ToastStore.Remove | src/composables/useToast.ts:42-47 | the list becomes the reference removal Without(old, id); nothing for an unknown id |
| Toasts.ToastStore.Expire | src/composables/useToast.ts:33-37 | a pending expiry of an id is exactly remove(id) |
| Toasts.ToastStore.ShowSuccess | src/composables/useToast.ts:49 | show with type 'success': the next id, the given or default 4000 duration, and the expiry timer set exactly for a positive duration |
| Toasts.ToastStore.ShowError | src/composables/useToast.ts:50 | show with type 'error': the next id, the given or default 4000 duration, and the expiry timer set exactly for a positive duration |
| Toasts.ToastStore.ShowWarning | src/composables/useToast.ts:51 | show with type 'warning': the next id, the given or default 4000 duration, and the expiry timer set exactly for a positive duration |
| Toasts.ToastStore.ShowInfo | src/composables/useToast.ts:52 | show with type 'info': the next id, the given or default 4000 duration, and the expiry timer set exactly for a positive duration |
| Toasts.ToastStore.Post | src/composables/useToast.ts:23-40 | shows a notice produced elsewhere with the default 4000 duration and sets its expiry timer |
| Toasts.ToastStore.Clear | src/composables/useToast.ts:54-56 | empties the list and keeps the id counter, so later ids stay fresh |
| Toasts.ThreeToasts | src/composables/__tests__/useToast.spec.ts:94-105 | success, error and warning toasts keep insertion order with increasing ids |
| Settings.FontSizeOf | src/stores/settings.ts:26-31 | absent or 0 is medium; otherwise up to 14 small, up to 18 medium, above that large |
| Settings.ApiToLocal | src/stores/settings.ts:24-38 | duration 60 when missing or 0, else copied; sound false only when missing; font size by FontSizeOf |
| Settings.PixelsOf | src/stores/settings.ts:43-47 | small is 14 px, medium 16 px and large 20 px, and each maps back to its own size through apiToLocal's thresholds |
| Settings.LocalToApi | src/stores/settings.ts:41-54 | duration and sound copied; the font size is sent as PixelsOf (14, 16 or 20) and maps back to the same size |
| Settings.RoundTrip | src/stores/settings.ts:24-54 | local → API → local is the identity for every duration except 0 |
| Settings.RoundTripValid | src/stores/settings.ts:7-54 | the round trip holds for every valid duration (15, 30, 60, 120) |
| Settings.ZeroDurationDoesNotRoundTrip | src/stores/settings.ts:34 | a duration of 0 comes back as 60 |
| Settings.ApiToLocalNormalises | src/stores/settings.ts:24-54 | reading an API record, writing it and reading it again gives the first reading |
| Settings.UnwrapEitherShape | src/stores/settings.ts:77 | `data?.settings || data`: a record nested under `settings` and the same record unnested yield the same settings |
| Settings.Merge | src/stores/settings.ts:62 | every saved field overrides the default, every other field keeps the default |
| Settings.Persisted | src/stores/settings.ts:95 | `JSON.stringify` of the settings, parsed back, has every field present |
| Settings.MergePersisted | src/stores/settings.ts:62-95 | settings saved as JSON and merged over any defaults come back unchanged |
| Settings.Update | src/stores/settings.ts:110-113 | only the named field changes |
| Settings.SettingsStore.constructor | src/stores/settings.ts:18-143 | the store starts from DEFAULT_SETTINGS {60, false, medium} and runs loadSettings: with no usable backup and no successful API load it holds the defaults |
| Settings.SettingsStore.LoadSettings | src/stores/settings.ts:57-90 | a well-formed backup is merged over the defaults; with a token and a successful request the API settings replace them and become the backup; loading ends false whenever it was set |
| Settings.SettingsStore.SaveSettings | src/stores/settings.ts:93-107 | the backup is written; with a token the API format is sent and success or failure is reported; without one nothing is sent |
| Settings.SettingsStore.UpdateSetting | src/stores/settings.ts:110-113 | one field changes and the settings are saved: backup written; with a token the API format is sent and 'Settings saved' or 'Failed to save settings' is reported; without one nothing is sent |
| Settings.SettingsStore.ResetSettings | src/stores/settings.ts:116-140 | without a token, or when the request fails, the defaults; with a token and success, the API's settings; always backed up, with the matching notice |
| Router.MetaIn | src/router/index.ts:18-43 | a path no record holds carries no flags; flags that are set come from a record holding the path |
| Router.MetaInFound | src/router/index.ts:18-33 | with distinct paths, a path's flag is set iff the record holding that path has it |
| Router.RoutesDistinct | src/router/index.ts:18-33 | no two records of the table share a path |
| Router.FlaggedRecords | src/router/index.ts:20-25 | the guest-only records are the second to fourth, and the sign-in-only record is the sixth |
| Router.MetaTable | src/router/index.ts:18-33 | exactly /login, /signup and /forgot-password are guest-only, and exactly /profile requires sign-in |
| Router.Guard | src/router/index.ts:41-62 | guest-only while signed in goes to /profile; sign-in-only while signed out goes to /login and remembers the full path unless the path is /login; otherwise proceed and remember nothing |
| Router.GuardTargets | src/router/index.ts:41-62 | the guard redirects only to /profile or /login, and remembers a route only when sending a signed-out user to /login |
| Router.GuardNeverLoops | src/router/index.ts:18-62 | only /profile sends to /login, and only signed-in users on guest pages go to /profile |
| Router.BeforeEach | src/router/index.ts:41-62 | signed in iff the stored token is non-empty; the decision is Guard's; sessionStorage changes only by the remembered route |
| Router.RestoreTarget | src/router/index.ts:65-73 | a route is followed iff the landing is / or /profile and a non-empty remembered route differs from it |
| Router.AfterEach | src/router/index.ts:65-73 | a followed route is removed from sessionStorage first, and a second landing then finds nothing to follow |
| Router.LandTwice | src/router/index.ts:65-73 | the remembered route is followed at most once |
| Api.Bearer | src/services/api.ts:25 | the header value starts with "Bearer " followed by the token |
| Api.TokenOf | src/services/api.ts:25 | a bearer token is read back iff the value starts with "Bearer " |
| Api.TokenOfBearer | src/services/api.ts:25 | the header carries exactly the token |
| Api.AttachToken | src/services/api.ts:21-32 | Authorization is "Bearer " + token iff a non-empty token is stored; otherwise the headers are unchanged |
| Api.Classify | src/services/api.ts:43-111 | no response gives the network-error toast; 401 and only 401 ends the session; 403, 404 (with a URL), 429, 502/503 and 504 give their fixed messages, 429 as a warning; 500 and unlisted statuses of at least 400 without a server message give 'Server error…' and 'Something went wrong…' |
| Api.ShownExactlyWhen | src/services/api.ts:43-111 | a toast is shown iff there is no response, or the status is at least 400 and not 401 or 422, with 404 needing a request URL |
| Api.WarningOnlyForTooMany | src/services/api.ts:89-90 | the only warning is for 429; every other toast is an error |
| Api.ServerMessageShown | src/services/api.ts:93-110 | for 500 and every unlisted status of at least 400, a non-empty server message is what the toast says |
| Api.GatewayStatusesAlike | src/services/api.ts:97-99 | 502 and 503 are reported the same way |
| Api.RememberRoute | src/services/api.ts:56 | a remembered route is neither / nor anything starting with /login, so never the login page itself |
| Api.ExpireSession | src/services/api.ts:50-71 | with a non-empty token outside /login: pathname+search is remembered unless it is "/" or contains "/login", the token is removed, the session-expired error is shown and /login is the redirect; otherwise nothing changes |
| Api.RememberedRouteIsFollowed | src/services/api.ts:55-58 | a route the 401 branch remembers is followed by the router after sign-in lands on / or /profile |
| Api.OnResponseError | src/services/api.ts:35-115 | every error is rejected as it came, with at most one toast (the classified one); on a 401 the storages, toast and redirect are those of ExpireSession; storage changes only on the 401 branch |
| Api.ApiClient.constructor | src/services/api.ts:8 | the client's limiter allows one start per 1000 and 20 waiting |
| Api.ApiClient.Send | src/services/api.ts:290-303 | saving a test, and only that, goes through the limiter, and is refused when 20 saves are waiting; other requests leave the limiter alone |
| Auth.ConvertUser | src/stores/auth.ts:26-32 | id, name, email and avatar copied; a missing or empty provider becomes 'email' |
| Auth.ConvertUserRoundTrip | src/stores/auth.ts:26-32 | a store user reads back unchanged through its API form |
| Auth.ConvertUserIdempotent | src/stores/auth.ts:26-32 | converting a converted user changes nothing |
| Auth.HasErrors | src/stores/auth.ts:37-38 | only an axios error with a response body can carry validation errors |
| Auth.FirstFieldMessage | src/stores/auth.ts:40-41 | a validation message is the first message of a non-empty first field of a validation-errors object |
| Auth.ResponseMessage | src/stores/auth.ts:41-43 | a present response message is never empty |
| Auth.HandleErrorAsWritten | src/stores/auth.ts:35-46 | the code as written yields `undefined` exactly when the first validation field lists no message |
| Auth.HandleErrorAsWrittenExample | src/stores/auth.ts:40-41 | a concrete 422 body with an empty first field gives `undefined` |
| Auth.HandleError | src/stores/auth.ts:35-46 | with validation errors but no usable first message, the response message or "An error occurred" |
| Auth.HandleErrorAgrees | src/stores/auth.ts:35-46 | wherever the code as written yields a message, the corrected function yields the same one |
| Auth.HandleErrorPriority | src/stores/auth.ts:35-46 | the first validation message, then the response message, then (without validation errors) the error's own message, then "An error occurred"; a non-axios Error gives its message, anything else the default |
| Auth.AuthStore.constructor | src/stores/auth.ts:20-23 | no user (not authenticated), not loading, no error |
| Auth.AuthStore.IsAuthenticated | src/stores/auth.ts:21 | signed in exactly when the user is not null |
| Auth.AuthStore.Authenticate | src/stores/auth.ts:48-69 | success stores a non-empty token and signs in the converted user (provider replaced when given); failure records handleError's message, leaves user and token alone and throws it; loading ends false |
| Auth.AuthStore.Login | src/stores/auth.ts:48-69 | as Authenticate, with the user's own provider |
| Auth.AuthStore.Signup | src/stores/auth.ts:71-92 | as Authenticate, with the user's own provider |
| Auth.AuthStore.HandleOAuthCallback | src/stores/auth.ts:116-140 | as Authenticate, with the provider replaced by the one signed in with |
| Auth.AuthStore.LoginWithProvider | src/stores/auth.ts:94-114 | the page goes to the backend's social endpoint for the provider, the store stays loading with no error |
| Auth.AuthStore.FetchUser | src/stores/auth.ts:142-159 | nothing without a token; success signs in the converted user; failure records the error and clears token and user; loading ends false |
| Auth.AuthStore.Logout | src/stores/auth.ts:161-173 | whatever the request does: no user, no token, no error, not loading |
| Auth.AuthStore.Request | src/stores/auth.ts:175-201 | the password-reset actions succeed or record handleError's message; loading ends false |
| Auth.FailedLoginStaysSignedOut | src/stores/__tests__/auth.spec.ts:80-96 | a failed login on a fresh store throws and leaves it signed out |
| Themes.IsTheme | src/stores/theme.ts:65 | a valid theme id is exactly one of default, ocean, sunset, forest, violet and rose |
| Themes.Find | src/stores/theme.ts:65-73 | `find`: an entry of the table with that id, or none iff no entry has it |
| Themes.FindAt | src/stores/theme.ts:73 | with distinct ids, the entry found for an id is the entry holding it |
| Themes.ThemeTableWellFormed | src/stores/theme.ts:14-60 | six entries with pairwise distinct ids; the initial 'default' theme is the first |
| Themes.EveryThemeFound | src/stores/theme.ts:14-57 | every entry is found by its own id |
| Themes.ThemeStore.constructor | src/stores/theme.ts:60-95 | the store starts with 'default' and loads: a valid saved theme, else 'default', applied |
| Themes.ThemeStore.ApplyTheme | src/stores/theme.ts:72-80 | the current theme's entry is applied: the root gets its primary and secondary colours and data-theme its id; nothing when no entry has the id |
| Themes.ThemeStore.LoadTheme | src/stores/theme.ts:63-69 | a saved value is adopted only when it is a theme id, otherwise the theme is unchanged; then applied |
| Themes.ThemeStore.SetTheme | src/stores/theme.ts:83-87 | the theme becomes current, is saved under 'keyflow_theme' and applied |
| Themes.SetThenReload | src/stores/theme.ts:63-87 | a theme that was set is the one a new store loads |
| Languages.IsLanguage | src/stores/language.ts:16 | a supported language is exactly en, ua or es |
| Languages.Adopt | src/stores/language.ts:14-19 | a non-empty saved value in {en, ua, es} is adopted, otherwise the language is unchanged |
| Languages.AdoptKeepsSupported | src/stores/language.ts:14-19 | the language stays supported |
| Languages.AdoptSaved | src/stores/language.ts:14-19 | a saved supported language is adopted, and adopting again changes nothing |
| Languages.AdoptUnsupported | src/stores/language.ts:16 | an unsupported or empty saved value changes nothing |
| Languages.LanguageStore.constructor | src/stores/language.ts:7 | the initial language is 'en' |
| Languages.LanguageStore.SetLanguage | src/stores/language.ts:9-12 | sets the language and saves it under 'language' |
| Languages.LanguageStore.InitLanguage | src/stores/language.ts:14-19 | the language becomes Adopt(saved, current) |
| Languages.StoreSetThenInit | src/stores/language.ts:9-19 | setLanguage(l) then initLanguage() leaves l |
| Languages.LanguageRef.constructor | src/composables/useLanguage.ts:5 | the shared value starts as 'en' |
| Languages.LanguageHandle.constructor | src/composables/useLanguage.ts:7-24 | a handle works on the shared value it is given |
| Languages.LanguageHandle.SetLanguage | src/composables/useLanguage.ts:8-11 | sets the shared value and saves it under 'language' |
| Languages.LanguageHandle.InitLanguage | src/composables/useLanguage.ts:13-18 | the shared value becomes Adopt(saved, current) |
| Languages.UseLanguage | src/composables/useLanguage.ts:7-24 | every call hands out the one shared value |
| Languages.SharedSetThenInit | src/composables/useLanguage.ts:5-18 | a language set through one caller's handle is what another caller sees, also after its initLanguage |

## Left out

- Real time and timers: `Date.now`, `setInterval`, `setTimeout` and the limiter's `await` sleeps are a logical clock and explicit events (`Tick`, `Expire`, `Wake`, `TaskDone`, `Fire`). The model does not say when an event happens, only what it does.
- `debounce` in src/utils/rateLimiter.ts: it only cancels and re-arms a timer.
- The limiter's promise plumbing: the model does not cover how a task's own result or rejection reaches the caller of `execute`. It records which tasks start, in what order and when.
- Axios and the REST calls themselves, other than `saveTest`: every call is given as its outcome. Other endpoints are `Api.Request.Plain`, named only by their path. The response typings are not modelled.
- The API base URL comes from the build environment, so `LoginWithProvider` takes it as a parameter. The CSRF-cookie request is not modelled, because its failure is ignored.
- `window.location` and DOM effects: the 401 redirect and `loginWithProvider`'s navigation are returned as target strings. The theme's CSS properties are the `root` field.
- Toasts raised by the interceptors and the settings store are returned as `Notice` values and are not posted to a `ToastStore` inside those methods.
- The settings backup is held in its parsed form, not as JSON text. `Malformed` stands for text that `JSON.parse` rejects.
- Settings.Merge: a parsed backup holds only well-typed fields. `{ ...DEFAULT_SETTINGS, ...JSON.parse(saved) }` copies whatever the JSON holds, including `null`, values of another type and extra keys.
- Settings.ApiToLocal: `ApiSettings` cannot hold `null` or ill-typed fields. In the source, `sound_enabled: null` passes the `!== undefined` test and is copied as `null`, and a non-numeric duration or font size is copied or compared as it is.
- Settings.SettingsStore.constructor: `loadSettings` is asynchronous. With a token, the source's store is returned while still loading and the API settings arrive later; the model's constructor runs the whole load, API outcome included, before it returns.
- Auth.AuthStore.Authenticate: on failure it records the corrected `HandleError`, not `handleError` as written. When the first validation field lists no message, the source stores `undefined` as the error and throws an `Error` whose message is empty (see Findings).
- Auth.AuthStore.Login: failure path as for `Authenticate`.
- Auth.AuthStore.Signup: failure path as for `Authenticate`.
- Auth.AuthStore.HandleOAuthCallback: failure path as for `Authenticate`.
- Auth.AuthStore.FetchUser: records the corrected `HandleError` on failure, as `Authenticate` does.
- Auth.AuthStore.Request: records the corrected `HandleError` on failure, as `Authenticate` does.
- Typing.TypingSession.HandleKeyPress: the stores' exported refs change only through the stores' actions. Pinia lets any caller write a ref such as `isStarted` or `timerInterval` directly; a state written that way (for example `isStarted` set with no interval installed) lies outside `Valid()`, which `HandleKeyPress` and the other actions require, so the model says nothing about it.
- Typing.TypingSession.HandleKeyPress: strings are sequences of Unicode scalar values, not JavaScript's UTF-16 code units. A key outside the Basic Multilingual Plane (an emoji) has `key.length` 2 in the source and is ignored there, while the model appends it. Every length in `Typing.Chars`, `Typing.Accuracy`, `Typing.NearEnd` and `Typing.Extension` counts scalars where the source counts code units.
- Console logging and the `console.error` in `logout`'s catch.
- The floating-point details of `Math.round` on doubles: rounding is half-up on integers and rationals.
- Router.MetaTable: the model looks a path up by exact string match (also in `Router.MetaIn` and `Router.MetaOf`). vue-router matches case-insensitively and accepts a trailing slash, so in the application `/Profile` and `/profile/` get the flags of `/profile`, where the model gives them none. The dynamic `/auth/callback/:provider` route and the catch-all route carry no meta.
- The display names and emoji of the themes.
- The watcher that re-applies the theme when `currentTheme` changes: every action here calls `ApplyTheme` itself.
- src/utils/session.ts, src/composables/useMeta.ts, analytics, error reporting, application wiring and build configuration are not part of this model.

## Findings

| source | as written | input that shows it | evidently intended | confidence | as-written member | corrected member |
|---|---|---|---|---|---|---|
| src/stores/auth.ts:40-41 | a validation-errors object whose first field holds an empty list makes `handleError` return `undefined`, because an empty array is truthy and its element 0 does not exist | a 422 body `{message: "The given data was invalid.", errors: {email: [], name: ["The email field is required."]}}` | fall back to the response message, or "An error occurred", as the same branch does when there is no field | low (servers rarely send empty lists); not executed | Auth.HandleErrorAsWrittenExample | Auth.HandleError |
