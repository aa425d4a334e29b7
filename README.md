# Locust load-testing dashboard — a Dafny model

The system is a web dashboard for running Locust load tests.

- A React front end (`locust-dashboard/`, plus the standalone
  `dashboard/` chart) has login and signup pages, an authentication
  context, a live metrics view fed over a WebSocket, and pages for
  settings, profile, reports, load tests and PDF export.
- A FastAPI back end (`metrics-api/`) starts and stops the Locust process,
  relays posted metrics to every connected WebSocket, stores users in
  MySQL, and offers a demo API that issues JWTs without a database.

This project models the decision logic of both halves.

- Pure rules become functions over datatypes, each with lemmas. These
  include:
  - error-message extraction;
  - signup validation chains;
  - the password-strength buckets;
  - uptime text;
  - the 30-point sliding window;
  - URL normalisation;
  - the authentication decision;
  - token claims.
- The pages and the server, which change their state step by step, become
  classes. Their fields are the React state or the Python globals. Each
  handler is a method whose `ensures` states the whole new state.
- An `async` handler that awaits a call is split in two. The first method
  runs up to the `await`, and the second takes the settled reply as a
  parameter.
- Network replies, socket messages, timer ticks, clock readings, bcrypt,
  SQL and JWT encoding are all parameters.

Modules:

- `Text`: the string built-ins the source uses, and decimal rendering.
- `Optional`: the option type.
- `JsValues`: JavaScript values and operators.
- `AuthContext`: the authentication context.
- `MetricsDashboard`, `LiveChart`, `MetricsPage`: the three live-metrics
  views.
- `MetricsApi`: the FastAPI server in `main.py`.
- `SignupRules` and `Pages`: rules and shapes shared by the login and
  signup pages.
- One module for each page: `AdvancedSignup`, `Signup`, `NewSignup`,
  `Login`, `AdvancedLogin`, `NewLogin`, `Settings`, `Profile`,
  `Dashboard`, `NewDashboard`, `Reports` and `LoadTests`.
- `UserDisplay`: the avatar and greeting derivations.
- `PdfExport`: the PDF export component.
- `Database`, `UserManager`, `DemoApi`: the rest of the Python API.

## Model

| member | source | states |
|---|---|---|
| AuthContext.ExtractErrorMessage | locust-dashboard/src/contexts/AuthContext.js:13-46 | A string error is returned unchanged. Any other error follows the classifier's branches to one completion. |
| AuthContext.ExtractPrecedence | locust-dashboard/src/contexts/AuthContext.js:18-45 | For a non-string error the order is fixed: array data, then `detail`, then `message` (a non-string message gives 'An error occurred'), then `error.message`, then 'An unexpected error occurred'. A null or undefined entry in array data or in an array `detail` makes the classifier throw. |
| AuthContext.ExtractNonString | locust-dashboard/src/contexts/AuthContext.js:45 | A non-string result can only be a truthy non-string `error.message`. |
| AuthContext.MapEntriesSpec | locust-dashboard/src/contexts/AuthContext.js:22-35 | Mapping validation entries succeeds iff no entry is null or undefined. It then yields each entry's `msg`, else `message`, else 'Invalid input', in order; strings are kept in a `detail` array. Otherwise it throws at the first nullish entry. |
| AuthContext.JoinMappedText | locust-dashboard/src/contexts/AuthContext.js:23 | The mapped messages are joined with ', ' in entry order. |
| AuthContext.EntryText | locust-dashboard/src/contexts/AuthContext.js:23 | `err.msg \|\| err.message \|\| 'Invalid input'` is always truthy. |
| AuthContext.EntryValue | locust-dashboard/src/contexts/AuthContext.js:32-34 | A `detail` entry that is a string is kept; any other entry gives a truthy message. |
| AuthContext.EntryMessage | locust-dashboard/src/contexts/AuthContext.js:23 | The map callback throws exactly on a null or undefined entry. |
| AuthContext.IsNetworkError | locust-dashboard/src/contexts/AuthContext.js:110-115 | The test is true iff the error is not nullish and its code is 'NETWORK_ERROR', or its string message includes 'Network Error', or its array message holds that string. A nullish error throws on reading `response`. Past the code test, it throws iff the message is neither a string nor an array. |
| AuthContext.CatchAuthError | locust-dashboard/src/contexts/AuthContext.js:108-125 | A network error gives the fixed connection message. Any other error gives the classifier's message, or the fallback when that is falsy. When the network test or the classifier throws, the call rejects with that exception. A resolved result is always `success: false` with a truthy error. |
| AuthContext.LoginOutcome | locust-dashboard/src/contexts/AuthContext.js:83-127 | `login` succeeds iff the post is fulfilled with a body and `/api/users/me` is fulfilled. A rejected post, a reply without a body (the destructuring TypeError) and a rejected user fetch each go through the catch with 'Login failed'. |
| AuthContext.AfterLogin | locust-dashboard/src/contexts/AuthContext.js:141-160 | After its own post, `signup` settles as the awaited login resolves. A login that rejects is caught again with 'Signup failed'. |
| AuthContext.NetworkErrorMessage | locust-dashboard/src/contexts/AuthContext.js:115-120 | Code 'NETWORK_ERROR' gives `{success: false}` with 'Unable to connect to server…'. |
| AuthContext.OrdinaryErrorMessage | locust-dashboard/src/contexts/AuthContext.js:122-125 | A non-network failure with no response data shows its own message. |
| AuthContext.AuthSession.constructor | locust-dashboard/src/contexts/AuthContext.js:57-58 | The session starts with the stored token, no user, and loading. |
| AuthContext.AuthSession.CheckStoredToken | locust-dashboard/src/contexts/AuthContext.js:61-81 | A stored token is checked with `/api/users/me`. The user is set on success, the token is removed on failure, and loading ends either way. |
| AuthContext.AuthSession.Login | locust-dashboard/src/contexts/AuthContext.js:83-127 | The credentials are posted first. Success means both calls were fulfilled; the token is then stored and the user set, so the session is authenticated. Failure leaves the user unchanged and resolves through the catch mapping with 'Login failed'. A reply without a body is caught as the destructuring TypeError, and the token is left as it was. The outcome is `LoginOutcome` of the two replies. |
| AuthContext.AuthSession.Signup | locust-dashboard/src/contexts/AuthContext.js:129-161 | The account is posted. A rejected post resolves with the 'Signup failed' mapping and changes neither token nor user. On success the login with the same email and password follows: the token is stored exactly when its reply has a body, the requests are signup, login and (then) the user fetch, and the outcome is `AfterLogin` of the login's outcome. A failed inner login therefore shows 'Login failed'. |
| AuthContext.AuthSession.Logout | locust-dashboard/src/contexts/AuthContext.js:163-166 | The token is removed and the user is null, so the session is not authenticated. |
| MetricsDashboard.JsRem | locust-dashboard/src/components/MetricsDashboard.js:60 | JavaScript `%` takes the sign of the dividend. |
| MetricsDashboard.UptimeParts | locust-dashboard/src/components/MetricsDashboard.js:58-61 | For a non-negative span, the seconds part is in 0..59, and minutes·60 + seconds gives the span back. |
| MetricsDashboard.UptimeTextInjective | locust-dashboard/src/components/MetricsDashboard.js:58-61 | Distinct non-negative spans give distinct `${m}m ${s}s` texts. |
| MetricsDashboard.ReadBackParts | locust-dashboard/src/components/MetricsDashboard.js:61 | The minutes and seconds numerals can be read back from the text. |
| MetricsDashboard.DecimalHasNoLetters | locust-dashboard/src/components/MetricsDashboard.js:61 | A rendered number contains no 'm', 's' or space. |
| MetricsDashboard.Stat | locust-dashboard/src/components/MetricsDashboard.js:138-222 | A stat is the latest sample's field when that is non-nullish. It is 0 for an empty buffer, and 0 when the latest sample lacks the field or holds null or undefined there; it is never nullish. |
| MetricsDashboard.StartVerdicts | locust-dashboard/src/components/MetricsDashboard.js:83-88 | A start status is accepted, rejected with an alert (falsy, or a string without "locust started"), or a truthy non-string that throws; never two of these. |
| MetricsDashboard.Dashboard.constructor | locust-dashboard/src/components/MetricsDashboard.js:29-38 | The initial state: an empty buffer, not running, '0m 0s', no alerts. |
| MetricsDashboard.Dashboard.OnMessage | locust-dashboard/src/components/MetricsDashboard.js:42-50 | The buffer becomes the last 100 old samples plus the new one: at most 101, newest last, order kept, nothing dropped below 101. A "Locust stopped" status clears `running` and `startTime`. |
| MetricsDashboard.Dashboard.Tick | locust-dashboard/src/components/MetricsDashboard.js:54-65 | While running with a truthy start time, the elapsed text is the uptime of `now - startTime`. Otherwise nothing changes. |
| MetricsDashboard.Dashboard.BeginStart | locust-dashboard/src/components/MetricsDashboard.js:67-68 | `starting` is set and nothing else changes. |
| MetricsDashboard.Dashboard.FinishStart | locust-dashboard/src/components/MetricsDashboard.js:80-88 | `starting` ends false. The run starts, at `now`, only when the lower-cased status contains "locust started"; otherwise `running` is unchanged. A rejected status adds the alert '❌ Failed to start Locust'; a null body or a non-string status adds none. A rejected reply changes nothing. |
| MetricsDashboard.Dashboard.HandleStop | locust-dashboard/src/components/MetricsDashboard.js:91-102 | Only the status "stopped" or "Locust stopped" clears `running` and `startTime`. Any other status of a body adds the alert '❌ Failed to stop Locust'; a failed request or null body adds none. |
| MetricsDashboard.Dashboard.HandleClear | locust-dashboard/src/components/MetricsDashboard.js:104-108 | The buffer is emptied, the elapsed text reset and `startTime` cleared, while `running` is untouched. |
| LiveChart.Slide | dashboard/src/components/LiveChart.js:24-27 | At most 30 points, with the new point last. Fewer than 30 means nothing is dropped; exactly 30 drops only the oldest. The survivors are a suffix in their old order. |
| LiveChart.SlideKeepsSuffix | dashboard/src/components/LiveChart.js:25 | After any run of messages the window is the last 30 of everything received. |
| LiveChart.SlideThenTail | dashboard/src/components/LiveChart.js:25 | One slide followed by the rest equals taking the last 30 of all of them. |
| LiveChart.LastNOfSuffix | dashboard/src/components/LiveChart.js:25 | Elements in front of a long enough tail do not change the last n. |
| LiveChart.Chart.constructor | dashboard/src/components/LiveChart.js:19 | The chart starts empty. |
| LiveChart.Chart.OnMessage | dashboard/src/components/LiveChart.js:22-28 | The window slides by the point (timestamp·1000, response_time). That point is last, and the length grows by one below 30. |
| MetricsPage.ReplyStatusIs | locust-dashboard/src/pages/Metrics.js:40 | The status comparison throws on a rejected or empty reply. Otherwise it is true exactly on an equal status. |
| MetricsPage.Page.constructor | locust-dashboard/src/pages/Metrics.js:26-30 | The page starts with no samples, status 'stopped', timer 0 and no interval. |
| MetricsPage.Page.StartLoadTest | locust-dashboard/src/pages/Metrics.js:37-51 | Only the exact status 'Locust started' sets 'running' and starts a fresh interval; an interval already live keeps running. Any other status leaves the page as it was. A failed request adds the alert 'Failed to start load test'. |
| MetricsPage.Page.Tick | locust-dashboard/src/pages/Metrics.js:42-45 | The timer grows by exactly 1 and one fetch is issued. |
| MetricsPage.Page.FetchResolved | locust-dashboard/src/pages/Metrics.js:32-35 | A fetched sample is appended with no bound, so the total-requests display grows by one. A failure appends nothing. |
| MetricsPage.Page.StopLoadTest | locust-dashboard/src/pages/Metrics.js:53-59 | Only 'Locust stopped' sets 'stopped' and clears the interval; otherwise the status is unchanged. |
| MetricsPage.Page.ClearMetrics | locust-dashboard/src/pages/Metrics.js:61-64 | The samples are emptied and the timer is 0, so total requests is 0. The status is unchanged. |
| MetricsApi.PyStr | metrics-api/main.py:52-53 | `str()` of a string field is itself; of an int, its decimal text. |
| MetricsApi.GetOr | metrics-api/main.py:52-55 | `dict.get(key, default)`. |
| MetricsApi.LaunchCommand | metrics-api/main.py:51-65 | The command is `locust -f locustfile.py --headless -u U -r R -t T --host H` in that order, with the defaults filled in. Building it fails iff `time` or `host` is not a string. |
| MetricsApi.DefaultLaunch | metrics-api/main.py:52-55 | An empty body launches with 10 users, rate 2, '10m' and the placeholder host. |
| MetricsApi.Running | metrics-api/main.py:48 | A process is running iff it is present and alive. |
| MetricsApi.Server.constructor | metrics-api/main.py:10-12 | There is no process and no connection. |
| MetricsApi.Server.ProcessExit | metrics-api/main.py:48 | A process that exits on its own is no longer alive. |
| MetricsApi.Server.StartLocust | metrics-api/main.py:44-70 | A start while alive is rejected with 400 "Locust already running." and the process is unchanged. A successful start records the new process and answers "Locust started". Malformed input gives 500. |
| MetricsApi.Server.StopLocust | metrics-api/main.py:72-84 | A stop while alive clears the process and answers "Locust stopped". A stop while idle gives 400 "Locust is not running." |
| MetricsApi.Server.Accept | metrics-api/main.py:33-36 | An accepted socket joins the connection set. |
| MetricsApi.Server.Closed | metrics-api/main.py:37-41 | A client disconnect removes the socket; any other failure leaves it in the set. |
| MetricsApi.Server.ReceiveMetrics | metrics-api/main.py:22-31 | The payload is sent once to each connection in turn. The answer is "ok" iff the body parsed and no send failed, and then every connection received it. A failure gives 500; earlier deliveries stay. |
| MetricsApi.Deliveries | metrics-api/main.py:27-28 | One delivery per connection visited, carrying the payload. |
| MetricsApi.Recipients | metrics-api/main.py:27-28 | The connections a run of deliveries reached, in order. |
| MetricsApi.RecipientsOfDeliveries | metrics-api/main.py:27-28 | The recipients of the broadcast are exactly the visiting order. |
| SignupRules.FirstFailure | locust-dashboard/src/pages/AdvancedSignup.js:81-103 | The result is None iff every check passes; otherwise it is a failing check's message. |
| SignupRules.FirstFailureCons | locust-dashboard/src/pages/AdvancedSignup.js:81-103 | Checks run in order and the first failure wins. |
| SignupRules.SignupValidation | locust-dashboard/src/pages/AdvancedSignup.js:81-103 | The checks run in order: an empty field gives 'fill in all fields'; then a mismatch; then a password under 6; then unagreed terms. It passes iff all four hold. |
| SignupRules.Bucket | locust-dashboard/src/pages/AdvancedSignup.js:156-163 | The length bucket is 0 iff the password is empty and 4 iff it has 8 or more characters. |
| SignupRules.PasswordStrength | locust-dashboard/src/pages/AdvancedSignup.js:156-163 | Length 0→0, <4→25 Weak, <6→50 Fair, <8→75 Good, else 100 Strong, with the page's palette. |
| SignupRules.StrengthMonotone | locust-dashboard/src/pages/AdvancedSignup.js:156-163 | Strength is non-decreasing in length. |
| SignupRules.StrengthMatchesLengthRule | locust-dashboard/src/pages/AdvancedSignup.js:93-97 | Strength of at least 75 ('Good') is exactly the length ≥ 6 that validation demands. |
| AdvancedSignup.LoginState | locust-dashboard/src/pages/AdvancedSignup.js:107-114 | The route state carries the entered email and the account-created message. |
| AdvancedSignup.Page.constructor | locust-dashboard/src/pages/AdvancedSignup.js:48-58 | The form starts empty, not agreed, with no error and not loading. |
| AdvancedSignup.Page.Strength | locust-dashboard/src/pages/AdvancedSignup.js:156-163 | The strength is that of the current password, in this page's palette. |
| AdvancedSignup.Page.HandleChange | locust-dashboard/src/pages/AdvancedSignup.js:68-73 | Only the named field changes. |
| AdvancedSignup.Page.SetAgreed | locust-dashboard/src/pages/AdvancedSignup.js:652 | Only the terms flag changes. |
| AdvancedSignup.Page.Submit | locust-dashboard/src/pages/AdvancedSignup.js:75-104 | A failed check shows its message and ends loading, with no call made. Otherwise signup is called with the form's values. |
| AdvancedSignup.Page.Resolve | locust-dashboard/src/pages/AdvancedSignup.js:105-125 | Success navigates to /login carrying the email. A non-string error is replaced by the default. A throw shows 'Signup failed. Please try again.' Loading ends on every path. |
| Signup.DisplayedError | locust-dashboard/src/pages/Signup.js:250 | A non-string error is displayed as the generic text. |
| Signup.ShownAsStored | locust-dashboard/src/pages/Signup.js:250 | A string error is displayed as stored. |
| Signup.Page.constructor | locust-dashboard/src/pages/Signup.js:36-46 | The form starts empty, not agreed, with no error and not loading. |
| Signup.Page.HandleChange | locust-dashboard/src/pages/Signup.js:50-55 | Only the named field changes. |
| Signup.Page.SetAgreed | locust-dashboard/src/pages/Signup.js:445 | Only the terms flag changes. |
| Signup.Page.Submit | locust-dashboard/src/pages/Signup.js:57-87 | The same four checks, each exit resetting `isLoading`. When all pass, signup is called. |
| Signup.Page.Resolve | locust-dashboard/src/pages/Signup.js:87-101 | Success navigates to /dashboard. A non-string error gives the default. A throw shows 'Signup failed. Please try again.' Loading ends. |
| NewSignup.Validation | locust-dashboard/src/pages/NewSignup.js:79-87 | The mismatch check comes first, then the terms check. There are no empty or length checks, and it passes iff both hold. |
| NewSignup.AcceptsEmptyPassword | locust-dashboard/src/pages/NewSignup.js:79-87 | Empty equal passwords pass this page, though the other signup pages reject them. |
| NewSignup.Page.constructor | locust-dashboard/src/pages/NewSignup.js:50-61 | The form starts empty, not agreed, with no error and not loading. |
| NewSignup.Page.Strength | locust-dashboard/src/pages/NewSignup.js:130-137 | The same length buckets, in this page's palette. |
| NewSignup.Page.HandleChange | locust-dashboard/src/pages/NewSignup.js:68-73 | Only the named field changes. |
| NewSignup.Page.SetAgreed | locust-dashboard/src/pages/NewSignup.js:550 | Only the terms flag changes. |
| NewSignup.Page.Submit | locust-dashboard/src/pages/NewSignup.js:75-91 | The error is cleared first. A failed check shows its message without loading. Loading starts only after validation passes. |
| NewSignup.Page.Resolve | locust-dashboard/src/pages/NewSignup.js:91-98 | Any resolved result navigates to /dashboard. A throw gives 'Failed to create account. Please try again.' Loading ends. |
| Login.FailureMessage | locust-dashboard/src/pages/Login.js:53-58 | A string `result.error` is shown; anything else, including a throw, gives 'Invalid credentials. Please try again.' |
| Login.NetworkFailureShown | locust-dashboard/src/pages/Login.js:53-54 | A network failure in the context reaches the page as the connection message. |
| Login.Page.constructor | locust-dashboard/src/pages/Login.js:34-38 | The fields start empty, with no error and not loading. |
| Login.Page.SetEmail | locust-dashboard/src/pages/Login.js:139 | Only the email changes. |
| Login.Page.SetPassword | locust-dashboard/src/pages/Login.js:161 | Only the password changes. |
| Login.Page.Submit | locust-dashboard/src/pages/Login.js:42-47 | Loading is set, the error cleared, and login is called with the fields. |
| Login.Page.Resolve | locust-dashboard/src/pages/Login.js:47-61 | Success navigates to /dashboard; otherwise the failure message is shown. Loading is false on every path. |
| AdvancedLogin.Page.constructor | locust-dashboard/src/pages/AdvancedLogin.js:46-50 | The fields start empty, with no error and not loading. |
| AdvancedLogin.Page.ApplyRouteState | locust-dashboard/src/pages/AdvancedLogin.js:63-65 | A truthy `state.email` prefills the email field; otherwise it is untouched. |
| AdvancedLogin.PrefillFromSignup | locust-dashboard/src/pages/AdvancedLogin.js:63-65 | The state the advanced signup page navigates with prefills its email here. |
| AdvancedLogin.Page.SetEmail | locust-dashboard/src/pages/AdvancedLogin.js:333 | Only the email changes. |
| AdvancedLogin.Page.SetPassword | locust-dashboard/src/pages/AdvancedLogin.js:375 | Only the password changes. |
| AdvancedLogin.Page.Submit | locust-dashboard/src/pages/AdvancedLogin.js:68-73 | Loading is set, the error cleared, and login is called. |
| AdvancedLogin.Page.Resolve | locust-dashboard/src/pages/AdvancedLogin.js:73-86 | Success navigates to /dashboard. A string error is shown verbatim; otherwise, or on a throw, the credentials message. Loading ends. |
| NewLogin.Page.constructor | locust-dashboard/src/pages/NewLogin.js:43-49 | The form starts empty, with no error and not loading. |
| NewLogin.Page.HandleChange | locust-dashboard/src/pages/NewLogin.js:56-61 | Only the named field changes. |
| NewLogin.Page.Submit | locust-dashboard/src/pages/NewLogin.js:63-68 | The error is cleared, loading is set, and login is called with the form. |
| NewLogin.Page.Resolve | locust-dashboard/src/pages/NewLogin.js:68-75 | Any resolved login navigates to /dashboard. A throw gives 'Invalid email or password'. Loading ends. |
| Settings.UpdateSetting | locust-dashboard/src/pages/Settings.js:64-70 | Exactly `settings[category][key]` takes the value; every other category and key reads as before. |
| Settings.UpdateWithCurrent | locust-dashboard/src/pages/Settings.js:64-70 | Writing a setting's current value changes nothing. |
| Settings.UpdatesCommute | locust-dashboard/src/pages/Settings.js:64-70 | Updates of different settings commute. |
| Settings.RenderedShape | locust-dashboard/src/pages/Settings.js:363-397 | The rendered list has 2n-1 entries: key i at position 2i and a divider at every odd position. |
| Settings.DividersBetweenKeys | locust-dashboard/src/pages/Settings.js:363-397 | Every divider has a key row on each side, namely two consecutive keys, and the key rows read the keys in order. |
| Settings.Page.constructor | locust-dashboard/src/pages/Settings.js:37-61 | The page starts with the default record, unsaved. |
| Settings.Page.HandleSettingChange | locust-dashboard/src/pages/Settings.js:63-72 | The one setting is updated and the state is marked unsaved. |
| Settings.Page.HandleSave | locust-dashboard/src/pages/Settings.js:74-78 | The state is marked saved with the settings unchanged, and a timeout is scheduled. |
| Settings.Page.SaveTimeout | locust-dashboard/src/pages/Settings.js:77 | The timeout clears the saved flag. |
| Settings.Page.HandleResetDefaults | locust-dashboard/src/pages/Settings.js:80-105 | The initial record is restored exactly and the state is unsaved, so a reset is idempotent. |
| UserDisplay.CharAt0 | locust-dashboard/src/pages/Dashboard.js:297 | `v?.charAt(0)` is undefined on nullish and the first character of a string. It throws on any other value. |
| UserDisplay.AvatarInitial | locust-dashboard/src/pages/Profile.js:61 | The initial is one character: the first of a non-empty `full_name`. |
| UserDisplay.AvatarFallbacks | locust-dashboard/src/pages/Dashboard.js:297 | An empty or missing name falls back to the email's first character, then to 'U'. |
| UserDisplay.GreetingName | locust-dashboard/src/pages/Dashboard.js:822 | The greeting name is a non-empty word with no space. It throws iff `full_name` is present but not a string. |
| UserDisplay.GreetingFirstWord | locust-dashboard/src/pages/NewDashboard.js:535 | The greeting is the first space-separated word of `full_name`, or 'User' when that is empty. |
| Profile.Seed | locust-dashboard/src/pages/Profile.js:21-24 | A field is taken from the user when truthy, else ''. |
| Profile.Page.constructor | locust-dashboard/src/pages/Profile.js:19-25 | The fields are seeded from the user; the page is not editing. |
| Profile.Page.ToggleEdit | locust-dashboard/src/pages/Profile.js:73 | Edit mode flips. |
| Profile.Page.EditFullName | locust-dashboard/src/pages/Profile.js:95 | Only the name changes. |
| Profile.Page.EditEmail | locust-dashboard/src/pages/Profile.js:104 | Only the email changes. |
| Profile.Page.HandleSave | locust-dashboard/src/pages/Profile.js:27-32 | Edit mode ends and success is shown, with the fields kept. |
| Profile.Page.SuccessTimeout | locust-dashboard/src/pages/Profile.js:31 | The timeout clears success. |
| Profile.Page.UserChanged | locust-dashboard/src/pages/Profile.js:19 | A new context user replaces the old one; the fields keep their values, since the initial state is read once. |
| Profile.Page.HandleCancel | locust-dashboard/src/pages/Profile.js:34-40 | The fields are restored from the user the context holds now, and edit mode ends. |
| Dashboard.SidebarSuites | locust-dashboard/src/pages/Dashboard.js:403 | At most the first 2 suites, in order. |
| Dashboard.SuiteCaption | locust-dashboard/src/pages/Dashboard.js:423 | The caption is the first 20 characters plus '...'. |
| Dashboard.ChipLabel | locust-dashboard/src/pages/Dashboard.js:571 | The chip reads 'Test Running' iff running, else 'Ready'. The new dashboard's chip (`NewDashboard.js:212`) is the same expression. |
| Dashboard.Page.constructor | locust-dashboard/src/pages/Dashboard.js:114-122 | The page starts not running, with the dialog and snackbar closed. |
| Dashboard.Page.HandleLogout | locust-dashboard/src/pages/Dashboard.js:131-133 | Only the dialog opens; there is no logout. |
| Dashboard.Page.ConfirmLogout | locust-dashboard/src/pages/Dashboard.js:135-139 | The session is logged out, the page navigates to /login, and the dialog closes. |
| Dashboard.Page.CancelLogout | locust-dashboard/src/pages/Dashboard.js:141-143 | The dialog closes with no logout. |
| Dashboard.Page.HandleStartTest | locust-dashboard/src/pages/Dashboard.js:145-149 | `isRunning` flips, so two toggles restore it. The message names the new state and the snackbar opens. |
| Dashboard.Page.CloseSnackbar | locust-dashboard/src/pages/Dashboard.js:1315-1319 | The snackbar closes. |
| NewDashboard.Page.constructor | locust-dashboard/src/pages/NewDashboard.js:91 | The page starts not running. |
| NewDashboard.Page.HandleStartTest | locust-dashboard/src/pages/NewDashboard.js:105-107 | `isRunning` flips, so applying it twice is the identity. |
| NewDashboard.Page.HandleLogout | locust-dashboard/src/pages/NewDashboard.js:100-103 | The session is logged out and the page navigates to /login, with no confirmation. |
| Reports.StatusColor | locust-dashboard/src/pages/Reports.js:90-101 | Ready→success, Generating→warning, Failed→error, else default, each as an iff. |
| Reports.DownloadWhenGreen | locust-dashboard/src/pages/Reports.js:248 | Download is enabled iff the colour is success, that is iff the status is 'Ready'. |
| Reports.Page.constructor | locust-dashboard/src/pages/Reports.js:36-41 | The dialog is closed, with performance/pdf/7d. |
| Reports.Page.OpenDialog | locust-dashboard/src/pages/Reports.js:110 | The dialog opens. |
| Reports.Page.CloseDialog | locust-dashboard/src/pages/Reports.js:260-308 | The dialog closes. |
| Reports.Page.SetReportType | locust-dashboard/src/pages/Reports.js:270 | Only the report type changes. |
| Reports.Page.SetFormat | locust-dashboard/src/pages/Reports.js:284 | Only the format changes. |
| Reports.Page.SetDateRange | locust-dashboard/src/pages/Reports.js:297 | Only the date range changes. |
| Reports.Page.HandleGenerateReport | locust-dashboard/src/pages/Reports.js:84-88 | The dialog closes and the config is unchanged. |
| LoadTests.StatusColor | locust-dashboard/src/pages/LoadTests.js:93-104 | Running→success, Completed→primary, Failed→error, else default, each as an iff. |
| LoadTests.PostedFields | locust-dashboard/src/pages/LoadTests.js:47 | The posted body carries exactly the four dialog keys, each a number or a string. |
| LoadTests.InitialConfigIsApiDefault | locust-dashboard/src/pages/LoadTests.js:36-41 | The page's initial config, were it to reach `start_locust`, would launch the same command as the API's defaults. |
| LoadTests.TypedConfigLaunches | locust-dashboard/src/pages/LoadTests.js:239-266 | Typed text inputs, were they to reach `start_locust`, would give a valid launch command carrying them. |
| LoadTests.Page.constructor | locust-dashboard/src/pages/LoadTests.js:35-42 | The dialog is closed, the config initial, and nothing is loading. |
| LoadTests.Page.OpenDialog | locust-dashboard/src/pages/LoadTests.js:113 | The dialog opens. |
| LoadTests.Page.CloseDialog | locust-dashboard/src/pages/LoadTests.js:230-272 | The dialog closes. |
| LoadTests.Page.SetUsers | locust-dashboard/src/pages/LoadTests.js:240 | Only `users` changes. |
| LoadTests.Page.SetRate | locust-dashboard/src/pages/LoadTests.js:249 | Only `rate` changes. |
| LoadTests.Page.SetTime | locust-dashboard/src/pages/LoadTests.js:257 | Only `time` changes. |
| LoadTests.Page.SetHost | locust-dashboard/src/pages/LoadTests.js:266 | Only `host` changes. |
| LoadTests.Page.StartTest | locust-dashboard/src/pages/LoadTests.js:44-47 | Loading is set and the config is posted. The Start button is enabled only when not loading. |
| LoadTests.Page.StartSettled | locust-dashboard/src/pages/LoadTests.js:47-53 | Loading always ends. The dialog closes only when the start succeeded. |
| LoadTests.Page.StopTest | locust-dashboard/src/pages/LoadTests.js:56-63 | A stop is posted and nothing else changes. |
| PdfExport.Capitalize | locust-dashboard/src/components/PDFExport.js:30 | The first character is upper-cased and the rest kept. |
| PdfExport.FieldLine | locust-dashboard/src/components/PDFExport.js:29-33 | Line i sits at x 40 and y 130 + 30·i. |
| PdfExport.MissingIsNA | locust-dashboard/src/components/PDFExport.js:31 | A missing or nullish value prints as 'N/A'. |
| PdfExport.PresentValuePrinted | locust-dashboard/src/components/PDFExport.js:30-32 | A present, non-null value prints as `Label: value`, the label being the capitalised key. |
| PdfExport.TextColor | locust-dashboard/src/components/PDFExport.js:24 | White for the dark theme, else black. |
| PdfExport.ReportLines | locust-dashboard/src/components/PDFExport.js:25-38 | The title comes first, then one line per selected field in order (users, rps, failures, duration, status), then the footer at the final y + 20 = 300. |
| Database.ConfiguredUrl | metrics-api/database.py:9-12 | The environment's `DATABASE_URL`, else the local default. |
| Database.SyncUrl | metrics-api/database.py:15-16 | A `mysql://` URL has only its leading scheme replaced by `mysql+pymysql://`. Any other URL is unchanged. |
| Database.AsyncUrl | metrics-api/database.py:19 | For a `mysql://` or `mysql+pymysql://` URL, the leading scheme becomes `mysql+aiomysql://` and the rest has every pymysql scheme replaced too. |
| Database.AsyncNamesAiomysql | metrics-api/database.py:15-19 | Either MySQL scheme gives an async URL that begins with `mysql+aiomysql://`. |
| Database.OtherUrlsUnchanged | metrics-api/database.py:15-19 | A URL naming neither scheme is used unchanged for both engines. |
| Database.MaskedUrl | metrics-api/database.py:21 | The logged URL is the prefix before the first '@', followed by '@***'. Whatever follows that '@' is hidden. |
| Database.MaskedShowsCredentials | metrics-api/database.py:21 | User name and password before the '@' are printed: `prefix@rest` logs as `prefix@***`. |
| UserManager.GetUserByEmail | metrics-api/user_manager.py:76-91 | The user is returned iff the query returned a row. A missing row or an exception gives None. |
| UserManager.AuthenticateUser | metrics-api/user_manager.py:93-99 | The result is Some iff the user exists and the password verifies against its hash, and then it is exactly the looked-up user. |
| UserManager.AuthenticatedPasswordVerifies | metrics-api/user_manager.py:97-99 | An authenticated user's stored hash verifies the given password. |
| UserManager.InsertedRow | metrics-api/user_manager.py:41-56 | The inserted row holds the hash of the password, never the password. |
| UserManager.GetUserById | metrics-api/user_manager.py:101-116 | The response has the row's fields iff a row was returned; otherwise None. |
| UserManager.CreateUser | metrics-api/user_manager.py:40-74 | An insert that raises gives None. Otherwise the result is the read-back of the new id. |
| DemoApi.Lifetime | metrics-api/demo_api.py:37-40 | A truthy delta is used; otherwise the lifetime is 15 minutes. |
| DemoApi.TokenClaims | metrics-api/demo_api.py:35-41 | The input claims plus `exp` = now + lifetime; every other key is preserved. |
| DemoApi.ReissueKeepsClaims | metrics-api/demo_api.py:36-41 | Re-issuing replaces `exp` only. |
| DemoApi.TokenCarriesClaims | metrics-api/demo_api.py:34-42 | Under an invertible encoding, the token decodes to the given claims plus `exp` = now + lifetime. |
| DemoApi.Me | metrics-api/demo_api.py:58-64 | Every caller gets demo@example.com, 'Demo User', id 1; no token is read. |
| DemoApi.Login | metrics-api/demo_api.py:49-56 | A bearer token encoding sub = email and a 30-minute expiry. |
| DemoApi.Signup | metrics-api/demo_api.py:45-47 | The submitted email is echoed with the demo message. |

## Left out

- Rendering is not modelled. This covers JSX, MUI styling, animations, charts and the logo image in the PDF. It has no stateable behaviour, or it lives in libraries.
- Export plumbing is not modelled: `utils/exportUtils.js`, and the image, PDF and XLSX export functions of `MetricsDashboard.js` and `Metrics.js`. These are thin wrappers over unseen libraries.
- The jsPDF drawing calls are not modelled. The PDF model captures only the text lines and their positions. The dark-theme background rectangle, drawn after the text, is not part of it.
- Network transport is not modelled: axios, fetch, WebSocket construction and localStorage I/O. Replies arrive as `Settled` or `AuthOutcome` parameters. The stored token is a field.
- Timers are not modelled: `setInterval`, `setTimeout`, `Date.now()` and `datetime.utcnow()`. A tick is an explicit method and the clock reading a parameter. Token time is whole minutes.
- JavaScript numbers are integers here. Floating-point metrics (rps, response times) are carried as opaque values, and NaN is not modelled.
- `toLowerCase`/`toUpperCase` are modelled on ASCII letters only.
- String lengths count code points rather than UTF-16 units.
- The process launch is a flag: `subprocess.Popen`, `send_signal` and `wait` become a `spawnOk` parameter and an alive flag.
- The 500 replies of `main.py` are modelled without their exception text.
- MetricsApi.Server.ReceiveMetrics: Python's set iteration order is unspecified, so the broadcast visits the connections in an arbitrary order. Sockets joining or leaving during the broadcast are not modelled.
- bcrypt hashing and verification, SQL, the `databases` driver and `jwt.encode` are function parameters. A hash that itself raises in `create_user` is not modelled.
- `create_access_token` copies its input before adding `exp`. In the value model that copy is implicit, so the caller's dict being left unchanged holds by construction.
- Form submits require `!isLoading` in every login and signup page. The page disables its submit button while loading, so the source never submits twice.
- LoadTests.Page.StartTest: its precondition likewise comes from the disabled Start button.
- `metrics-api/locustfile.py` and `locust-service/locustfile.py` are not modelled: they are about threads and HTTP.
- Log output is not modelled: the `console.log` and `console.error` calls of the pages and the auth context, and the `print` calls of `database.py` and `user_manager.py`. None of them changes state or a reply.
- `metrics-api/run_server.py` is not modelled: it only starts the server.
- `App.js` is not modelled: it only renders `MetricsDashboard` under a heading. It has no router, so the page modules here are modelled as components on their own.
- The load tests page posts to `/api/start-locust` and `/api/stop-locust` (`LoadTests.js:47`, `:58`), while `main.py` serves `/start-locust` and `/stop-locust` (`main.py:44`, `:72`). The model does not route requests; the lemmas connecting the page's body to `start_locust` state what would happen if it reached that handler.
- `PDFExport.js` builds the PDF only after the logo's `onload` fires (lines 16-21). A logo that fails to load leaves the export pending forever, with no PDF; image loading is not modelled.
