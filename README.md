# Safety-gear compliance tracker: a Dafny model

The system tracks workers' safety-gear compliance. It has three parts:

- **REST backend.** An Express server over MySQL. It issues one-hour JWT session tokens and checks each protected route with a bearer-token guard and a per-route role allow-list (admin, manager, worker). It lists violation rows newest first, supports worker CRUD by id, and registers users.
- **Detection service.** A Flask service with two camera sections (machine and gate), of which at most one may be on. It finds the gear a frame shows missing, queues spoken warnings without repeating the last one, and logs a violation per camera at most once every 5 seconds. An older single-camera variant exists beside it.
- **Single-page client.** A React app with:
  - a route guard and a route table with per-page role lists;
  - session restore from a stored token;
  - a login/registration form;
  - a violations page with time and location filters and a PDF report;
  - a dashboard with per-location counts and a compliance split;
  - a monitoring page with per-camera on/off flags.

The model is split into modules, one per source file:

| module | source file |
|---|---|
| `Server` | `backend/server.js` |
| `Detection` | `app.py` |
| `LegacyDetection` | `backend/app.py` |
| `ProtectedRoute` | `ProtectedRoute.js` |
| `App` | `App.js` |
| `LoginScreen` | `Login.js` |
| `ViolationsScreen` | `Violations.js` |
| `DashboardScreen` | `Dashboard.js` |
| `MonitoringScreen` | `Monitoring.js` |

Shared modules:

- `Common`: the option and result types, `join`, `split` and `filter`.
- `Records`: the violation row.
- `Gear`: the missing-gear list both detection services compute.
- `Browser`: `localStorage`.

`Integration` states how the parts fit together:

- the page role lists match the server's;
- the monitoring flags stay in step with the detection service from a page mounted while every section is off, and fall out of step for a page mounted while a camera is on;
- session restore matches the token check;
- whole request sequences behave as expected.

Foreign parts become values or parameters:

- **Tokens.** A token is a `Jwt(claims, expiresAt, signedWithSecret)`. The token library's decoding of a token text is the map `wire`. A text verifies when it is not empty, `wire` holds it, it is signed, and the clock is before its expiry.
- **Database.** The tables are fields of `Server.Database`. A failing query is a boolean input.
- **Detector and camera.** The detector's labels are an input list. Whether the camera opens is a boolean input.
- **Clock.** Timestamps are integer seconds. The client's `new Date()` is a `Clock` holding today's date, yesterday's date, and a map from timestamps to calendar dates.
- **Form state.** An absent or empty request field is `""`, which is falsy in JavaScript as `undefined` is.
- **Network replies.** A fetch reply is a small datatype: a parsed answer or an exception.

## Model

| member | source | states |
|---|---|---|
| Common.Split | backend/server.js:32 | `split(' ')` gives at least one piece, no piece holds the separator, joining them gives the input back, and there is more than one piece exactly when the separator occurs |
| Common.SplitJoin | backend/server.js:32 | splitting a join of separator-free pieces gives the same pieces |
| Common.Filter | frontend/src/components/Violations.js:48-62 | `.filter` keeps exactly the elements satisfying the predicate, never more than the input |
| Common.FilterIsSublist | frontend/src/components/Violations.js:44-63 | a filtered list is an order-preserving sub-list of its input |
| Server.BearerField | backend/server.js:32 | the second space-separated field of the header is present exactly when the header has a space |
| Server.BearerFieldOfBearer | backend/server.js:32 | the header `Bearer <t>` yields `t` for a token without spaces |
| Server.Authenticate | backend/server.js:28-38 | 403 "No token provided" exactly for a missing or empty header; any other refusal is 401; success carries the claims the token text verifies to |
| Server.HeaderWithoutSpaceIsUnauthorized | backend/server.js:30-33 | a non-empty header without a space is refused with 401 whatever tokens exist |
| Server.EmptyBearerIsUnauthorized | backend/server.js:32-33 | the header `Bearer ` hands the token library an empty text and is refused with 401 whatever tokens exist |
| Server.DoubleSpaceIsUnauthorized | backend/server.js:32-33 | a header with two spaces after `Bearer` also hands over an empty text and is refused with 401 |
| Server.BearerAuthenticates | backend/server.js:32-36 | `Bearer <t>` authenticates exactly when `t` is signed and unexpired, and then with the claims signed into it |
| Server.Authorize | backend/server.js:84-86 | the route's role check runs only after the guard, and it passes exactly the roles on the route's list, otherwise 403 "Access denied" |
| Server.AllowListsByRoute | backend/server.js:84-179 | violations, worker list and worker by id admit admin and manager; worker register, update and delete admit admin only; the profile admits any caller |
| Server.ValidateToken | backend/server.js:71-79 | 200 with the token's role exactly when the guard would accept the header; otherwise 403 or 401 "Invalid token" |
| Server.Login | backend/server.js:41-67 | every answer is 200, 400, 404 or 500; a database failure after the field check is 500; a 200 carries a signed token that expires one hour after issue, with the id and role of a stored user whose email and password match |
| Server.FindByEmail | backend/server.js:48-57 | the found user has the email and is in the table; none is found exactly when no user has it |
| Server.FindById | backend/server.js:240-250 | the found user has the id; none is found exactly when no user has it |
| Server.FindByEmailUnique | backend/server.js:48-58 | with unique emails, looking a user's email up finds that user |
| Server.LoginOutcomes | backend/server.js:41-67 | empty fields give 400 before the lookup; an unknown email gives 404; a wrong password gives 400 "Invalid password"; 200 exactly when a stored user has that email and password |
| Server.LoginIssuesStoredClaims | backend/server.js:60-66 | a successful login returns the stored role and a token signed with the stored id and role, which the guard accepts until one hour after issue |
| Server.Profile | backend/server.js:238-253 | behind the guard only; a database failure gives 500; otherwise 200 exactly when a user has the token's id, and then the caller's own `{id, email, role}`; 404 exactly when no user has it |
| Server.InsertByTime | backend/server.js:88 | inserting a row into a newest-first list keeps it newest first and adds exactly that row |
| Server.NewestFirst | backend/server.js:88 | `ORDER BY timestamp DESC` returns a permutation of the rows, newest first |
| Server.ListViolations | backend/server.js:83-95 | refused callers get the guard's or role check's answer; 200 exactly for admin and manager without a database error, with every row once, newest first |
| Server.ListWorkers | backend/server.js:117-130 | refused callers get the guard's or role check's answer; a database failure gives 500 "Database error"; 200 with the whole table exactly for admin and manager without a database error |
| Server.GetWorker | backend/server.js:133-152 | refused callers get the guard's or role check's answer; for admin and manager a database failure gives 500 "Database error", otherwise the row stored under the id, or 404 when there is none |
| Server.Database.Register | backend/server.js:205-234 | empty fields give 400; a taken email gives 409 and leaves the users unchanged; otherwise exactly one user is appended (201), and emails stay unique from one request to the next |
| Server.Database.RegisterWorker | backend/server.js:99-113 | admin only; inserts exactly the given five fields under a fresh id (201); every other outcome leaves the table unchanged |
| Server.Database.UpdateWorker | backend/server.js:177-201 | admin only; overwrites the row with that id and no other (200), or 404 when absent; the set of ids never changes |
| Server.Database.DeleteWorker | backend/server.js:155-174 | admin only; removes only that row (200), or 404 when absent; afterwards the id is gone unless nothing changed |
| Gear.MissingItems | app.py:131-132 | the missing items are exactly the required items whose `NO-` label was detected, in required order |
| Gear.MissingItemsDependOnLabelSet | app.py:132 | only which labels occur matters, not their order or repetitions |
| Gear.NothingMissing | app.py:134 | nothing is missing exactly when no absence label was detected |
| Detection.MissingItemsIsPick | app.py:131-132 | the missing list is the required items picked by the three absence flags, in order |
| Detection.AlertMessageDistinguishesMissingItems | app.py:70-76 | two warnings are equal exactly when the same items are missing, so `last_alert` suppresses exactly a repeat of the same combination |
| Detection.DetectionService.constructor | app.py:29-33 | at start no camera is held, both sections are off, no alert is remembered or queued, and no camera has logged a violation (the log times start empty at line 79) |
| Detection.DetectionService.TriggerVoiceAlert | app.py:63-76 | an empty list changes nothing; a warning equal to `last_alert` is not queued; otherwise `last_alert` becomes the warning and exactly it is queued |
| Detection.DetectionService.TakeAlert | app.py:53-58 | the alert thread takes the oldest queued warning |
| Detection.DetectionService.CaptureViolation | app.py:82-108 | within 5 seconds of this camera's last log nothing changes; otherwise its time is recorded and one row with the joined gear lists is logged; other cameras' times are untouched |
| Detection.DetectionService.ProcessFrame | app.py:131-136 | nothing changes when no gear is missing. Otherwise the warning for the missing items is queued unless it was the last one queued. Outside this camera's cooldown the frame time is recorded, and when the insert succeeds exactly one row is logged with the detected and missing lists joined by ", "; inside the cooldown nothing is logged |
| Detection.DetectionService.VideoFeed | app.py:113-119 | 404 "Camera for <section> is off" with no camera held, or with a camera held and the section off; 200 exactly with a camera held and that section on |
| Detection.DetectionService.ToggleCamera | app.py:147-184 | unknown section or action gives 400 with no change; "on" succeeds only when no section is on (409 otherwise, 500 on a failed open); "off" on the active section releases the camera, clears `last_alert` and empties the queue; at most one section is ever on |
| LegacyDetection.TriggerVoiceAlert | backend/app.py:24-31 | speech starts exactly for a non-empty list |
| LegacyDetection.AlertTextTellsOutcome | backend/app.py:26-31 | the all-clear text is returned exactly for an empty list, and the text ends in " missing! Please wear it." exactly for a non-empty one |
| LegacyDetection.FrameAlert | backend/app.py:49-53 | the frame loop alerts exactly when some required item is missing |
| LegacyDetection.ToggleIdempotent | backend/app.py:70-77 | repeating a toggle action changes nothing more |
| LegacyDetection.ToggleOnKeepsOffClears | backend/app.py:71-77 | "on" keeps a held camera and leaves one held; "off" leaves none |
| LegacyDetection.LegacyService.constructor | backend/app.py:16 | the service starts with no camera held |
| LegacyDetection.LegacyService.ToggleCamera | backend/app.py:64-79 | every action answers 200 "Camera turned <action>"; the camera changes as the toggle function says, and an unknown action leaves it |
| LegacyDetection.LegacyService.VideoFeed | backend/app.py:33-38 | 404 "Camera is off" exactly when no camera is held |
| Browser.LocalStorage.GetItem | frontend/src/App.js:20 | a stored key gives its text, a missing one `null` |
| Browser.LocalStorage.SetItem | frontend/src/components/Login.js:30-31 | `setItem` stores the text under the key and leaves every other key as it was |
| Browser.LocalStorage.RemoveItem | frontend/src/components/Dashboard.js:84 | `removeItem` drops that key and keeps every other one |
| ProtectedRoute.Guard | frontend/src/components/ProtectedRoute.js:5-11 | a guard's redirect always goes to "/" |
| ProtectedRoute.GuardCases | frontend/src/components/ProtectedRoute.js:6-10 | signed out: always "/"; signed in without a list: the page; with a list: the page exactly when the role is on it |
| ProtectedRoute.GuardMonotone | frontend/src/components/ProtectedRoute.js:6 | a longer role list, or none, never takes a page away |
| App.MatchPathOf | frontend/src/App.js:68-115 | every protected page is matched by its own path, and a matched path is that page's path |
| App.Resolve | frontend/src/App.js:54-119 | the router shows only the login page or a protected page |
| App.RootAndFallback | frontend/src/App.js:56-65 | "/" shows login when signed out and redirects to "/dashboard" when signed in; an unknown path redirects to "/" |
| App.PageAccess | frontend/src/App.js:68-115 | a protected page is shown exactly to a signed-in user whose role its list holds; others go to "/" |
| App.PageRolesByPage | frontend/src/App.js:69-115 | dashboard and monitoring: all three roles; violations and worker list: admin and manager; worker registration and edit: admin |
| App.AppShell.constructor | frontend/src/App.js:15-16 | the app starts signed out with an empty role |
| App.AppShell.RestoreSession | frontend/src/App.js:18-51 | without a token no request is sent and the session is signed out; an ok reply signs in with its role; a refusal or network error drops the token and signs out |
| LoginScreen.RequestBodyFor | frontend/src/components/Login.js:17 | the body carries the given email and password, and the role only in register mode |
| LoginScreen.BodyMatchesEndpoint | frontend/src/components/Login.js:16-17 | the body has a role exactly when the endpoint is `register` |
| LoginScreen.RedirectFor | frontend/src/components/Login.js:35-41 | admin goes to "/admin-dashboard", manager to "/manager-dashboard", every other role to "/dashboard" |
| LoginScreen.RefusalMessage | frontend/src/components/Login.js:47 | the server's message when it has one, exactly the generic one when it has none, and never empty |
| LoginScreen.SignedInRoleLandsOnDashboard | frontend/src/components/Login.js:35-41 | with the role known to the guard, each role's post-login path reaches the dashboard within two redirects |
| LoginScreen.LoginForm.constructor | frontend/src/components/Login.js:5-9 | the form starts in login mode with the worker role, one of the two selectable roles |
| LoginScreen.LoginForm.SelectRole | frontend/src/components/Login.js:145-153 | the selector gives only worker or manager, never admin |
| LoginScreen.LoginForm.ToggleMode | frontend/src/components/Login.js:164-168 | the link switches between login and register mode |
| LoginScreen.LoginForm.EnterCredentials | frontend/src/components/Login.js:128-137 | the typed email and password become the form's fields |
| LoginScreen.LoginForm.HandleSubmit | frontend/src/components/Login.js:12-52 | the endpoint and body come from the mode. A login stores token and role, signs in and navigates by role. A registration stores nothing, shows the success message and returns to login mode. A refusal shows the server's or the generic message. An exception shows the server-error message. `userRole` is never touched |
| LoginScreen.LoginForm.HandleSubmitSettingRole | frontend/src/components/Login.js:29-41 | the corrected submit: a successful login also sets the session's role, and the post-login path then reaches the dashboard |
| ViolationsScreen.TimeFilteredSelects | frontend/src/components/Violations.js:44-58 | the time filter keeps, in order, exactly the rows whose date is today, yesterday, or in this month and year; any other filter keeps all |
| ViolationsScreen.FilterViolationsSelects | frontend/src/components/Violations.js:44-63 | the two chained filters are one filter by the conjunction of the time window and the location |
| ViolationsScreen.FilterViolationsMeaning | frontend/src/components/Violations.js:44-63 | the shown list is an order-preserving sub-list holding exactly the rows in the window and at the location |
| ViolationsScreen.NoSelectionKeepsAll | frontend/src/components/Violations.js:47-63 | "All" (or any unnamed time filter) with location "All" keeps every row |
| ViolationsScreen.ReportRows | frontend/src/components/Violations.js:76-82 | one row per violation, in order, each laid out from that violation |
| ViolationsScreen.GenerateReport | frontend/src/components/Violations.js:71-87 | title "Safety Violations Report (f, l)" and file name "safety_violations_report_f_l.pdf" from the current filters |
| ViolationsScreen.ReportRowsCarryRecords | frontend/src/components/Violations.js:75-84 | the report has one row per shown violation with one cell per column, and each row reads back as that violation |
| ViolationsScreen.ViolationsView.constructor | frontend/src/components/Violations.js:8-11 | empty lists, both filters "All" |
| ViolationsScreen.ViolationsView.ReceiveViolations | frontend/src/components/Violations.js:26-35 | an ok reply's rows become both lists; a refusal or exception changes nothing |
| ViolationsScreen.ViolationsView.ApplyFilters | frontend/src/components/Violations.js:42-68 | `filter`, `locationFilter` and the shown list become the arguments and the filtered list |
| ViolationsScreen.ViolationsView.CurrentReport | frontend/src/components/Violations.js:71-87 | the report's title and file name name the current filters, its columns are the five headers, and it has one row per shown violation that reads back as that violation, in the shown order |
| DashboardScreen.BumpCount | frontend/src/components/Dashboard.js:89 | one step of the reduce adds one to that location's count and to no other |
| DashboardScreen.BumpKeys | frontend/src/components/Dashboard.js:89 | one step adds the location to the keys |
| DashboardScreen.BumpDistinct | frontend/src/components/Dashboard.js:89 | one step never duplicates a key |
| DashboardScreen.BumpTotal | frontend/src/components/Dashboard.js:89 | one step adds one to the total |
| DashboardScreen.BumpPositive | frontend/src/components/Dashboard.js:89 | one step keeps every count positive |
| DashboardScreen.ChartDataCounts | frontend/src/components/Dashboard.js:88-91 | `chartData` has distinct keys, exactly the locations that occur; each count is the number of rows there, positive; the counts sum to the number of rows |
| DashboardScreen.BarChartData | frontend/src/components/Dashboard.js:93-96 | one bar per `chartData` entry with its location and count |
| DashboardScreen.BarsCountShownRows | frontend/src/components/Dashboard.js:88-96 | each occurring location has exactly one bar, whose count is the number of shown rows there, and no other location has one |
| DashboardScreen.ComplianceSplit | frontend/src/components/Dashboard.js:98-101 | compliant and non-compliant are non-negative and add up to all rows, the second being the filtered count |
| DashboardScreen.DashboardView.constructor | frontend/src/components/Dashboard.js:14-16 | no rows fetched or shown, and the time filter is "All" |
| DashboardScreen.DashboardView.Bars | frontend/src/components/Dashboard.js:88-96 | the page's bars name each location among the shown rows exactly once, with the number of shown rows there, and no other location |
| DashboardScreen.DashboardView.Compliance | frontend/src/components/Dashboard.js:98-101 | the page's pie gives the shown rows as "Non-Compliant" and the rest as "Compliant"; together they are every fetched row, and the compliant slice is never negative, because the page keeps its shown rows a sub-list of the fetched ones |
| DashboardScreen.DashboardView.ReceiveViolations | frontend/src/components/Dashboard.js:29-32 | an ok reply's rows become the list and the filter effect reruns; otherwise nothing changes |
| DashboardScreen.DashboardView.SelectFilter | frontend/src/components/Dashboard.js:63-81 | a new filter reruns the time filter over the fetched rows |
| DashboardScreen.DashboardView.RunFilterEffect | frontend/src/components/Dashboard.js:63-81 | the shown list is the time-filtered list, so it stays an order-preserving sub-list of the fetched rows |
| DashboardScreen.DashboardView.HandleLogout | frontend/src/components/Dashboard.js:83-86 | the stored token is removed and the session is signed out |
| MonitoringScreen.MonitoringView.constructor | frontend/src/components/Monitoring.js:5-6 | both flags off, the machine tab active |
| MonitoringScreen.MonitoringView.ActionFor | frontend/src/components/Monitoring.js:10 | the requested action is "off" exactly when that camera's flag is on |
| MonitoringScreen.MonitoringView.ToggleCamera | frontend/src/components/Monitoring.js:9-28 | a press whose reply comes before the next press sends "off" exactly when the flag is on; an ok reply flips only that camera's flag; a refusal or exception changes no flag |
| MonitoringScreen.MonitoringView.ApplyReply | frontend/src/components/Monitoring.js:19-24 | the reply step as written: an ok reply flips the flag as it stands when the reply arrives, whatever action was sent; otherwise nothing changes |
| MonitoringScreen.MonitoringView.ApplyReplySettingAction | frontend/src/components/Monitoring.js:20-21 | the corrected reply step: an ok reply sets the flag to whether the sent action was "on" |
| MonitoringScreen.MonitoringView.SelectSection | frontend/src/components/Monitoring.js:44-53 | a tab click makes that section active |
| MonitoringScreen.MonitoringView.VisibleStream | frontend/src/components/Monitoring.js:60-118 | a stream is shown exactly for the active tab while its flag is on |
| MonitoringScreen.ToggleTwice | frontend/src/components/Monitoring.js:21 | two answered toggles restore the flag and leave the other camera's flag alone |
| Integration.PageAndServerRoleListsAgree | frontend/src/App.js:84-115 | the violations, worker list, worker registration and edit pages admit exactly the roles their endpoints admit (backend/server.js:84-179) |
| Integration.ToggleFromPage | frontend/src/components/Monitoring.js:9-28 | one button press, answered by the detection service (app.py:147-184) before the next press, keeps the page's flags equal to the service's section status |
| Integration.ToggleFromPageSettingAction | frontend/src/components/Monitoring.js:9-28 | with the corrected reply step, a press with any action, stale or not, keeps the page's flags equal to the service's status, and an "off" press always ends with the flag off |
| Integration.GateOnFromPage | frontend/src/components/Monitoring.js:5-21 | sets up the monitoring scenarios: a fresh page and a fresh service (app.py:29-30), the gate turned on from the page, the two in step and the gate tab shown |
| Integration.PressOnStaleMount | frontend/src/components/Monitoring.js:5-21 | on a page mounted with both flags off (Monitoring.js:5-6) while the service has a section on, every press sends "on", gets 409 (app.py:161-168), changes no flag and leaves the page out of step with no stream, so the next press meets the same state |
| Integration.RemountAsWritten | frontend/src/components/Monitoring.js:5-32 | the gate turned on, the page left by the back button (Monitoring.js:32) without turning it off and mounted again: the new page is out of step and both its buttons get 409 |
| Integration.DoublePressAsWritten | frontend/src/components/Monitoring.js:10-21 | with the gate on, two "off" presses before the first reply both get 200 (app.py:170-182), and the page ends showing the gate on and streaming while the service has it off and answers the feed with 404 |
| Integration.DoublePressSettingAction | frontend/src/components/Monitoring.js:10-21 | the same double press with the corrected reply step ends with the gate off on both sides and no stream shown |
| Integration.RestoreAgainstServer | frontend/src/App.js:18-51 | restoring against `/validate-token` (backend/server.js:71-79) signs in exactly with a signed, unexpired token and with its role; otherwise the token is dropped |
| Integration.NoRoleNeverRenders | frontend/src/App.js:56-71 | signed in with no role, no number of redirects from the post-login paths ever reaches a page |
| Integration.FirstLoginAsWritten | frontend/src/components/Login.js:29-41 | a first sign-in in a fresh tab with the form as written never reaches a page |
| Integration.FirstLoginSettingRole | frontend/src/components/Login.js:29-41 | with the role set on sign-in, every known role lands on the dashboard |
| Integration.ReloginAsWritten | frontend/src/components/Dashboard.js:83-86 | after an admin logs out in a tab and a worker signs in, the guard still shows the admin-only registration page |
| Integration.ReloginSettingRole | frontend/src/components/Login.js:29-32 | with the role set on sign-in, that worker is sent back to "/" |
| Integration.WorkerLifecycle | backend/server.js:99-201 | register, read, edit, read, delete, delete again and read again answer 201, 200, 200, 200, 200, 404, 404, and the read after the edit returns the edited row |
| Integration.WorkerAccount | backend/server.js:41-94 | registration gives 201, the same email again 409, sign-in 200 with the worker role, and that token is refused the violation list with 403 |

## Left out

- Integration.ToggleFromPage: `Synced` holds only for a page mounted while every section is off. A page mounted while a camera is on (after the back button, a reload or in a second tab) starts out of step, and every press then gets 409 (`Integration.PressOnStaleMount`, `Integration.RemountAsWritten`). The page has no way to read the service's status at mount.
- MonitoringScreen.MonitoringView.ToggleCamera: it treats a press and its reply as one step, which holds when each reply arrives before the next press. Overlapping presses are modelled separately, in `Integration.DoublePressAsWritten`, as the press step (`ActionFor`) and the reply step (`ApplyReply`). Replies are applied in the order the service answered them, and replies that arrive out of order are not modelled.
- MySQL itself is left out: connections, SQL text, driver callbacks and `process.exit`. The tables are in-memory fields, and a failing query is a flag. Worker ids are integers in the model. The routes at backend/server.js:138, :160 and :182 bind the path's text to `WHERE id = ?`, and MySQL converts it to a number, so `/api/workers/7abc` reaches worker 7. That conversion is not modelled. So are collation (emails compare exactly, where MySQL's default collation compares case- and accent-insensitively) and auto-increment gaps left by failed inserts.
- The mysql2 driver reports matched rows as `affectedRows`, so PUT with unchanged values still gives 200. The model's 404 depends only on whether the id exists, which agrees.
- Token signing, the secret and `expiresIn` are left out. Tokens are abstract values decoded through `wire`.
- Server.Database.Register: each Express handler is one atomic step. In backend/server.js the duplicate-email check (line 213) and the insert (line 225) are separate queries, so two concurrent registrations with one email can both pass the check and both answer 201. The unique-email invariant is proved for one request at a time, not for interleaved ones; a UNIQUE index on the column, which the code does not show, is not modelled.
- YOLO inference, OpenCV capture and encoding, the MJPEG generator loop, `imwrite`, pyttsx3 speech and the alert thread's speaking are left out. `camera_lock` and the threads are left out, and each handler is one atomic step.
- Detection.DetectionService.CaptureViolation: `datetime.now()` and float `total_seconds()` become integer seconds, and the snapshot file written before the insert is not modelled.
- The row order of "newest first" among equal timestamps is left open, as MySQL leaves it.
- The `/get-violations` route of app.py is not part of this model. It is a plain query that the client never calls.
- JavaScript `Date`, `toDateString`, `setDate`, `toLocaleString`, time zones and formatting are left out. Dates are abstract calendar values from the `Clock`, and a report cell keeps the raw timestamp.
- Dashboard's `Object.keys` lists integer-like keys before the others. The model keeps every key in first-insertion order and counts every name alike. The source differs for a camera location spelled like an array index, which it lists first, and for names that `Object.prototype` already holds, because the count is kept in a plain `{}`: `"toString"` starts from the inherited function and `"__proto__"` is dropped. The detection service only writes "machine" and "gate".
- The router's case-insensitive and trailing-slash matching is left out: paths match exactly. An `:id` is a non-empty segment without "/".
- jsPDF, recharts, toasts, CSS and rendering are left out, and navigation targets are output values. The Dashboard's profile fetch only displays text and is not modelled.
- EditWorker.js, WorkerRegistration.js, ViewWorkers.js, Sidebar.js and Header.js are not part of this model: they are form wrappers and markup over the server's worker routes.
- backend/server.test.js disagrees with the server in two ways. It expects 200 and a message with "!" where the server returns 201 without one. It also sends no token. The model follows backend/server.js.
- Passwords are compared in plaintext, as written. Hashing is not in the code.

## Findings

| source | as written | input that shows it | evidently intended | confidence | as-written member | corrected member |
|---|---|---|---|---|---|---|
| frontend/src/components/Login.js:29-41 | A successful login sets `isAuthenticated` and stores the role only in `localStorage`. App's `userRole`, which every `ProtectedRoute` checks, is set only by the session restore when the app loads. | First case: in a fresh tab, sign in with any role. `userRole` is still `""`, so every redirect ends at "/" then "/dashboard" then "/" again, and no page ever shows. Second case: an admin's session is restored, the admin logs out, then a worker signs in. The guard still sees "admin" and shows the worker the admin-only registration page. | A login sets the session's role from the reply, so the user lands on the dashboard and sees only the pages for their own role. | high, not executed | Integration.FirstLoginAsWritten | Integration.FirstLoginSettingRole |
| frontend/src/components/Monitoring.js:10-21 | The action is read from `cameraOn` at the click, and an ok reply flips the flag as it stands when the reply arrives. | The gate is on, and "Turn Gate Camera Off" is clicked twice before the first reply. Both requests send "off". The service answers "turned off" and then "already off", both with 200. Each reply flips the flag, so the page ends showing the gate on while the service has it off, and the shown feed gets 404. | An ok reply leaves the flag as the sent action asked, so the page stays in step with the service. | medium, not executed | Integration.DoublePressAsWritten | Integration.DoublePressSettingAction |
