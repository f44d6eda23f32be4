# Session synchronisation of the MICROFRONT shell, in Dafny

This project models how the host shell and the frames it embeds keep one login session.
It also models the appointment and patient lists of the dashboard frame.

- **Host shell** (`HostShell`, host-shell/src/App.jsx). `Host` holds the `token` and `user`
  state hooks, the current location and the origin's localStorage. The `message` listener is
  `Host.OnMessage`, specified by the pure `Step`. One render of `HostWrapper` (the parse of the
  stored user, then the route table and its two guards) is `RenderRoute`. `Settle` follows
  `<Navigate>` redirects until a frame is shown or a render throws.
- **Protocol** (`Protocol`). A posted message keeps the source's loose shape: an optional
  `type`, and `token` / `user` fields that may be absent, `null` or present. `window.parent`
  is a `Channel`: `postMessage` appends to it, and the browser dispatches pending messages in
  order (`Host.ReceiveAll`).
- **localStorage** (`Browser.Storage`) is an object. Frames of one origin share it, and other
  origins have their own. The end-to-end runs in `Scenarios` hold in both cases.
- **Login frame** (`LoginRemote`): the mock credential check, LOGIN_SUCCESS, and the error
  text with its clearing timer.
- **Home frame** (`HomeRemote`): the `Home` page (section selection, drawer, logout) and the
  `Navbar` (search, notifications, displayed name, logout through the page's callback).
- **Dashboard frame** (`DashboardRemote`): mock appointments, the counters, the two filtered
  tables, status updates, new appointments, persistence and the status badge.
- **JSON of the user record** (`Json`): `JSON.stringify` / `JSON.parse` of `{ email }`,
  with the round trip proved.

Main results:
- Delivering any message twice equals delivering it once (`StepIdempotent`, `RunRepeated`).
- So the Navbar's logout, which posts LOGOUT twice, ends like one LOGOUT (`NavbarLogoutFlow`).
- A session written by LOGIN_SUCCESS is read back by a fresh mount (`LoginSurvivesReload`).
- With the in-memory token and the stored token in sync, and a stored user that parses, every
  path settles on the dashboard exactly when logged in (`SettleInSync`).
- The only message that makes a working host throw is a LOGIN_SUCCESS without `user`
  (`StepKeepsRendering`, `UserlessLoginCrashes`).
- The dashboard lists keep their order and their counters add up (`FilterAppointments`,
  `FilterPatients`, `CountsOf`).

Behaviour of the code worth knowing:
- The session lives under the keys `mf_token` and `mf_user`.
- The login frame only posts LOGIN_SUCCESS. The host is the one that writes localStorage.
- `HostWrapper` passes `JSON.parse(localStorage.getItem('mf_user') || 'null')` to `useState`
  (App.jsx:6). React evaluates that argument on every render, not only at the mount. So a stored
  user that is not valid JSON makes every render of the host throw (`RenderThrows`, `Seed`
  returns `Err`). Nothing catches the error, so the app is taken down and no frame is shown.
- A LOGIN_SUCCESS missing `token` or `user` is still handled (App.jsx:14-15). The missing value
  is written as the text "undefined".
  - Without `user`, the stored text is "undefined". The re-render that the handler's state
    updates cause throws at once (`UserlessLoginCrashes`), and so does every later mount.
  - Without `token` but with `user` present or `null`, the host redirects between `/` and
    `/dashboard` for ever (`TokenlessLoginLoops`). With both missing, the render throws before
    any redirect.
- The `/` guard reads the stored token; the `/dashboard` guard reads the in-memory token.
- Logout handlers in a frame clear that frame's own localStorage. The frames are served from
  other ports than the host, so that is not the host's storage.

## Model

| member | source | states |
|---|---|---|
| `HostShell.Seed` | host-shell/src/App.jsx:5-6 | the initial token is the stored `mf_token`; with `mf_user` absent, empty or `null` the user is null; the user is `u` whenever `mf_user` holds `u` stringified; any other text in `mf_user` is an error |
| `HostShell.Host.constructor` | host-shell/src/App.jsx:4-7 | mounting seeds `token` / `user` from storage and starts with token and store in sync |
| `HostShell.Step` | host-shell/src/App.jsx:10-25 | a payload without `type`, or of any other type, changes nothing; LOGIN_SUCCESS stores the token and the serialised user as `setItem` coerces them (`StoredToken`, `Json.StoredUser`: absent becomes "undefined", null becomes "null"), sets both in memory with absent and null both read as no value (`Field.ToOption`), and routes to `/dashboard`; LOGOUT removes both keys, clears both and routes to `/`; no other key changes |
| `HostShell.Host.OnMessage` | host-shell/src/App.jsx:10-25 | the imperative handler (two store writes, two state updates, one navigation) reaches exactly the state `Step` describes |
| `HostShell.Host.ReceiveAll` | host-shell/src/App.jsx:27-28 | dispatching the pending messages one by one, oldest first, ends in the state of running them in order (`Run`, the fold of `Step`), and empties the queue |
| `HostShell.StepIdempotent` | host-shell/src/App.jsx:13-24 | handling the same message twice equals handling it once |
| `HostShell.RunRepeated` | host-shell/src/App.jsx:13-24 | any number n >= 1 of deliveries of one message ends where one delivery ends |
| `HostShell.DoubleLogout` | host-shell/src/App.jsx:19-24 | LOGOUT, LOGOUT ends where a single LOGOUT does |
| `HostShell.LoginSurvivesReload` | host-shell/src/App.jsx:14-15 | after LOGIN_SUCCESS a fresh mount reads back exactly that token and user |
| `HostShell.LogoutSurvivesReload` | host-shell/src/App.jsx:20-21 | after LOGOUT a fresh mount starts with no token and no user |
| `HostShell.UserlessLoginCrashes` | host-shell/src/App.jsx:6-15 | a LOGIN_SUCCESS without `user` stores "undefined", on which the parse of line 6 fails (`RenderThrows`): the very next render of the host throws from any path, and so does the next mount |
| `HostShell.StepKeepsRendering` | host-shell/src/App.jsx:6-24 | from a host whose stored user parses, a message makes the render throw iff it is a LOGIN_SUCCESS without `user` |
| `HostShell.RenderRoute` | host-shell/src/App.jsx:4-55 | one render of `HostWrapper` throws iff the stored user does not parse (line 6 runs on every render); otherwise, for a normalised path: any path other than `/` and `/dashboard` goes to `/`; `/dashboard` shows the dashboard frame iff the in-memory token is truthy, else goes to `/`; `/` goes to `/dashboard` iff a truthy token is stored, else shows the login frame |
| `HostShell.SettleInSync` | host-shell/src/App.jsx:4-55 | with token and store in sync, following the `<Navigate>` chain of lines 35, 41 and 50 (`Settle`, which crashes exactly when a render throws and otherwise ends on a path its frame is shown at) from any path: the render throws when the stored user does not parse; otherwise it settles within three renders, on `/dashboard` when logged in and on `/` otherwise |
| `HostShell.RedirectLoop` | host-shell/src/App.jsx:41-50 | a truthy stored token without an in-memory one never settles, for any number of renders; when the stored user does not parse the first render throws instead |
| `HostShell.StepKeepsSync` | host-shell/src/App.jsx:14-23 | every message except a token-less LOGIN_SUCCESS keeps the in-memory and stored tokens in sync |
| `HostShell.TokenlessLoginLoops` | host-shell/src/App.jsx:14-15 | a LOGIN_SUCCESS without a token breaks the sync; afterwards no path settles, and when `user` is missing too the next render throws instead |
| `Protocol.Channel.Post` | remotes/login/src/LoginApp.jsx:16 | `postMessage` appends the message to the parent window's queue |
| `Protocol.Channel.Take` | host-shell/src/App.jsx:10-11 | the browser takes the oldest pending message for the listener |
| `Browser.ReadAfterSet` | host-shell/src/App.jsx:14-15 | after `setItem(k, v)`, `getItem(k)` is `v` (also through `\|\|`), and every other key reads as before |
| `Browser.ReadAfterRemove` | host-shell/src/App.jsx:20-21 | after `removeItem(k)`, `getItem(k)` is null, `getItem(k) \|\| fallback` is the fallback, and every other key reads as before |
| `Browser.Storage.SetItem` | host-shell/src/App.jsx:14 | `setItem` overwrites one key |
| `Browser.Storage.RemoveItem` | host-shell/src/App.jsx:20 | `removeItem` deletes one key |
| `Json.ParseUser` | host-shell/src/App.jsx:6 | the text `null` parses to null and nothing else does |
| `Json.ParseStringifyUser` | host-shell/src/App.jsx:15 | parsing the stringified user gives the same user |
| `Json.ParseUserCanonical` | host-shell/src/App.jsx:6 | a text parses to a user iff it is exactly that user's stringified form |
| `Json.StoredUserReadsBack` | host-shell/src/App.jsx:15 | a present user reads back, a null user reads back as null, an absent user makes the read fail |
| `Json.ParseUserShape` | host-shell/src/App.jsx:6 | every stringified user parses to itself; any other text that parses is `null` |
| `Json.ReadEscaped` | host-shell/src/App.jsx:15 | reading an escaped string body gives back the original string and the rest of the text |
| `Json.ReadStringCanonical` | host-shell/src/App.jsx:6 | a string body that reads successfully is the escaped form of what it reads to |
| `LoginRemote.SubmitPosts` | remotes/login/src/LoginApp.jsx:12-16 | a submit posts at most one message; it posts one iff email and password are the mock pair, and that message is LOGIN_SUCCESS with `token-mock` and `{ email }` |
| `LoginRemote.LoginApp.constructor` | remotes/login/src/LoginApp.jsx:4-6 | email, password and error start empty |
| `LoginRemote.LoginApp.SetEmail` | remotes/login/src/LoginApp.jsx:30 | the email input sets `email` |
| `LoginRemote.LoginApp.SetPassword` | remotes/login/src/LoginApp.jsx:32 | the password input sets `password` |
| `LoginRemote.LoginApp.HandleSubmit` | remotes/login/src/LoginApp.jsx:10-22 | posts what `SubmitPosts` gives; on success the error text is left as it was; on failure the error is "Credenciales incorrectas" and one more clearing timer is pending; localStorage is untouched |
| `LoginRemote.LoginApp.TimerFires` | remotes/login/src/LoginApp.jsx:20 | a pending timer clears the error text |
| `HomeRemote.RenderedViews` | remotes/home/src/home.jsx:94-201 | at most one section is rendered, the one whose key equals `active`; none for any other key |
| `HomeRemote.Home.constructor` | remotes/home/src/home.jsx:13-14 | the page starts on `dashboard` with the drawer closed |
| `HomeRemote.Home.HandleNavigate` | remotes/home/src/home.jsx:28-34 | navigating shows that key and closes the drawer |
| `HomeRemote.Home.OpenSidebar` | remotes/home/src/home.jsx:88 | the navbar's toggle callback opens the drawer |
| `HomeRemote.Home.CloseSidebar` | remotes/home/src/home.jsx:81 | the sidebar's close callback closes the drawer |
| `HomeRemote.Home.HandleLogout` | remotes/home/src/home.jsx:36-41 | both session keys are removed from the frame's storage and exactly one LOGOUT is posted |
| `HomeRemote.DisplayedName` | remotes/home/src/Navbar.jsx:103 | with `mf_user` absent, empty or `null` the bar shows "Recepcionista"; when it holds a stringified user the bar shows that user's email; any other text is an error |
| `HomeRemote.DisplayedStoredUser` | remotes/home/src/Navbar.jsx:103 | a user stored as the host stores it is shown by its email |
| `HomeRemote.Navbar.constructor` | remotes/home/src/Navbar.jsx:13-14 | empty query, notifications closed |
| `HomeRemote.Navbar.HandleSearchChange` | remotes/home/src/Navbar.jsx:16-20 | the query becomes `q` and the same `q` is passed to `onSearch` |
| `HomeRemote.Navbar.ToggleNotifications` | remotes/home/src/Navbar.jsx:83 | the bell flips the notification panel |
| `HomeRemote.Navbar.ClickMenu` | remotes/home/src/Navbar.jsx:39 | the menu button calls the page's toggle, which opens the drawer and leaves the section shown as it was |
| `HomeRemote.Navbar.HandleLogout` | remotes/home/src/Navbar.jsx:22-30 | both keys are removed, then `onLogout` runs, then LOGOUT is posted; with the home page's callback two LOGOUTs are posted |
| `DashboardRemote.SampleAppointments` | remotes/dashboard/src/DashboardApp.jsx:11-25 | one mock per patient, at most six, or one for the default patient; the i-th status cycles pending / confirmed / cancelled; the i-th notes are "Consulta i+1"; the i-th id is the clock reading taken for it plus i, and the ids increase (so are distinct) whenever the clock never runs backwards; each mock refers to its patient |
| `DashboardRemote.StatusPartition` | remotes/dashboard/src/DashboardApp.jsx:73-75 | confirmed, cancelled, pending and unknown-status entries add up to the list length |
| `DashboardRemote.CountsUnfold` | remotes/dashboard/src/DashboardApp.jsx:73-75 | the first entry adds one to exactly the counter of its status |
| `DashboardRemote.CountsOf` | remotes/dashboard/src/DashboardApp.jsx:70-77 | total users and total appointments are the list lengths; `confirmed`, `cancelled` and `pending` each count the appointments with exactly that status (`CountStatus`, the quantity `StatusPartition`, `UpdateStatusCount` and `CreateCountsPending` speak about); the three status counters never exceed the total and add up to it iff every status is one of the three |
| `DashboardRemote.SampleFullyCounted` | remotes/dashboard/src/DashboardApp.jsx:22 | the generated mocks are all counted by the three counters |
| `DashboardRemote.FilterAppointments` | remotes/dashboard/src/DashboardApp.jsx:80-88 | the result is an order-preserving subsequence; with a status filter every entry has that status; every entry matches the case-insensitive search over name, date, time and notes (`SearchKeep`); each entry passing both tests is kept as many times as the list holds it, and no other entry is; `all` with an empty search gives the list unchanged |
| `DashboardRemote.FilterPatients` | remotes/dashboard/src/DashboardApp.jsx:91-102 | an empty search gives the list unchanged; otherwise an order-preserving subsequence in which every patient matching in a name, the document or the email (`PatientKeep`) occurs as often as in the list, and no other patient occurs |
| `DashboardRemote.UpdateStatus` | remotes/dashboard/src/DashboardApp.jsx:106 | same length and order; entries with the id take the new status with every other field unchanged; other entries are unchanged |
| `DashboardRemote.UpdateStatusIdempotent` | remotes/dashboard/src/DashboardApp.jsx:106 | applying the same status update twice equals applying it once |
| `DashboardRemote.UpdateStatusCount` | remotes/dashboard/src/DashboardApp.jsx:106 | the counter of the new status grows by exactly the entries with that id that had another status |
| `DashboardRemote.CreateAppointment` | remotes/dashboard/src/DashboardApp.jsx:111-121 | one entry longer; the new head is pending at 10:00 with the fixed notes, its id the first clock reading and its date the day of the second; it refers to the patient by the first truthy of id, document and `p-` tag (`CreatedRef`) and carries the patient's trimmed full name; the tail is the old list |
| `DashboardRemote.CreateCountsPending` | remotes/dashboard/src/DashboardApp.jsx:111-121 | a new appointment adds one to the pending counter and leaves the other two alone |
| `DashboardRemote.BadgeFor` | remotes/dashboard/src/DashboardApp.jsx:321-328 | confirmed and cancelled get their badges; names every object inherits give a blank badge; every other status gets the pending badge; `BadgeText` gives each badge's label |
| `DashboardRemote.Dashboard.constructor` | remotes/dashboard/src/DashboardApp.jsx:37-41 | empty lists, filter `all`, empty searches |
| `DashboardRemote.Dashboard.Load` | remotes/dashboard/src/DashboardApp.jsx:44-61 | a parse failure leaves both lists empty and storage untouched; absent appointments are generated, stored and shown; stored appointments are shown; with a lawful codec the list shown is the one stored |
| `DashboardRemote.Dashboard.SaveAppointments` | remotes/dashboard/src/DashboardApp.jsx:64-67 | state and `mf_appointments` receive the same list |
| `DashboardRemote.Dashboard.UpdateAppointmentStatus` | remotes/dashboard/src/DashboardApp.jsx:105-108 | the list becomes `UpdateStatus` of the old one and is saved |
| `DashboardRemote.Dashboard.CreateAppointmentForPatient` | remotes/dashboard/src/DashboardApp.jsx:111-123 | the list becomes `CreateAppointment` of the old one and is saved |
| `DashboardRemote.Dashboard.CreateDemo` | remotes/dashboard/src/DashboardApp.jsx:188-191 | with no patient shown nothing changes; otherwise an appointment is created for the first patient shown and the new list is saved under `mf_appointments` |
| `DashboardRemote.Dashboard.SetFilter` | remotes/dashboard/src/DashboardApp.jsx:243 | the select sets the status filter |
| `DashboardRemote.Dashboard.SetSearchPatient` | remotes/dashboard/src/DashboardApp.jsx:184 | the input sets the patient search |
| `DashboardRemote.Dashboard.SetSearchAppointment` | remotes/dashboard/src/DashboardApp.jsx:253 | the input sets the appointment search |
| `DashboardRemote.Dashboard.Logout` | remotes/dashboard/src/DashboardApp.jsx:137-144 | both session keys are removed from the frame's storage and exactly one LOGOUT is posted |
| `Seqs.Filter` | remotes/dashboard/src/DashboardApp.jsx:82-83 | `filter` never grows the list, keeps only passing entries, and returns the list itself when every entry passes |
| `Seqs.FilterMembers` | remotes/dashboard/src/DashboardApp.jsx:82-83 | every result entry comes from the list, and every passing entry is in the result |
| `Seqs.FilterMultiset` | remotes/dashboard/src/DashboardApp.jsx:82-83 | `filter` keeps each passing element as many times as the list holds it, and no other element |
| `Seqs.FilterSubsequence` | remotes/dashboard/src/DashboardApp.jsx:94 | `filter` keeps the list's order |
| `Seqs.TwoFiltersSubsequence` | remotes/dashboard/src/DashboardApp.jsx:81-87 | two chained `filter`s still give an order-preserving subsequence |
| `Text.Decimal` | remotes/dashboard/src/DashboardApp.jsx:21-23 | the decimal form of a number is a non-empty string of digits that denotes that number, with no leading zero |
| `Text.Trim` | remotes/dashboard/src/DashboardApp.jsx:19 | `trim` gives a slice of the text cut only at white space, with no white space left at either end |
| `Text.Lower` | remotes/dashboard/src/DashboardApp.jsx:85-86 | `toLowerCase` keeps the length, leaves no capital, turns each capital into its small letter and changes nothing else |
| `Text.LowerIdempotent` | remotes/dashboard/src/DashboardApp.jsx:85-86 | lower-casing twice is lower-casing once |
| `Text.ContainsAt` | remotes/dashboard/src/DashboardApp.jsx:86 | `includes(q)` (`Contains`) holds exactly when `q` occurs in the text at some index |
| `Scenarios.LoginFlow` | remotes/login/src/LoginApp.jsx:10-22 | submitting the mock credentials logs the host in as that email (and a reload reads it back); any other submit leaves the host unchanged |
| `Scenarios.NavbarLogoutFlow` | remotes/home/src/Navbar.jsx:22-30 | the two LOGOUTs of one click leave the host exactly as one LOGOUT, whether or not the frame shares the host's storage |
| `Scenarios.DashboardLogoutFlow` | remotes/dashboard/src/DashboardApp.jsx:137-144 | the dashboard's logout logs the host out, and a reload starts anonymous |
| `Scenarios.ReloadAfterLogin` | host-shell/src/App.jsx:5-6 | a host mounted again after LOGIN_SUCCESS starts with that session, no message needed |
| `Scenarios.ToggleTwice` | remotes/home/src/Navbar.jsx:83 | two clicks on the bell restore the panel |

## Left out

- HostShell.Host.constructor: requires that the stored user parses. When it does not, `JSON.parse` throws during the mount and no host exists, so there is no state to model; `Seed` returns `Err` for that case.
- HostShell.Host.ReceiveAll: renders are not interleaved with the dispatch of pending messages. After a render that throws, the source's app is unmounted and its listener removed, so later messages are not handled; the model handles every pending message and leaves the crash to `RenderRoute` and `Settle`.
- HostShell.RenderRoute: paths are taken as already normalised. React Router also matches `/Dashboard` or `/dashboard/` to the `/dashboard` route, since it ignores case and trailing slashes. The model sends such paths to `/`.
- Rendering: JSX markup, CSS classes, SVG icons, the charts of home.jsx and their sample data.
- remotes/home/src/sidebar.jsx (a drawer with a key listener) and remotes/dashboard/src/main.jsx (a React mount) are not part of this model.
- The `document.body.style.overflow` effect of home.jsx:17-26 only affects display.
- Listener registration and removal (`addEventListener` / `removeEventListener`, `useEffect`) are not modelled. The listener is always attached, and each event is one synchronous call.
- There is no origin check in the source, so every posted message is delivered.
- Concurrency between frames is out of scope. Messages are handled in the order they were posted.
- React Router is not modelled. `navigate` and `<Navigate>` set the path. The history entries that `replace` affects are not modelled.
- `Date.now()` and `new Date()` are a parameter `clock`: `clock(k)` is the k-th reading, so the repeated reads in `sampleAppointments` can differ. `toISOString` and `Math.random` are the parameters `isoDay` and `tag`.
- The 3000 ms `setTimeout` is the explicit `TimerFires` event.
- `console.log` in the page's `onSearch` and `console.error` in the load effect are recorded (`Navbar.searches`) or dropped.
- Json: only the user record `{ email }` and `null` are modelled. Only the quote and backslash escapes are handled. Control-character and `\u` escapes, extra fields and white space between tokens count as parse errors. So a text the real `JSON.parse` accepts may be an error here. The round trip is unaffected.
- Json.StringifyUser: control characters U+0000 to U+001F in an email are written unescaped, where `JSON.stringify` writes `\n`, `\t` or `\u00XX`. For such an email the `mf_user` text that `Step` stores differs from what the browser stores. The round trip within the model still holds.
- A user without an `email` is not modelled. `User` always has one.
- DashboardRemote.Codec: the JSON of the patient and appointment lists is left abstract. It is a `Codec` parameter. The consequences that need a faithful codec are stated under `Lawful`.
- Non-string `type`, `token` and patient fields are not modelled. A `type` is its string or absent, and patient names are strings or absent.
- Text.Lower: only ASCII and Latin-1 capitals are lowered. Other Unicode case mappings of `toLowerCase` are not modelled.
- Browser form validation (`required`, `type="email"`) can stop a submit before `handleSubmit` runs. That is not modelled.
- Storage quota errors of `setItem` are not modelled.
- The Sidebar's own `onNavigate` wiring is not modelled. `Home.HandleNavigate` is the callback it calls.
