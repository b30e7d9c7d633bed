# Attendance tracking: the request-decision layer, in Dafny

This project models the decision logic of a shift-attendance web application.
Employees record four kinds of shift event: CLOCK_IN, LUNCH_OUT, LUNCH_IN and CLOCK_OUT.
Each event carries the employee's coordinates.
Administrators manage the user directory and query the recorded events.

The model covers the layer between the HTTP framework and the database:

- **Identity resolution** (`Auth`). The `Authorization` header must use the `Bearer ` scheme of section 2.1 of RFC 6750.
  The rest of the header is a JWT (RFC 7519), checked by a verifier that is a parameter.
  The plain policy trusts the token's `userId` claim.
  The admin policy reads the user back from the directory and requires the stored role to be ADMIN.
- **Event submission** (`Timelog`). The route checks the caller, the required fields and the event-type enum, then appends one log.
  It never looks at the caller's earlier logs.
- **The dashboard's shift workflow** (`Dashboard`). Ordering rules exist only here, as four button-enable predicates over the page's work status.
  The status changes only after an ok reply.
- **The user directory** (`Users`). Both routes are admin-only.
  Creation checks the fields, the role enum and email uniqueness, in that order, and stores a password hash.
  No reply carries a password.
- **The report query** (`Reports`). It builds a conjunctive filter from an optional user id, an inclusive start date and an end date handled as "before the next day".
  It returns the matching logs newest first, each joined with its owner's name.
- **The report page** (`ReportsView`). It builds the query string and maps event types to Spanish labels.

The database is a class `Store.Database` holding the user table and the time-log table as sequences.
The two POST routes are methods that change it; the GET routes are functions of its sequences.
Timestamps are integers in seconds, and day `d` starts at `d * 86400`.
Request-body fields are JavaScript scalars (`Types.Json`), so that falsiness and `=== undefined` are modelled exactly.

Behaviour of the code that the model keeps as written:

- The server accepts any enum-valid event from any state. Only the dashboard orders events.
- On the dashboard, CLOCK_OUT is offered from CLOCK_IN, LUNCH_OUT and LUNCH_IN. After CLOCK_OUT nothing is offered, and no status leads back to OFFLINE.
- The dashboard starts as OFFLINE on every page load. Its status is not read back from the stored logs.
- Unauthorised callers get 401 on every modelled route (no 403).
- `getUserIdFromToken` does not consult the directory. The event route still fails (500) for a claimed user who is not stored, because the insert breaks the time-log table's required relation to its user.

## Model

| member | source | states |
|---|---|---|
| Types.ParseEventType | src/app/api/timelog/route.ts:22 | the enum check accepts exactly the four enum strings, each as itself; no non-string value passes |
| Types.ParseRole | src/app/api/users/route.ts:45 | the role check accepts exactly "EMPLOYEE" and "ADMIN", each as itself |
| Auth.ExtractToken | src/lib/auth.ts:15-20 | the token is present iff the header is `Bearer ` (case-sensitive) followed by it; it is the header minus exactly that 7-character prefix, the inverse of the header the pages build |
| Auth.UserIdFromToken | src/lib/auth.ts:41-55 | for a bearer header the result is the verifier's answer on its token (null when the verifier throws); any other header gives null; the directory is not an input |
| Auth.FindUserById | src/lib/auth.ts:25-27 | a found user is in the directory with that id; nothing is found iff no user has that id |
| Auth.AdminUserFromToken | src/lib/auth.ts:13-38 | a user is returned only if stored, with the token's userId and stored role ADMIN; null without a verified claim or a stored user; with unique ids, an EMPLOYEE gives null and an ADMIN gives that stored user |
| Timelog.Submit | src/app/api/timelog/route.ts:6-35 | checks in order: no truthy userId gives 401; missing fields give 400; a non-enum type gives 400; 500 iff the type is valid but a coordinate is not a number or the caller is not a stored user; otherwise success (201), with a log of the caller's id, the body's event type and coordinates, and the creation time |
| Timelog.EmptyEventTypeIsMissing | src/app/api/timelog/route.ts:18-24 | an empty event type is reported as a missing field, not as an invalid type |
| Timelog.ZeroCoordinatesArePresent | src/app/api/timelog/route.ts:18 | coordinates equal to 0 are present; such an event is stored |
| Timelog.Post | src/app/api/timelog/route.ts:6-41 | the reply is the decision for the header, body and directory, whatever logs are stored; success appends exactly that log and changes nothing else; failure changes nothing; every log keeps a stored owner |
| Users.List | src/app/api/users/route.ts:8-28 | non-admins get 401; an admin gets every user with id, email, name and role (the model lists them in insertion order) |
| Users.ListHidesPasswords | src/app/api/users/route.ts:15-24 | two directories that differ only in password hashes give the same reply |
| Users.Create | src/app/api/users/route.ts:31-71 | checks in order: 401 for a non-admin, 400 for a falsy field, 400 for an invalid role, 409 for a taken email, 500 for a non-string email, password or name (the email checked before the duplicate lookup); success is 201 with the given email, name and role and the hash of the password |
| Users.CreateKeepsDirectoryUnique | src/app/api/users/route.ts:49-69 | a successful insert keeps emails unique, and ids unique when the new id is unused |
| Users.CreateReplyHidesHash | src/app/api/users/route.ts:54-71 | the caller's reply (status, message, public record) is the same whatever the hash function |
| Users.Post | src/app/api/users/route.ts:31-76 | the reply is the public view of the decision; success appends exactly the new row; every failure leaves the directory unchanged; the uniqueness constraints are kept |
| Reports.SearchParam | src/app/api/reports/route.ts:13-16 | a parameter is null iff its key is absent; otherwise it is the value of the first pair with that key |
| Reports.BuildWhere | src/app/api/reports/route.ts:18-35 | each part of the filter is set iff its parameter is truthy; the lower bound is the start of the start day; the upper bound is the start of the day after the end day |
| Reports.MatchesInDays | src/app/api/reports/route.ts:18-35 | a log matches iff it belongs to the given user and its calendar day lies between the given dates, both inclusive |
| Reports.SingleDay | src/app/api/reports/route.ts:26-33 | with start date equal to end date, exactly the logs of that day (and user) match |
| Reports.NoParamsSelectEverything | src/app/api/reports/route.ts:18 | with no truthy parameter the filter is empty and every log matches |
| Reports.Filter | src/app/api/reports/route.ts:37-38 | the result holds every matching log with its multiplicity and nothing else |
| Reports.SortNewestFirst | src/app/api/reports/route.ts:44-46 | the result is a permutation of its input with non-increasing timestamps |
| Reports.Join | src/app/api/reports/route.ts:39-43 | each log keeps its place; its name is None iff no stored user has the log's user id, and otherwise the name of a stored user with that id (the owner, when ids are unique) |
| Reports.Report | src/app/api/reports/route.ts:37-47 | the rows hold exactly the matching logs with their multiplicities, newest first, each with its owner's name |
| Reports.OwnedLogsAreNamed | src/app/api/reports/route.ts:39-43 | when every log belongs to a stored user, every reported log carries a name |
| Reports.Get | src/app/api/reports/route.ts:6-49 | non-admins get 401 and no data; an admin gets 200 and the report for the query's parameters |
| ReportsView.ClientQueryRoundTrip | src/components/Reports.tsx:64-68 | the page always sends all three keys, and the route reads back exactly the values sent, empty strings included |
| ReportsView.AllUsersOption | src/components/Reports.tsx:131-132 | the "Todos" option (empty user id) puts no owner restriction in the filter, only the date bounds |
| ReportsView.EmptyFormReportsEverything | src/components/Reports.tsx:31-33 | with every filter input empty, the report holds every stored log, newest first |
| ReportsView.TranslateEventType | src/components/Reports.tsx:107-120 | the four enum names map to their Spanish labels; any other string is shown unchanged |
| ReportsView.LabelsDistinct | src/components/Reports.tsx:107-120 | different event types get different labels |
| Dashboard.Enabled | src/app/dashboard/page.tsx:118-121 | nothing is enabled while an action is in flight or after CLOCK_OUT; from OFFLINE only CLOCK_IN is enabled |
| Dashboard.ClockOutEnabledFrom | src/app/dashboard/page.tsx:121 | CLOCK_OUT is enabled iff idle and the status is CLOCK_IN, LUNCH_OUT or LUNCH_IN |
| Dashboard.RunFrom | src/app/dashboard/page.tsx:71 | after a run of successful enabled clicks the status is the last event clicked |
| Dashboard.RunFromClockOut | src/app/dashboard/page.tsx:118-121 | CLOCK_OUT is terminal: no click is possible after it |
| Dashboard.RunFromLunchIn | src/app/dashboard/page.tsx:118-121 | after LUNCH_IN the only possible click is CLOCK_OUT |
| Dashboard.RunFromLunchOut | src/app/dashboard/page.tsx:118-121 | the click runs possible from LUNCH_OUT are exactly LUNCH_IN, LUNCH_IN then CLOCK_OUT, or CLOCK_OUT |
| Dashboard.RunFromClockIn | src/app/dashboard/page.tsx:118-121 | the click runs possible from CLOCK_IN are exactly the listed continuations of one shift |
| Dashboard.RunFromOffline | src/app/dashboard/page.tsx:18 | from the initial OFFLINE status, the possible click runs are exactly the seven prefixes of a shift with at most one lunch |
| Dashboard.NoSecondLunch | src/app/dashboard/page.tsx:118-121 | after LUNCH_IN neither LUNCH_OUT nor CLOCK_IN is ever clicked |
| Dashboard.AccessGrantedForRoles | src/app/dashboard/page.tsx:31 | the page is shown iff a non-empty token is stored and the stored role names one of the two roles |
| Dashboard.ServerAcceptsEveryClick | src/app/dashboard/page.tsx:57-64 | a click posted with a verified token of a stored user is stored as sent; neither the page's status nor the stored logs enter the server's decision |
| Dashboard.RunFromExtend | src/app/dashboard/page.tsx:71 | a successful click on an enabled button extends the run, and the status becomes that click |
| Dashboard.DashboardPage.constructor | src/app/dashboard/page.tsx:13-19 | the page starts loading, idle, without error or location, with status OFFLINE and no clicks |
| Dashboard.DashboardPage.Mount | src/app/dashboard/page.tsx:26-39 | without access the page redirects and changes nothing; with access it shows the user's name; the status stays as it was |
| Dashboard.DashboardPage.StartAction | src/app/dashboard/page.tsx:46-48 | a click is possible only on a page past its access guard and on an enabled button; it records the pending action, clears the error and marks the action in flight |
| Dashboard.DashboardPage.PositionResolved | src/app/dashboard/page.tsx:51-82 | the location is set; the status becomes the pending event only on an ok reply, and the click joins the run; otherwise the error is set and the status kept; the action ends; the page invariant holds |
| Dashboard.DashboardPage.PositionFailed | src/app/dashboard/page.tsx:83-86 | a geolocation failure sets the error, keeps the status and ends the action |
| Dashboard.PageFollowsShift | src/app/dashboard/page.tsx:118-121 | on any page reachable through these methods the successful clicks are one of the seven shift prefixes, and the status is the last of them |

## Left out

- JWT verification (`jwt.verify` with the server secret) is a parameter `Verifier`. Its answer is the `userId` claim, or None when it throws or the payload has no `userId`. No property of it is assumed.
- Password hashing (`bcrypt.hash` with cost 10) is a parameter `Hasher`. Its random salt is not modelled.
- The store generates a new user's id and a log's creation timestamp. Both are parameters of the routes; the id must be unused.
- Request bodies hold only JavaScript scalars. Objects, arrays and NaN are not modelled, and neither is a body that fails to parse as JSON (a 500).
- The 500 replies are modelled only for a field that passes the checks but has the wrong JSON type, and for an event whose claimed user is not stored. Other storage failures are left out.
- `new Date(...)` on a date parameter is the parameter `DateParser`, giving a day number. Time zones, daylight saving and invalid date strings are left out.
- Users.List: `findMany` promises no order; the model returns the users in insertion order.
- Timelog.Submit, Reports.Join: the database schema is not part of this model. The required relation of a log to its user is inferred from the route's `include: { user }` and the page's non-null `user` field.
- Logs with equal timestamps may come back in any order. `Reports.SortNewestFirst` fixes one order; the store promises none.
- Concurrency: the users route reads then inserts with no guard, so the outcome of two concurrent creations is not modelled.
- The DELETE route for a single user and the login route are not part of this model.
- Coordinate formatting (`toFixed(5)`), `toLocaleString`, the PDF export, the map and `navigator.geolocation` itself are left out. Only the geolocation outcomes' effects on the dashboard state are modelled.
- React rendering, `localStorage`, router redirects, logout, the admin and login pages and the user-management form are UI plumbing and are left out.
- The report page's own loading and error state, and its fetch of the user list, are left out. The query string it builds and the labels it shows are modelled.
