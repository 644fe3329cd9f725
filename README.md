# PMP Master, modelled in Dafny

PMP Master is a Next.js project-management dashboard backed by PostgreSQL. This project
models its core and proves properties of the model:

- the route guard that runs before every page;
- the three authentication handlers (`register`, `login`, `me`) with their bcrypt hashes,
  JWT session tokens and session cookie;
- the list and create handlers for tasks, projects, team members and meetings, including
  the parameterised SQL their GET handlers build;
- the dashboard statistics handler;
- the display logic of the dashboard, task, project, team and sign-up pages and of the
  sidebar.

The modules follow the source:

- `Js`: truthiness and `||` defaults, `startsWith`.
- `Decimal`: numbers as decimal text and back.
- `Http`: JSON responses and the session cookie.
- `Bcrypt`, `Jwt`: the hash and the token.
- `Database`: the tables as a `Db` object whose INSERTs update it in place.
- `Sql`: statements with `$k` placeholders and their binding.
- `RouteGuard`: `src/middleware.ts`.
- `LoginRoute`, `MeRoute`, `RegisterRoute`: the auth handlers. `Session` holds the lemmas
  connecting them.
- `TasksApi`, `ProjectsApi`, `TeamApi`, `MeetingsApi`, `DashboardApi`: the handlers.
- `DashboardPage`, `TasksPage`, `ProjectsPage`, `TeamPage`, `RegisterPage`, `Sidebar`: the
  client code.

A handler that writes the database is modelled in two parts. A function `XSpec` gives the
response and the new database contents from the old contents. A method on `Db`, with
`modifies db`, performs the same checks and INSERTs in the source's order, and is proved to
produce exactly `XSpec`'s outcome while keeping the table invariants: unique emails,
increasing SERIAL ids, and attendances that name existing meetings. Read-only handlers are
functions of a snapshot.

The GET builders are methods that grow `sql` and `params` as the source does. Each is proved
in two ways:

- its placeholders are exactly `$1..$n` in order;
- binding every `$k` to `params[k-1]` gives an independently written statement with the
  filter values inlined where the code means them.

Requests, clocks, the database connection (`up`), bcrypt's salt, the JWT secret and the HMAC
are parameters.

## Model

| member | source | states |
|---|---|---|
| `Decimal.ParseNat` | src/app/api/tasks/route.ts:11 | A text parses as a number exactly when it is a non-empty run of digits. |
| `Decimal.DecRoundTrip` | src/app/api/tasks/route.ts:11 | Reading back the decimal text of any number gives that number. |
| `Decimal.DecInjective` | src/app/api/tasks/route.ts:11 | Different numbers have different decimal texts. |
| `Http.SessionCookie` | src/app/api/auth/login/route.ts:68-73 | The cookie is named `token` and holds the token. It is httpOnly, sameSite lax and lasts 604800 s. It is secure exactly in production. |
| `Bcrypt.Hash` | src/app/api/auth/register/route.ts:30 | A hash records cost 10 and the salt it was made with. |
| `Bcrypt.Compare` | src/app/api/auth/login/route.ts:37 | A password is accepted exactly when hashing it with the digest's own cost and salt gives the digest back. |
| `Bcrypt.CompareHash` | src/app/api/auth/login/route.ts:37 | `compare` accepts the password a hash was made from and no other, whatever the salt. |
| `Jwt.EscapeChar` | src/app/api/auth/login/route.ts:46-54 | An escaped character contains no field separator and no '.'. |
| `Jwt.Escape` | src/app/api/auth/login/route.ts:46-54 | An escaped text contains no ',' and no '.'. |
| `Jwt.UnescapeEscape` | src/app/api/auth/login/route.ts:46-54 | Unescaping undoes escaping. |
| `Jwt.Split` | src/app/api/auth/login/route.ts:46-54 | Splitting at ',' yields at least one field. |
| `Jwt.SplitAfterField` | src/app/api/auth/login/route.ts:46-54 | A field without ',' stays whole at the head of a split. |
| `Jwt.SplitJoin` | src/app/api/auth/login/route.ts:46-54 | Splitting joined fields that contain no ',' gives the fields back. |
| `Jwt.JoinHasNoDot` | src/app/api/auth/login/route.ts:46-54 | Fields without '.' join to a text without '.'. |
| `Jwt.EncodePayload` | src/app/api/auth/login/route.ts:46-54 | An encoded payload contains no '.', so the first '.' of a token ends it. |
| `Jwt.PayloadRoundTrip` | src/app/api/auth/login/route.ts:46-54 | Decoding an encoded payload gives back its claims, `iat` and `exp`. |
| `Jwt.IndexOf` | src/app/api/auth/me/route.ts:19 | The index found holds the character, and no earlier index does. |
| `Jwt.IndexOfAfter` | src/app/api/auth/me/route.ts:19 | The first '.' of payload + '.' + signature sits right after the payload. |
| `Jwt.SplitSigned` | src/app/api/auth/me/route.ts:19 | A token splits back into the payload and the signature it was made of. |
| `Jwt.Verify` | src/app/api/auth/me/route.ts:19 | A token without '.' is malformed. A verified token has a decodable payload, the right signature and an `exp` still in the future, and its claims are the payload's. |
| `Jwt.Sign` | src/app/api/auth/login/route.ts:46-54 | A token has a '.'. The part before it decodes to the claims with `iat` now and `exp` seven days later. The part after it is the MAC of the part before under the secret. |
| `Jwt.SignThenVerify` | src/app/api/auth/login/route.ts:46-54 | A signed token verifies to its claims before `iat` + 7 days and is expired from then on. |
| `Jwt.TamperedSignatureIsRejected` | src/app/api/auth/me/route.ts:19 | A token whose signature is not the MAC of its payload is rejected as a bad signature. |
| `Jwt.OtherKeyIsRejected` | src/app/api/auth/me/route.ts:19 | A token signed under a key that signs the payload differently is rejected. |
| `RouteGuard.SomePrefixSpec` | src/middleware.ts:15-17 | `some(startsWith)` holds exactly when some route is a prefix of the path. |
| `RouteGuard.SomeEqualSpec` | src/middleware.ts:20-22 | `some(===)` holds exactly when the path is one of the routes. |
| `RouteGuard.Classification` | src/middleware.ts:5-22 | A path is protected exactly when it starts with /dashboard. It is an auth route exactly when it is /login or /register. |
| `RouteGuard.ProtectedAndAuthAreDisjoint` | src/middleware.ts:5-22 | No path is both protected and an auth route. |
| `RouteGuard.Middleware` | src/middleware.ts:10-37 | The full decision table over the path text and the cookie, each outcome as an if-and-only-if: to /login exactly for a path starting with /dashboard without a non-empty cookie, carrying the original path; to /dashboard exactly for /login or /register with one; passed through otherwise. |
| `RouteGuard.ProtectedWithoutTokenGoesToLogin` | src/middleware.ts:25-29 | A protected path without a token is redirected to /login with the path as `redirect`. |
| `RouteGuard.AuthRouteWithTokenGoesToDashboard` | src/middleware.ts:32-34 | /login or /register with a token is redirected to /dashboard. |
| `RouteGuard.TokenIsNeverVerified` | src/middleware.ts:11-34 | Any two non-empty cookie values lead to the same decision, and neither leads to the login redirect. |
| `RouteGuard.EmptyTokenIsNoToken` | src/middleware.ts:25-32 | An empty cookie value is treated as no cookie. |
| `RouteGuard.MatchingIsExactAndPrefix` | src/middleware.ts:15-22 | /login/x is neither kind of route and passes. /dashboard-anything is protected. |
| `Database.FindFirst` | src/app/api/auth/login/route.ts:21-34 | A lookup by a column (email for login and register, id for `me`) finds a stored row with that value, or no row has it. |
| `Database.UserIds` | scripts/init-db.js:55 | The id column, row by row. |
| `Database.AppendNewEmail` | scripts/init-db.js:56 | Adding a row under an email that is not yet present keeps emails unique. |
| `Database.UserIdsAppend` | scripts/init-db.js:55 | The id column of a table with a row added ends with that row's id. |
| `Database.AppendUserKeepsValid` | scripts/init-db.js:55-56 | A new email under the next SERIAL id keeps the users table valid. |
| `Database.FindAppended` | scripts/init-db.js:55-56 | A row added under a value of a column that no row had is what a lookup by that value finds. |
| `Database.FindStoredId` | scripts/init-db.js:55 | With SERIAL ids, every stored row is found by its own id. |
| `Database.NextIdIsFree` | scripts/init-db.js:55 | With SERIAL ids, the next id is not yet in the table. |
| `Database.Db.constructor` | scripts/init-db.js:53-137 | A new database is empty and valid, and every SERIAL column starts at 1. |
| `Database.Db.InsertUser` | src/app/api/auth/register/route.ts:33-38 | Appends exactly the given row under the next id, advances the counter and keeps the table valid. |
| `Database.Db.InsertProject` | src/app/api/projects/route.ts:62-67 | Appends the row with progress 0 (the column default) under the next id. |
| `Database.Db.InsertTask` | src/app/api/tasks/route.ts:78-83 | Appends the row under the next id. |
| `Database.Db.InsertMeeting` | src/app/api/meetings/route.ts:62-67 | Appends the row under the next id. |
| `Database.Db.InsertAttendee` | src/app/api/meetings/route.ts:74-77 | Adds the pair to the attendance set. A pair already present changes nothing (ON CONFLICT DO NOTHING). |
| `LoginRoute.WithoutPassword` | src/app/api/auth/login/route.ts:57 | The answered user has the row's id, email, name, role, position and avatar. |
| `LoginRoute.HashIsNotAnswered` | src/app/api/auth/login/route.ts:57 | Rows that differ only in their hash or timestamps give the same answered user. |
| `LoginRoute.Authenticate` | src/app/api/auth/login/route.ts:21-43 | A user is found exactly when the email is stored and the password matches that row's hash. |
| `LoginRoute.Login` | src/app/api/auth/login/route.ts:8-83 | The outcomes: 400 for missing credentials, 401 for an unknown email or a wrong password, 500 for an unreadable body or a database failure, 200 exactly when the credentials authenticate. A 200 carries the user without its hash and a cookie with the token. Only a 200 sets a cookie. |
| `LoginRoute.UnknownEmailAndWrongPasswordLookAlike` | src/app/api/auth/login/route.ts:27-43 | An unknown email and a wrong password give the identical 401 response. |
| `LoginRoute.LoginTokenVerifies` | src/app/api/auth/login/route.ts:46-54 | The login token verifies to the user's id, email and role for seven days, then is expired. |
| `MeRoute.Me` | src/app/api/auth/me/route.ts:8-46 | 401 "not logged in" exactly without a cookie. 401 "invalid token" exactly for a rejected token or a failing database. 404 exactly for a valid token whose user is gone. 200 exactly for a valid token whose user is stored, answered with that user's profile. |
| `MeRoute.RejectedTokensLookAlike` | src/app/api/auth/me/route.ts:39-45 | Malformed, forged and expired tokens all get the same 401. |
| `RegisterRoute.RegisterSpec` | src/app/api/auth/register/route.ts:8-77 | 400, 409 and 500 under their exact conditions, each leaving the users table untouched. A 201 appends exactly one user: the next id, the body's email and name, role 'user', `position \|\| null`, no avatar, and a hash that accepts the password. It answers with that user's public columns and sets the cookie with the token. |
| `RegisterRoute.Register` | src/app/api/auth/register/route.ts:8-77 | Check-then-insert on a live database, keeping it valid, with exactly `RegisterSpec`'s outcome. |
| `Session.RegisterThenLogin` | src/app/api/auth/register/route.ts:33-38 | After a registration, logging in with the same email and password succeeds as the new user, with role 'user'. |
| `Session.SecondRegistrationConflicts` | src/app/api/auth/register/route.ts:21-27 | Registering a registered email again gives 409 and changes nothing. |
| `Session.RegisterKeepsTableValid` | scripts/init-db.js:55-56 | Registration keeps emails unique and SERIAL ids increasing. |
| `Session.LoginThenMe` | src/app/api/auth/me/route.ts:19-38 | The login token makes `me` answer with that user for seven days, and "invalid token" afterwards. |
| `Session.RegisterThenMe` | src/app/api/auth/me/route.ts:19-38 | The registration token makes `me` answer with the new user for seven days, and "invalid token" afterwards. |
| `Sql.Bind` | src/lib/db.ts:28-30 | Binding, as `pool.query(text, params)` does, yields one piece per piece of the statement. |
| `Sql.LimitParam` | src/app/api/tasks/route.ts:11 | A missing or empty `limit` becomes 50, and a digit string becomes its number. |
| `Sql.PlaceholdersAppend` | src/app/api/tasks/route.ts:25-46 | The placeholders of a concatenation are those of its parts, in order. |
| `Sql.PlaceholderOccurs` | src/app/api/tasks/route.ts:25-46 | Every placeholder piece is listed among the placeholders. |
| `Sql.WellNumberedBindsAll` | src/app/api/tasks/route.ts:25-46 | In a well-numbered statement every `$k` has its parameter, so no placeholder is left dangling. |
| `Sql.BindExtend` | src/app/api/tasks/route.ts:25-46 | Adding parameters does not change how the existing placeholders bind. |
| `Sql.StartBuild` | src/app/api/tasks/route.ts:13-23 | The initial statement is well numbered and binds to itself. |
| `Sql.PushFilter` | src/app/api/tasks/route.ts:25-29 | Appending `text $n+1` and pushing the value keeps the statement well numbered, and the bound statement gains the text and the value. |
| `Sql.PushText` | src/app/api/team/route.ts:27 | Appending plain text keeps the numbering, and the bound statement gains the text. |
| `Sql.AddTextSpec` | src/app/api/team/route.ts:27 | Appending text binds to the old binding plus the text. |
| `Sql.AddFilterSpec` | src/app/api/tasks/route.ts:25-29 | Appending a filter binds to the old binding plus the text and the value. |
| `TasksApi.FilterStep` | src/app/api/tasks/route.ts:25-29 | One optional filter: pushes the value only when it is present, keeping `paramIndex` one past the parameter count. The bound statement gains the condition. |
| `TasksApi.BuildTaskQuery` | src/app/api/tasks/route.ts:7-47 | Well-numbered placeholders. Binding gives the three optional conditions and the LIMIT with values inlined. There is one parameter per present filter plus `limit`, and the LIMIT placeholder is the last one. |
| `TasksApi.CreateTaskSpec` | src/app/api/tasks/route.ts:66-96 | 400 without a title, 500 for an unreadable body or a failing database, each leaving the table unchanged. A 201 appends exactly one task with the defaults pending, medium and null. |
| `TasksApi.CreateTask` | src/app/api/tasks/route.ts:66-96 | The INSERT on a live database, with exactly `CreateTaskSpec`'s outcome. |
| `ProjectsApi.BuildProjectQuery` | src/app/api/projects/route.ts:7-32 | Well-numbered placeholders. The LIMIT placeholder, `params.length + 1`, is the last one. The parameters are the status (when present) and `limit`. |
| `ProjectsApi.CreateProjectSpec` | src/app/api/projects/route.ts:50-80 | 400 without a name, 500 on failure, each leaving the table unchanged. A 201 appends one project with status planning, created_by 1, null defaults and progress 0. |
| `ProjectsApi.CreateProject` | src/app/api/projects/route.ts:50-80 | The INSERT on a live database, with exactly `CreateProjectSpec`'s outcome. |
| `TeamApi.BuildTeamQuery` | src/app/api/team/route.ts:7-29 | Well-numbered placeholders. Binding gives the role condition when a role is given. The parameters are `[role]` or none. |
| `TeamApi.WithoutPassword` | src/app/api/team/route.ts:32-35 | Putting the row's hash back into the answered member restores the row exactly, so everything but the hash is kept. |
| `TeamApi.StripPasswords` | src/app/api/team/route.ts:32-35 | Every row is kept, in order. Each row keeps every field but its hash: putting the hash back restores the row. |
| `TeamApi.HashIsInvisible` | src/app/api/team/route.ts:32-35 | Rows that differ only in their hash are answered identically. |
| `TeamApi.CreateMemberSpec` | src/app/api/team/route.ts:52-95 | 400 without email or name, 409 for a taken email, 500 on failure, each leaving the table unchanged. A 201 appends one user: the client's role or 'user' when falsy, the hash of 'password123', and the answer without the hash. |
| `TeamApi.CreateMember` | src/app/api/team/route.ts:52-95 | Check-then-insert on a live database, keeping it valid, with exactly `CreateMemberSpec`'s outcome. |
| `TeamApi.PasswordInBodyIsIgnored` | src/app/api/team/route.ts:55 | A password in the request body changes nothing. |
| `TeamApi.NewMemberHasDefaultPassword` | src/app/api/team/route.ts:74-75 | A created member accepts 'password123' and no other password. |
| `MeetingsApi.BuildMeetingQuery` | src/app/api/meetings/route.ts:7-32 | Well-numbered placeholders. Binding gives the project condition when a project id is given. The parameters are `[project_id]` or none. |
| `MeetingsApi.Attendances` | src/app/api/meetings/route.ts:72-79 | The pairs are exactly (meeting, listed user). |
| `MeetingsApi.CreateMeetingSpec` | src/app/api/meetings/route.ts:49-92 | 400 without a title or date, 500 on failure, each leaving the database unchanged. A 201 appends one meeting (duration 60 and created_by 1 by default) and adds one attendance per listed user. |
| `MeetingsApi.CreateMeeting` | src/app/api/meetings/route.ts:49-92 | The INSERT and the attendee loop on a live database, with exactly `CreateMeetingSpec`'s outcome. The loop invariant records the attendances inserted so far. |
| `MeetingsApi.NewMeetingAttendees` | src/app/api/meetings/route.ts:72-79 | After a 201, a user attends the new meeting exactly when listed. |
| `MeetingsApi.RepeatedIdsAreHarmless` | src/app/api/meetings/route.ts:75 | Listing a user twice gives the same outcome as listing them once. |
| `DashboardApi.Count` | src/app/api/dashboard/route.ts:8-27 | A filtered count never exceeds the row count. |
| `DashboardApi.Filter` | src/app/api/dashboard/route.ts:48-54 | The rows kept are as many as the count, all meet the condition, and all come from the table. |
| `DashboardApi.CountDisjoint` | src/app/api/dashboard/route.ts:24-25 | For conditions no row meets together, the counts add up to the count of either. |
| `DashboardApi.CountMonotone` | src/app/api/dashboard/route.ts:56-65 | A weaker condition counts at least as many rows. |
| `DashboardApi.CountSame` | src/app/api/dashboard/route.ts:24-25 | Equivalent conditions count alike. |
| `DashboardApi.OverdueAndDueTodayPartition` | src/app/api/dashboard/route.ts:24-25 | Overdue and due-today never overlap. Together they are the open tasks due by today, and never more than the tasks there are. |
| `DashboardApi.NoDueDateIsNeverLate` | src/app/api/dashboard/route.ts:24-25 | A task without a due date is counted neither overdue nor due today. |
| `DashboardApi.RoundedPercent` | src/app/api/dashboard/route.ts:60 | (200c + n) div 2n is 100c/n rounded half up, at most 100, and exactly 100 when all are completed. |
| `DashboardApi.Performance` | src/app/api/dashboard/route.ts:57-65 | 0 with no assigned task. Otherwise the nearest integer to 100·completed/assigned, at most 100, and 100 when everything is completed. |
| `DashboardApi.ReportedPerformance` | src/app/api/dashboard/route.ts:80 | A computed 0 is reported as 94. Any other value is reported as it is. |
| `DashboardApi.TeamPerformance` | src/app/api/dashboard/route.ts:56-65 | The performance over assigned tasks is at most 100. |
| `DashboardApi.TopFive` | src/app/api/dashboard/route.ts:44 | At most five rows, five whenever there are five, each in its original position. |
| `DashboardApi.RecentTasks` | src/app/api/dashboard/route.ts:35-45 | Five rows, or all when there are fewer, each the id, title, status and due date of the task in that position. |
| `DashboardApi.HealthRows` | src/app/api/dashboard/route.ts:48-54 | As many rows as there are unfinished projects, at most five, none completed, each drawn from a stored project. |
| `DashboardApi.Dashboard` | src/app/api/dashboard/route.ts:5-94 | 200 exactly when the database answers, otherwise the 500 error. The totals are the table sizes. Active projects, pending tasks, tasks due today and overdue tasks are the counts of rows meeting the source's conditions, and the last two add up to the open tasks due by today. Team performance is the rounded percentage with 0 shown as 94, so it lies between 1 and 100. The lists are the recent-task rows and the health rows. |
| `DashboardApi.NothingCompletedShows94` | src/app/api/dashboard/route.ts:57-80 | When no assigned task is completed, the reported performance over the tasks (the figure `Dashboard` returns) is 94. |
| `DashboardApi.DashboardShows94` | src/app/api/dashboard/route.ts:80 | When no assigned task is completed, the dashboard's `team_performance` is 94. |
| `DashboardApi.ZeroCount` | src/app/api/dashboard/route.ts:60 | A condition no row meets counts 0. |
| `DashboardPage.StatusColor` | src/app/dashboard/page.tsx:55-81 | Every status gets a key of the `colors` table. Anything but in_review, completed and overdue is blue. |
| `DashboardPage.StatusLabel` | src/app/dashboard/page.tsx:65-74 | An unknown status is shown as itself. |
| `DashboardPage.KnownLabelsAreDistinct` | src/app/dashboard/page.tsx:65-74 | The five known statuses get five different labels, none of them a status name. |
| `DashboardPage.IsOverdue` | src/app/dashboard/page.tsx:84 | 'overdue' is always marked overdue. 'completed' never is, whatever the dates. Any other status is overdue exactly when it has a due date before now. |
| `DashboardPage.OverdueStaysOverdue` | src/app/dashboard/page.tsx:84 | Once marked overdue, a task stays marked as time goes on. |
| `DashboardPage.ProgressColor` | src/app/dashboard/page.tsx:103-108 | Each band holds exactly when progress is in its range: ≥75, 50–74, 25–49, <25. |
| `DashboardPage.ProgressColorMonotone` | src/app/dashboard/page.tsx:103-108 | More progress never shows a worse band. |
| `DashboardPage.HealthLabel` | src/app/dashboard/page.tsx:110-115 | 'Sắp hoàn thành' whenever progress ≥ 75, whatever the status. Below 75, the status decides. |
| `DashboardPage.ShownOverview` | src/app/dashboard/page.tsx:179-186 | Without data the overview is all zeros. With data it is the server's. |
| `DashboardPage.OverdueCard` | src/app/dashboard/page.tsx:216-223 | The card warns exactly when some task is overdue, and its text follows the warning. |
| `DashboardPage.PerformanceTrend` | src/app/dashboard/page.tsx:224-227 | 'Xuất sắc!' from 90 up, '+12% tuần này' below. |
| `DashboardPage.NoProgressLooksExcellent` | src/app/dashboard/page.tsx:227 | When no assigned task is completed, the performance card says 'Xuất sắc!'. |
| `TasksPage.StatusBadge` | src/app/dashboard/tasks/page.tsx:16-24 | The four known statuses have their fixed labels and colours. An unknown status is its own label, in plain grey. |
| `TasksPage.PriorityBadge` | src/app/dashboard/tasks/page.tsx:26-34 | The four priorities have their fixed labels and colours. An unknown priority is its own label, in plain grey. |
| `TasksPage.PriorityLabelsAreDistinct` | src/app/dashboard/tasks/page.tsx:26-31 | Each priority label reads back to its priority, so the four are distinct. |
| `TasksPage.StatusLabelsAreDistinct` | src/app/dashboard/tasks/page.tsx:16-21 | Each status label reads back to its status, so the four are distinct. |
| `TasksPage.OverdueIsShownRaw` | src/app/dashboard/tasks/page.tsx:22 | 'overdue' has no entry and is shown as the raw word. |
| `TasksPage.ProjectCell` | src/app/dashboard/tasks/page.tsx:119 | A missing project name shows 'Chưa gán'. |
| `TasksPage.AssigneeCellOf` | src/app/dashboard/tasks/page.tsx:121-132 | 'Chưa gán' exactly without an assignee name. Otherwise the name, with the given avatar when there is one. |
| `ProjectsPage.StatusBadge` | src/app/dashboard/projects/page.tsx:17-25 | The four known statuses have their fixed label and class. An unknown status is its own label, on `bg-primary`. |
| `ProjectsPage.UnknownStatusLooksInProgress` | src/app/dashboard/projects/page.tsx:19-23 | An unknown status has in_progress's colour with its own name. |
| `ProjectsPage.CardOf` | src/app/dashboard/projects/page.tsx:111-125 | The client, or 'Nội bộ'. Emerald text and bar exactly at 100 %, primary otherwise. The member count, or 0. |
| `TeamPage.RemoveMember` | src/app/dashboard/team/page.tsx:55 | No member with the id is left, and the list does not grow. |
| `TeamPage.RemoveDistributes` | src/app/dashboard/team/page.tsx:55 | Removal distributes over concatenation, so the remaining members keep their relative order. |
| `TeamPage.RemoveKeepsOthers` | src/app/dashboard/team/page.tsx:55 | A member remains exactly when it was there and has another id. |
| `TeamPage.RemoveAbsent` | src/app/dashboard/team/page.tsx:55 | Removing an id that is not shown changes nothing. |
| `TeamPage.RemoveIdempotent` | src/app/dashboard/team/page.tsx:55 | Removing twice is removing once. |
| `TeamPage.CardOf` | src/app/dashboard/team/page.tsx:99-131 | The avatar, or the placeholder keyed by id + 60. The position, or the role when empty. The counts, or 0. |
| `TeamPage.TeamView.constructor` | src/app/dashboard/team/page.tsx:18-21 | The page starts with the given members and no alert. |
| `TeamPage.TeamView.HandleDelete` | src/app/dashboard/team/page.tsx:44-62 | A request goes out exactly when confirmed. Cancelling changes nothing. Success filters the list. An error or no connection leaves the list as it was and alerts the server's message, the fallback or the connection message. |
| `RegisterPage.Validate` | src/app/register/page.tsx:28-50 | A mismatch is reported first, then a password under 6 characters. Otherwise the request goes out with email, password, full_name and `position \|\| null`, and no confirmation. |
| `RegisterPage.SignupView.constructor` | src/app/register/page.tsx:9-17 | The form starts with no error, not loading, nothing stored and no navigation. |
| `RegisterPage.SignupView.HandleSubmit` | src/app/register/page.tsx:23-66 | A rejected form sends nothing, shows its message and leaves loading as it was. Otherwise the request is sent and loading ends false. On success the user is stored and the page goes to /dashboard. On a refusal the server's error, or 'Đăng ký thất bại', is shown. Without a connection the connection message is shown. |
| `RegisterPage.AcceptedFormRegisters` | src/app/register/page.tsx:41-50 | A form the page lets through, with an email and a name, registers on the server whenever the email is free. The new account's position is the form's, empty as null. |
| `Sidebar.IsActive` | src/components/Sidebar.tsx:21-26 | An active item's href is a prefix of the path. The dashboard item is active exactly on /dashboard. Any other item is active exactly when the path is its href followed by anything. |
| `Sidebar.Render` | src/components/Sidebar.tsx:13-85 | The dashboard item is active exactly on /dashboard. Every other item is active exactly when the path starts with its href. Settings is active exactly on /dashboard/settings. The logout button is shown exactly when `onLogout` is given. |
| `Sidebar.SectionHrefsDiffer` | src/components/Sidebar.tsx:13-19 | The section hrefs differ within their first 13 characters, so none is a prefix of another. |
| `Sidebar.SettingsHrefDiffers` | src/components/Sidebar.tsx:13-65 | Every section href differs from the settings href at character 11. |
| `Sidebar.PrefixesAgree` | src/components/Sidebar.tsx:25 | Two prefixes of one path agree wherever both have a character. |
| `Sidebar.AtMostOneActive` | src/components/Sidebar.tsx:13-26 | For any path, at most one menu item is active. |
| `Sidebar.SettingsIsExclusive` | src/components/Sidebar.tsx:21-65 | On /dashboard/settings only settings is active. |
| `Sidebar.NestedPageKeepsSection` | src/components/Sidebar.tsx:21-26 | A page below /dashboard/tasks keeps the tasks item active and the dashboard item inactive. |

## Left out

Column widths are not modelled. The VARCHAR limits of scripts/init-db.js:56-61, 72-76 and 101-118 are absent from the model. In the source, an INSERT with an over-long value throws, and the handler's catch answers 500. The model answers 201 and appends the row instead. This affects the following members:

- RegisterRoute.RegisterSpec: no 500 for an email or full name over 255 characters, or a position over 100.
- TeamApi.CreateMemberSpec: no 500 for an email or full name over 255 characters, a role over 50, or a position over 100.
- TasksApi.CreateTaskSpec: no 500 for a title over 255 characters, a status over 50, or a priority over 20.
- ProjectsApi.CreateProjectSpec: no 500 for a name or client over 255 characters, or a status over 50.
- MeetingsApi.CreateMeetingSpec: no 500 for a title over 255 characters.
- RegisterPage.AcceptedFormRegisters: its 201 holds only in the model. The source answers 500 for an email or name over 255 characters, or a position over 100.

The other omissions:

- Cryptography is ideal.
  - bcrypt is a record of cost, salt and password, so its one-wayness is not modelled. The salt bcryptjs draws at random is a parameter.
  - The JWT is payload, '.', then a MAC of the payload. It has no header segment and no base64url encoding. The HMAC is a parameter `mac`, so forgery resistance is a premise: `Jwt.OtherKeyIsRejected` assumes the two keys sign differently.
- The SQL engine is not modelled.
  - JOINs, `COUNT(*)` subqueries and `COUNT DISTINCT` are left out.
  - Ordering by timestamps is not modelled: `TopFive` and `HealthRows` keep table order instead of `updated_at DESC`.
  - The rows of the list GET handlers and their 500 answers are not modelled. Their builders are modelled down to the statement and its parameters.
- Foreign keys are not enforced on INSERT.
  - No `created_by` or `assignee_id` reference is checked.
  - A meeting whose attendee list names an unknown user would fail mid-loop in PostgreSQL after the meeting row was written. The model inserts every listed pair.
- The UNIQUE email constraint is reached only through the handlers' own check. The race between the check and the insert is concurrency, which is not modelled.
- Sql.LimitParam: `parseInt` is modelled only on digit strings. Leading signs, spaces and trailing non-digits give `NaN` here, although `parseInt` reads a number prefix.
- Dates and timestamps are integers. `new Date()` and `CURRENT_DATE` are the parameters `now` and `today`. Locale formatting is not modelled.
- The Next.js matcher regex in `src/middleware.ts:49` is not modelled. The guard is modelled for every path it is asked about.
- The cookie set through `response.cookies.set` is modelled as a field of the returned response.
- String lengths are counted in characters, not UTF-16 code units.
- Rendering, CSS beyond the mapping tables, `fetch` and `router.push` are not modelled. `localStorage`, `confirm` and `alert` are modelled as fields or parameters.
- The pages' initial data loading (`useEffect` fetches) and their loading and error screens are not modelled.
- The login and register bodies hold text fields or nothing. A JSON body of another type (a number, an array) or a field of another type cannot be expressed. Such a body gives absent fields in the source, and so its 400.
- `recent_tasks` rows leave out the joined `project_name` and `assignee_name`, since JOINs are not modelled.
- The dashboard statistics the handler computes but does not return (planning and completed projects, total, in-progress and completed tasks) are not modelled.
- `src/lib/db.ts` (the pool, query logging and client release) is not part of this model, beyond the `up` flag: when the database cannot serve a query, every handler takes its catch branch.
- The team DELETE handler (`src/app/api/team/[id]/route.ts`) is not part of this model. The team page receives its reply as a parameter.
