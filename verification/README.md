# XDSEC recruitment front end, modelled in Dafny

This project models the client-side logic of the XDSEC recruitment system.
That system is a React single-page application over a REST backend. The model
covers four layers:

- **The API layer** (`src/api/*.js`):
  - the bearer-token slot in browser storage;
  - `request`, which builds the URL and headers, reads the body and turns a
    non-2xx status into an error;
  - the authentication calls, which hash passwords and store the token;
  - the normalisers that turn snake_case or camelCase backend records into one
    client shape.
- **The session** (`AuthContext.jsx`): a state machine over (user, loading,
  storage), with `refresh`, `login` and `logout`.
- **Access control**:
  - the route guard;
  - the route table, which maps each path to its guard and page;
  - the navigation links the page frame shows for a user.
- **Page logic**, as pure transitions over small form records:
  - the candidate detail page;
  - announcement and task management;
  - the application form;
  - the interviewee's task reports;
  - registration and password reset, including the email-code cooldown.

JavaScript's own semantics are modelled once, in module `Js`:

- a `Json` value;
- truthiness and `a || b`;
- `{ ...a, ...b }` as map union;
- `?.`, `===` and `String.prototype.trim`.

Every other module builds on these. The program's external effects become inputs:

- browser storage is an explicit `map<string, string>`;
- `fetch` is replaced by the response the server gave;
- `JSON.parse` and `JSON.stringify` of the cached user are a `Codec` parameter;
- request bodies are kept as the value before `JSON.stringify` encodes them;
- the SHA-256 password digest is a function parameter;
- `window.confirm` is a boolean.

A promise is modelled by how it settles, as a `Result` (`Ok` or `Err`).

Modules follow the source files:

| file | module | models |
|---|---|---|
| js.dfy | `Js` | the JavaScript semantics listed above |
| lists.dfy | `Lists` | the array operations `filter`, `map` and the checkbox toggle |
| client.dfy | `Client` | `client.js` |
| api.dfy | `Api` | the request shapes, `URLSearchParams`, alias normalisation and the list envelope shared by the API files |
| users_api.dfy | `UsersApi` | `users.js` |
| tasks_api.dfy | `TasksApi` | `tasks.js` |
| announcements_api.dfy | `AnnouncementsApi` | `announcements.js` |
| comments_api.dfy | `CommentsApi` | `comments.js` |
| auth_api.dfy | `AuthApi` | `auth.js` |
| auth_context.dfy | `AuthContext` | `AuthContext.jsx` |
| protected_route.dfy | `ProtectedRoute` | `ProtectedRoute.jsx` |
| app_routes.dfy | `AppRoutes` | `App.jsx` |
| layout.dfy | `Layout` | `Layout.jsx` |
| access.dfy | `Access` | the three access-control pieces combined |
| crud_form.dfy | `CrudForm` | the create-or-update editor the two management pages share |
| manage_announcements.dfy, manage_tasks.dfy, application_form.dfy, my_tasks.dfy, candidate_detail.dfy | one module per page | the page of the same name |
| email_code.dfy | `EmailCode` | the email-code control that `Register.jsx` and `ForgotPassword.jsx` share |
| register.dfy, forgot_password.dfy | one module per page | the page of the same name |

## Model

| member | source | states |
|---|---|---|
| Client.ApiBase | src/api/client.js:1 | The base URL is the configured one when it is non-empty, and "/api/v2" otherwise. |
| Client.GetToken | src/api/client.js:4-6 | The token is "" when the slot is absent, and otherwise the stored value. |
| Client.SetToken | src/api/client.js:8-12 | A falsy token leaves storage unchanged. A truthy token writes the token slot and no other slot. |
| Client.ClearToken | src/api/client.js:14-16 | The token slot is removed. Every other slot keeps its presence and its value. |
| Client.TokenRoundTrip | src/api/client.js:4-12 | A non-empty token that was set reads back unchanged. |
| Client.ClearedTokenReadsEmpty | src/api/client.js:4-16 | After clearing, the token reads as "". |
| Client.Headers | src/api/client.js:20-28 | Content-Type defaults to application/json, and caller headers override it. Authorization is "Bearer " + token iff a token is stored. No other header is added. |
| Client.ReadBody | src/api/client.js:35-37 | The body is parsed as JSON iff the content type contains application/json. Otherwise it is the text. A parse failure rejects. |
| Client.HttpFailure | src/api/client.js:39-43 | The error carries the status and payload = body. Its message is `body.message` when truthy, else "Request failed". |
| Client.Request | src/api/client.js:18-46 | The URL is base + path. The method and body are the caller's. The headers are as above. A 2xx status resolves to the body; any other status rejects with the HTTP failure. |
| Client.BearerRecoversToken | src/api/client.js:25-28 | A server decoding the bearer header recovers exactly the stored token, or nothing when none is stored. |
| Client.OkReturnsBody | src/api/client.js:39-46 | An ok response resolves to the body as read, unchanged. |
| AuthApi.CallExport | src/api/auth.js:4-49 | Calling an exported name yields that call's outcome. Calling any other name through the namespace rejects with a TypeError. |
| AuthApi.HashedCredentials | src/api/auth.js:5-8 | The body has the payload's keys plus password. The password is the digest. Every other field is unchanged. |
| AuthApi.AfterAuth | src/api/auth.js:9-14 | The token slot is written iff the answer has a truthy data.data.token, and no other slot changes. The answer is passed on unchanged. |
| AuthApi.Authenticate | src/api/auth.js:4-30 | Nothing is sent iff the payload is null or undefined. The sent request and the outcome are those of `request`. An accepted answer with a truthy `data.data.token` stores that token; any other outcome leaves storage untouched. Only the token slot may change. |
| AuthApi.CredentialsSentHashed | src/api/auth.js:18-22 | Login and register POST to their endpoint, with only the password replaced by its digest. |
| AuthApi.Register | src/api/auth.js:4-16 | Registration goes to base + "/auth/register". The token slot is written with `data.data.token` when that is truthy; otherwise, and on a rejection, storage is unchanged. AuthApi.AuthEndpoints states the POST with the digested password. |
| AuthApi.Login | src/api/auth.js:18-30 | Login goes to base + "/auth/login". The token slot is written with `data.data.token` when that is truthy; otherwise, and on a rejection, storage is unchanged. AuthApi.AuthEndpoints states that it POSTs the same body as registration. |
| AuthApi.AuthEndpoints | src/api/auth.js:4-30 | register and login each POST to their own endpoint, with the password digested. Given the same payload, they send the same body. |
| AuthApi.Me | src/api/auth.js:47-49 | A plain read of /auth/me. AuthApi.MeRoute states this. |
| AuthApi.MeRoute | src/api/auth.js:47-49 | The path reads back as the segments auth and me. It has no verb and no body. |
| AuthApi.TokenAuthorisesLaterRequests | src/api/auth.js:24-26 | After a successful login with a token, the next request's bearer credential is that token. |
| AuthApi.Logout | src/api/auth.js:32-35 | The token is cleared, no other slot changes, and the result is `{ ok: true }`. |
| AuthApi.ChangePassword | src/api/auth.js:37-44 | The body has exactly old_password and new_password, each the digest of the corresponding input. |
| AuthApi.EmailCodeCallsMissing | src/api/auth.js:4-49 | requestEmailCode and resetPassword are not exported, so calling them always rejects. |
| Api.QueryEmptyIff | src/api/users.js:4 | The serialised query string is empty exactly when there are no parameters. |
| Api.QuerySeparators | src/api/users.js:4 | n parameters give exactly n `=` and n-1 `&` separators, since encoded names and values contain neither. |
| Api.Encode | src/api/users.js:4 | A name or value is encoded using only unreserved characters, "+" and "%" escapes, so it never holds a "=" or "&". Api.QuerySeparators builds on this. |
| Api.QueryString | src/api/users.js:4 | The encoded pairs joined in order. What it promises is stated by Api.QueryEmptyIff (empty iff no pairs) and Api.QuerySeparators (n "=" and n-1 "&"). |
| Api.WithQuery | src/api/tasks.js:4-5 | The "?" and the query appear only when there are parameters. |
| Api.AliasValue | src/api/tasks.js:9-14 | A field is the snake_case spelling when truthy, else the camelCase one, else the default. |
| Api.Normalize | src/api/tasks.js:7-15 | A null item throws. Otherwise the result has the item's keys plus the normalised ones, each normalised key holds its alias value, and every other field passes through. |
| Api.NormalizeIdempotent | src/api/tasks.js:7-15 | Normalising a normalised record changes nothing. |
| Api.RawItems | src/api/tasks.js:7 | The items are data.data.items when truthy, and `[]` otherwise. |
| Api.ListEnvelope | src/api/tasks.js:5-16 | The list resolves iff the items are an array with every item normalisable. It keeps count and order, and every other top-level field of the answer passes through. |
| Api.MissingItemsListEmpty | src/api/tasks.js:7 | When data.data.items is missing, the list resolves with `[]`. |
| UsersApi.ParseJsonField | src/api/users.js:14-29 | A falsy value gives `[]`. An array is returned as is. Any other value gives its parse when parsing succeeds, else `[]`; the "[" branch and the fallback agree. There is no list check. |
| UsersApi.EncodedListReadsBack | src/api/users.js:14-29 | A list stored as JSON text reads the same as the list stored natively. |
| UsersApi.ParseJsonFieldStable | src/api/users.js:15-16 | Re-reading a field that already yields a list changes nothing. |
| UsersApi.Application | src/api/users.js:32-43 | The application is null iff the raw one is falsy. Otherwise it has exactly eight keys: snake-first realName and studentId, and directions read through parseJsonField. |
| UsersApi.UserTask | src/api/users.js:54-61 | The task is null iff falsy. Otherwise its keys are the raw task's plus id, createdAt and updatedAt. Those three take the snake_case (or uuid) spelling when truthy, else the camelCase one. Every other field of the task keeps its value. |
| UsersApi.UserComments | src/api/users.js:44-53 | Comments are `[]` unless the raw value is an array. In that case the length is kept and each item is aliased like a listed comment. |
| UsersApi.UserFields | src/api/users.js:63-72 | id is uuid-first. Each of passedDirections and passedDirectionsBy is parseJsonField of the first truthy alias, snake_case first. |
| UsersApi.NormalizeUser | src/api/users.js:31-73 | It succeeds iff the user is not nullish and no embedded comment is nullish. The result is the spread user overridden by the normalised fields. |
| UsersApi.UserPassesThrough | src/api/users.js:63-64 | Every raw field the normaliser does not write is kept with its value. |
| UsersApi.NormalizedUserShape | src/api/users.js:44-61 | comments is always a list, task is an object or null, and application is null or has the eight keys. |
| UsersApi.PassedDirectionsFormsAgree | src/api/users.js:68 | Passed directions sent as JSON text normalise exactly like the same list sent natively. |
| UsersApi.UnwrapUser | src/api/users.js:77 | The user is data.data.user, then data.user, then data, whichever is truthy first. |
| UsersApi.UserEnvelopesAgree | src/api/users.js:75-79 | The three answer shapes getUser accepts yield the same user. |
| UsersApi.ListUsers | src/api/users.js:3-5 | The path is "/users/" with "?query" only when there are parameters. |
| UsersApi.ListUsersResult | src/api/users.js:5-11 | The listing settles as Api.ListEnvelope with normalizeUser as the item mapper. UsersApi.ListedUsersNormalized states what each item becomes. |
| UsersApi.ListedUsersNormalized | src/api/users.js:5-11 | The listing keeps count and order. Each listed user has the uuid-first id and a comments list. |
| UsersApi.GetUser | src/api/users.js:75-76 | The request reads /users/<id>. UsersApi.UserRoutes states the path and UsersApi.UserVerbs the verb and body. |
| UsersApi.GetUserResult | src/api/users.js:75-79 | The answer is unwrapped and normalised. UsersApi.GotUserAgrees states that all three envelope shapes settle to the same user, and when that user is accepted. |
| UsersApi.GotUserAgrees | src/api/users.js:75-79 | The data.data.user, data.user and bare answers settle to the same normalised user. It is accepted iff no embedded comment is nullish. |
| UsersApi.UpdateProfile | src/api/users.js:82-87 | The request PATCHes /users/me with the payload. UsersApi.UserVerbs and UsersApi.MeRouteShared state this. |
| UsersApi.DeleteUser | src/api/users.js:103-105 | The request DELETEs /users/<id> with no body. UsersApi.UserRoutes and UsersApi.UserVerbs state this. |
| UsersApi.UserVerbs | src/api/users.js:75-105 | getUser has no verb or body. updateProfile PATCHes the payload. deleteUser DELETEs without a body. updateRole and updatePassedDirections POST. |
| UsersApi.UpdateRole | src/api/users.js:89-94 | The body is `{ role }`. |
| UsersApi.UpdatePassedDirections | src/api/users.js:96-101 | The body is `{ directions }`. |
| UsersApi.DeleteMe | src/api/users.js:107-112 | It sends DELETE /users/me, with a body iff the payload is truthy. |
| UsersApi.UserRoutes | src/api/users.js:75-105 | A server splitting the path on "/" reads back the resource, the user id and the action. |
| UsersApi.MeRouteShared | src/api/users.js:75-112 | getUser("me") hits the same path that updateProfile and deleteMe use. |
| TasksApi.NormalizeTask | src/api/tasks.js:7-15 | Throws exactly on a null or undefined task. Every aliased key is present, and every other field passes through unchanged. |
| TasksApi.TaskFields | src/api/tasks.js:9-14 | id is uuid-first. targetUserId, targetUserName, assignedBy, createdAt and updatedAt are snake-first. |
| TasksApi.NormalizeTaskIdempotent | src/api/tasks.js:7-15 | Normalising a normalised task changes nothing. |
| TasksApi.ListTasks | src/api/tasks.js:3-5 | The path is "/tasks", with "?query" only for a non-empty query. |
| TasksApi.ListTasksKeepsOrder | src/api/tasks.js:7-15 | A listing keeps the item count and order, and each task's id and target are aliased. |
| TasksApi.NullTaskRejectsList | src/api/tasks.js:7-9 | One null task rejects the whole listing. |
| TasksApi.TaskRoutes | src/api/tasks.js:19-42 | Each call reads back as resource, id and action, with the right verb. Create and update send the same payload; delete sends none. |
| TasksApi.ListTasksResult | src/api/tasks.js:5-16 | The listing settles as Api.ListEnvelope with the task normaliser. TasksApi.ListTasksKeepsOrder and TasksApi.NullTaskRejectsList state what that means. |
| TasksApi.CreateTask | src/api/tasks.js:19-24 | POST /tasks with the payload. TasksApi.TaskRoutes states this. |
| TasksApi.UpdateTask | src/api/tasks.js:26-31 | PATCH /tasks/<id> with the payload. TasksApi.TaskRoutes states this. |
| TasksApi.SubmitTaskReport | src/api/tasks.js:33-38 | POST /tasks/<id>/report with the payload. TasksApi.TaskRoutes states this. |
| TasksApi.DeleteTask | src/api/tasks.js:40-42 | DELETE /tasks/<id> with no body. TasksApi.TaskRoutes states this. |
| AnnouncementsApi.NormalizeAnnouncement | src/api/announcements.js:6-14 | Throws exactly on a null or undefined announcement. Every aliased key is present, and every other field passes through unchanged. |
| AnnouncementsApi.AnnouncementFields | src/api/announcements.js:8-13 | id is uuid-first; authorNickname, createdAt and updatedAt are snake-first. visibility defaults to "public". allowedStatuses is allowed_statuses, else allowedStatuses, else `[]`. |
| AnnouncementsApi.DefaultsFilled | src/api/announcements.js:12-13 | After normalisation, visibility and allowedStatuses are always truthy. |
| AnnouncementsApi.NormalizeAnnouncementIdempotent | src/api/announcements.js:6-14 | Normalising a normalised announcement changes nothing. |
| AnnouncementsApi.ListedAnnouncementsHaveVisibility | src/api/announcements.js:6-14 | The listing keeps count and order, and every item has a visibility. |
| AnnouncementsApi.PinAnnouncement | src/api/announcements.js:32-36 | The body contains only the pinned flag. |
| AnnouncementsApi.AnnouncementRoutes | src/api/announcements.js:3-41 | Each call reads back as the collection, the id or the id's pin action. |
| AnnouncementsApi.AnnouncementVerbs | src/api/announcements.js:18-41 | Listing uses the default verb, create and pin POST, update PATCHes and delete DELETEs. Create and update send the payload as is. |
| AnnouncementsApi.ListAnnouncements | src/api/announcements.js:3-4 | A plain read of /announcements. AnnouncementsApi.AnnouncementRoutes and AnnouncementsApi.AnnouncementVerbs state this. |
| AnnouncementsApi.ListAnnouncementsResult | src/api/announcements.js:4-15 | The listing settles as Api.ListEnvelope with the announcement normaliser. AnnouncementsApi.ListedAnnouncementsHaveVisibility states what that means. |
| AnnouncementsApi.CreateAnnouncement | src/api/announcements.js:18-23 | POST /announcements with the payload. AnnouncementsApi.AnnouncementRoutes and AnnouncementsApi.AnnouncementVerbs state this. |
| AnnouncementsApi.UpdateAnnouncement | src/api/announcements.js:25-30 | PATCH /announcements/<id> with the payload. AnnouncementsApi.AnnouncementRoutes and AnnouncementsApi.AnnouncementVerbs state this. |
| AnnouncementsApi.DeleteAnnouncement | src/api/announcements.js:39-41 | DELETE /announcements/<id> with no body. AnnouncementsApi.AnnouncementRoutes and AnnouncementsApi.AnnouncementVerbs state this. |
| CommentsApi.NormalizeComment | src/api/comments.js:6-13 | Throws exactly on a null or undefined comment. Every aliased key is present, and every other field passes through unchanged. |
| CommentsApi.CommentFields | src/api/comments.js:8-12 | id is uuid-first. intervieweeId, interviewerId, interviewerName and createdAt are snake-first. |
| CommentsApi.UpdatedAtPassesThrough | src/api/comments.js:12 | updatedAt is not aliased: updated_at stays under its own name. |
| CommentsApi.NormalizeCommentIdempotent | src/api/comments.js:6-13 | Normalising a normalised comment changes nothing. |
| CommentsApi.ListComments | src/api/comments.js:3-4 | The path is "/comments/" + the interviewee id, with no body. |
| CommentsApi.ListCommentsResult | src/api/comments.js:4-14 | The listing settles as Api.ListEnvelope with the comment normaliser. CommentsApi.ListCommentsKeepsOrder states what that means. |
| CommentsApi.CreateComment | src/api/comments.js:17-22 | The request POSTs to /comments, and the body is the payload as given. |
| CommentsApi.ListCommentsKeepsOrder | src/api/comments.js:6-14 | The listing keeps count and order, and ids are aliased. |
| AuthContext.Initial | src/context/AuthContext.jsx:9-10 | The session starts with user null and loading true. |
| AuthContext.CachedUser | src/context/AuthContext.jsx:15-16 | The cached user is the parsed stored text, or null when the slot is absent or empty. |
| AuthContext.ServerUser | src/context/AuthContext.jsx:17 | The server user is data.data.user when truthy, else null. |
| AuthContext.Merge | src/context/AuthContext.jsx:18-21 | For the same email, the user is cached + server: the server wins and cached-only keys stay. Otherwise it is exactly the server user. |
| AuthContext.Refresh | src/context/AuthContext.jsx:12-32 | Loading is always false afterwards. On failure the user is null and the token is cleared. On success the user is the merge, persisted only when truthy. |
| AuthContext.FailedRefreshKeepsCache | src/context/AuthContext.jsx:26-29 | A failed refresh clears the token but leaves the cached-user slot. |
| AuthContext.NoServerUserKeepsStorage | src/context/AuthContext.jsx:17-25 | With no server user, the user becomes null and storage is untouched. |
| AuthContext.RefreshIdempotent | src/context/AuthContext.jsx:12-25 | Refreshing twice with the same answer equals refreshing once. |
| AuthContext.Login | src/context/AuthContext.jsx:38-46 | The user is replaced wholesale by data.data.userInfo, or null, and persisted only if truthy. A rejection leaves the session as it was. |
| AuthContext.Logout | src/context/AuthContext.jsx:48-52 | The user is null, the token and cached-user slots are removed, and other slots are kept. |
| AuthContext.UseAuth | src/context/AuthContext.jsx:68-74 | It returns the provider's session, or throws outside a provider. |
| AuthContext.PersistenceInvariant | src/context/AuthContext.jsx:12-52 | Every transition keeps a signed-in user stored in the cached-user slot. |
| ProtectedRoute.Guard | src/components/ProtectedRoute.jsx:5-21 | While loading it shows the placeholder. With no user it goes to /login. A role outside allowRoles goes to /. Children render iff loaded, a user is present, and allowRoles is absent or contains the role. |
| ProtectedRoute.GuardMonotone | src/components/ProtectedRoute.jsx:16-20 | Admission survives a longer role list and dropping the list. |
| ProtectedRoute.EmptyRolesAdmitNobody | src/components/ProtectedRoute.jsx:16-18 | An empty allowRoles array admits nobody. |
| AppRoutes.CandidateId | src/App.jsx:72 | `:id` is exactly one non-empty segment after /interviewer/candidates/. |
| AppRoutes.Render | src/App.jsx:23-76 | An unguarded route shows its element. A guarded one shows what the guard decides. |
| AppRoutes.Match | src/App.jsx:23-76 | The route table itself. AppRoutes.RoutesMatchAccess, AppRoutes.RenderedOnlyIfAllowed and AppRoutes.AllowedRendersAtPath check it against the separate access table. |
| AppRoutes.RoutesMatchAccess | src/App.jsx:24-74 | Every route that shows a page wraps it in exactly the guard the access table gives that page. |
| AppRoutes.RenderedOnlyIfAllowed | src/App.jsx:24-74 | No path shows a page to a user the access table does not allow, and only open pages show while loading. |
| AppRoutes.AllowedRendersAtPath | src/App.jsx:24-74 | Once loaded, every page renders at its own path for every allowed user. |
| AppRoutes.CandidateRoute | src/App.jsx:72 | /interviewer/candidates/:id matches only the detail route, behind the interviewer guard. |
| AppRoutes.OpenRoutes | src/App.jsx:24-28 | /, /announcements, /login, /register and /forgot-password are unguarded, even while loading. |
| AppRoutes.InterviewerIndex | src/App.jsx:69-70 | The /interviewer index redirects to announcements, behind the subtree guard. |
| AppRoutes.UnmatchedRedirectsHome | src/App.jsx:75 | Any unmatched path redirects to /. |
| Layout.NavLinks | src/components/Layout.jsx:25-31 | Profile and directory links show iff there is a user. Application and tasks show iff the role is interviewee; the interviewer link iff the role is interviewer. |
| Layout.NavLinksKnown | src/components/Layout.jsx:25-31 | Every navigation link the frame shows is one of the seven known locations. |
| Layout.AccountLinks | src/components/Layout.jsx:41-51 | Login and register links show iff there is no user. |
| Layout.ShowsLogout | src/components/Layout.jsx:41-45 | The logout button shows for a signed-in user. Layout.AccountAreaExclusive relates it to the account links. |
| Layout.AccountAreaExclusive | src/components/Layout.jsx:41-51 | The header shows either the logout button or the login and register links: never both, and never neither. |
| Layout.RoleLabel | src/components/Layout.jsx:43 | The label is "面试官" iff the role is interviewer, and "面试者" otherwise. |
| Layout.InitialTheme | src/components/Layout.jsx:9 | The theme is the stored one, or "system". |
| Layout.ApplyTheme | src/components/Layout.jsx:11-19 | "system" removes data-theme and any other theme sets it. The theme is written back, and no other slot changes. |
| Layout.ThemeSurvivesReload | src/components/Layout.jsx:9-19 | A chosen theme is the next visit's initial theme. |
| Layout.FirstVisitFollowsSystem | src/components/Layout.jsx:9-17 | A first visit sets no data-theme attribute. |
| Access.NavLinkShownIffReachable | src/components/Layout.jsx:25-31 | A navigation link is shown exactly when following it lands on its page under the route table. |
| Access.RoleGuardedLink | src/App.jsx:45-60 | A page behind a one-role guard is reached exactly by a user with that role. |
| Access.LoadingShowsPlaceholder | src/components/ProtectedRoute.jsx:8-10 | In the initial session, every guarded path shows the placeholder. |
| Access.LogoutLocksPages | src/context/AuthContext.jsx:48-52 | After logout only open pages render, and guarded paths redirect to /login. |
| Access.IntervieweeLoginStaysOut | src/App.jsx:61-74 | An interviewee who logs in never reaches an interviewer page, and /interviewer sends them home. |
| Lists.Filter | src/pages/CandidateDetail.jsx:67 | The kept elements satisfy the predicate, come from the list, and include every element of the list that satisfies it. |
| Lists.FilterAppend | src/pages/CandidateDetail.jsx:67 | Filtering distributes over concatenation, so order is kept. |
| Lists.Remove | src/pages/CandidateDetail.jsx:245 | Every copy of x is gone and every other element's count is unchanged. |
| Lists.RemoveAppend | src/pages/CandidateDetail.jsx:245 | Removal distributes over concatenation, so order is kept. |
| Lists.Toggle | src/pages/CandidateDetail.jsx:244-246 | Membership of x flips, other counts are unchanged, and an absent x is appended. |
| Lists.ToggleTwiceRestores | src/pages/CandidateDetail.jsx:244-246 | Checking then unchecking restores the list. |
| Lists.ToggleTwiceMovesToEnd | src/pages/CandidateDetail.jsx:244-246 | Unchecking then checking moves x to the end, as one copy. |
| Lists.MapAll | src/api/tasks.js:7 | The map resolves iff every callback does, one result per element in order. Otherwise it rejects with the first failure. |
| Js.Or | src/api/client.js:5 | `a \|\| b` is a when truthy, else b. |
| Js.OrAssociative | src/api/users.js:77 | Both groupings of a three-way `\|\|` agree. |
| Js.MessageOr | src/pages/CandidateDetail.jsx:70 | The message is the error's message when non-empty, else the fallback. |
| Js.Chain | src/api/client.js:40 | `v?.k` is undefined on null or undefined, else the property. |
| Js.Truthy | src/api/tasks.js:9-14 | ToBoolean as `\|\|` uses it. Js.FalsyValues states which values are falsy. |
| Js.FalsyValues | src/api/tasks.js:9-14 | Exactly undefined, null, false, 0 and "" are falsy. Every array and object is truthy, even an empty one. |
| Js.Own | src/api/tasks.js:8 | The keys `{ ...v }` spreads: an object's own fields, and nothing for a non-object, non-array, non-string value. |
| Js.Get | src/api/tasks.js:9 | `v.k` is the own property when present, and undefined otherwise. |
| Js.ToJsString | src/api/tasks.js:27 | A string interpolates as itself in a template literal. |
| Js.StrictEq | src/pages/CandidateDetail.jsx:142-143 | `===` on the values the pages compare. CandidateDetailPage.CommentOwnership states what it decides. |
| Js.Prop | src/api/users.js:32 | Reading a property of null or undefined throws; otherwise it yields the property. |
| Js.IncludesIff | src/api/client.js:36 | `includes` holds iff the substring occurs at some index. |
| Js.Trim | src/pages/CandidateDetail.jsx:128 | The trimmed string is an infix with only white space cut from both ends, and it neither starts nor ends with white space. |
| Js.TrimEmptyIff | src/pages/CandidateDetail.jsx:128-129 | A string trims to "" iff it is all white space. |
| Js.TrimIdempotent | src/pages/CandidateDetail.jsx:152 | Trimming twice equals trimming once. |
| CrudForm.ModeOf | src/pages/ManageAnnouncements.jsx:51-55 | Submit updates iff editingId is truthy, and creates otherwise. |
| CrudForm.Submit | src/pages/ManageAnnouncements.jsx:47-62 | Success resets the form and clears editingId. Failure keeps both, with the message or the fallback of the current mode. |
| CrudForm.SuccessEndsEditing | src/pages/ManageAnnouncements.jsx:56-57 | After a successful submit, the next submit creates. |
| CrudForm.FailureKeepsMode | src/pages/ManageAnnouncements.jsx:59-60 | After a failed submit, a retry makes the same kind of call. |
| CrudForm.ActionStatus | src/pages/ManageAnnouncements.jsx:75-83 | A one-shot action leaves "" on success, else the message or the fallback. |
| CrudForm.ListLoad | src/pages/ManageAnnouncements.jsx:37-41 | A load replaces the items with data.items or `[]`. A failure keeps the items and sets the failure line. |
| ManageAnnouncementsPage.Keys | src/pages/ManageAnnouncements.jsx:29 | The selectable statuses are the label table's keys, in order. |
| ManageAnnouncementsPage.VisibilityLabel | src/pages/ManageAnnouncements.jsx:30-35 | interviewer, all and status map to their captions, and anything else to "所有人可见" (each case iff). |
| ManageAnnouncementsPage.DefaultVisibilityCaption | src/pages/ManageAnnouncements.jsx:30-35 | A listed announcement without a visibility is captioned public. |
| ManageAnnouncementsPage.Payload | src/pages/ManageAnnouncements.jsx:52-54 | The request body is the form, with its four keys. |
| ManageAnnouncementsPage.SubmitCall | src/pages/ManageAnnouncements.jsx:51-55 | The submit updates the edited id iff one is set, and creates otherwise. |
| ManageAnnouncementsPage.Submitted | src/pages/ManageAnnouncements.jsx:47-62 | Success gives the blank editor. Failure keeps the form and id, and shows the server's message, or the mode's fallback when that message is empty. |
| ManageAnnouncementsPage.OnEdit | src/pages/ManageAnnouncements.jsx:64-73 | Title and content default to "", visibility to "public" and statuses to `[]`. editingId becomes the item id. |
| ManageAnnouncementsPage.ChangeVisibility | src/pages/ManageAnnouncements.jsx:130-135 | Any value but "status" empties the statuses; "status" keeps them. Title and content are unchanged. |
| ManageAnnouncementsPage.ToggleStatus | src/pages/ManageAnnouncements.jsx:153-160 | One status's membership flips, and the other fields are unchanged. |
| ManageAnnouncementsPage.ConsistentPreserved | src/pages/ManageAnnouncements.jsx:130-160 | Statuses are kept only under "status" visibility, and only known ones, by every edit. |
| ManageAnnouncementsPage.EditRoundTrip | src/pages/ManageAnnouncements.jsx:64-70 | A stored consistent form, listed and edited again, gives back the same form. |
| ManageAnnouncementsPage.OnPin | src/pages/ManageAnnouncements.jsx:75-83 | The pin request sends the negation of the item's pinned flag. |
| ManageAnnouncementsPage.PinTwiceRestores | src/pages/ManageAnnouncements.jsx:75-83 | Pinning an item twice sends the flag back to its original truth value. |
| ManageAnnouncementsPage.OnDelete | src/pages/ManageAnnouncements.jsx:85-93 | It deletes the item's id; the status is "" or the message or fallback. |
| ManageTasksPage.SearchCall | src/pages/ManageTasks.jsx:26 | The user search always filters by role "interviewee" and the query. |
| ManageTasksPage.SearchSettled | src/pages/ManageTasks.jsx:26-28 | Results replace the options, and a failure sets the search failure line. The form is unchanged. |
| ManageTasksPage.Search | src/pages/ManageTasks.jsx:87 | Typing changes only the query. |
| ManageTasksPage.Pick | src/pages/ManageTasks.jsx:98-102 | Only targetUserId becomes the user id, and the query and options are cleared. |
| ManageTasksPage.PickHidesOptions | src/pages/ManageTasks.jsx:91-102 | After a pick the option list is hidden, and stays hidden until the user types again. |
| ManageTasksPage.Payload | src/pages/ManageTasks.jsx:38-40 | The request body is the form, with its three keys. |
| ManageTasksPage.SubmitCall | src/pages/ManageTasks.jsx:37-41 | The submit updates iff editingId is truthy, and creates otherwise. |
| ManageTasksPage.Submitted | src/pages/ManageTasks.jsx:33-47 | Success resets the form and clears editingId. Failure keeps both, and shows the server's message, or the mode's fallback when that message is empty. The search state is untouched. |
| ManageTasksPage.OnEdit | src/pages/ManageTasks.jsx:50-58 | It copies title, description and targetUserId with "" defaults, and sets editingId. |
| ManageTasksPage.EditRoundTrip | src/pages/ManageTasks.jsx:50-56 | A saved filled form, listed and edited again, gives back the same form. |
| ManageTasksPage.OnDelete | src/pages/ManageTasks.jsx:60-68 | It deletes the task's id; the status is "" or the message or fallback. |
| ApplicationFormPage.Load | src/pages/ApplicationForm.jsx:20-28 | A truthy application replaces the form with its copy. Anything else, including a failure, leaves the form. |
| ApplicationFormPage.Edit | src/pages/ApplicationForm.jsx:82-90 | Typing sets one text field and leaves the others. |
| ApplicationFormPage.ToggleDirection | src/pages/ApplicationForm.jsx:30-37 | One direction's membership flips, and every other field is unchanged. |
| ApplicationFormPage.DirectionsStayValid | src/pages/ApplicationForm.jsx:30-37 | From the empty form, editing and toggling keep only known directions. |
| ApplicationFormPage.Submit | src/pages/ApplicationForm.jsx:39-48 | The form is sent as is and not modified. The status is the success line or the message or fallback. |
| ApplicationFormPage.Delete | src/pages/ApplicationForm.jsx:50-71 | It deletes iff confirmed. Success resets to the empty form; failure keeps the form. |
| ApplicationFormPage.DeleteRestoresFresh | src/pages/ApplicationForm.jsx:57-66 | After deletion the form equals a first visit's form. |
| ApplicationFormPage.FailuresKeepForm | src/pages/ApplicationForm.jsx:45-70 | Failed submits and deletes never lose what was typed. |
| MyTasksPage.Draft | src/pages/MyTasks.jsx:23 | The draft is report[taskId], or undefined. |
| MyTasksPage.EditDraft | src/pages/MyTasks.jsx:59-61 | Editing sets that task's draft and no other. |
| MyTasksPage.Shown | src/pages/MyTasks.jsx:58 | The box shows the draft, else the saved report, else "". |
| MyTasksPage.ClearedDraftShowsSaved | src/pages/MyTasks.jsx:58-61 | Clearing a box shows the saved report again. |
| MyTasksPage.EditIsLocal | src/pages/MyTasks.jsx:59-61 | Editing one task leaves every other task's box as it was. |
| MyTasksPage.SubmitAsWritten | src/pages/MyTasks.jsx:23 | As written: a POST to /tasks/<id>/report whose body is exactly `{ report }`, holding the draft when it is truthy and "" otherwise; the saved report is never consulted. |
| MyTasksPage.UntouchedSubmitErasesReport | src/pages/MyTasks.jsx:23 | A task showing a saved report, submitted untouched, sends "". |
| MyTasksPage.Submit | src/pages/MyTasks.jsx:58 | The report sent is the draft, else the saved report, else "". |
| MyTasksPage.SubmitSendsShown | src/pages/MyTasks.jsx:58 | The corrected submit sends what the box shows, and agrees with the original whenever a draft exists. |
| MyTasksPage.SubmitStatus | src/pages/MyTasks.jsx:24-28 | The status is the success line, or the message or fallback. |
| EmailCode.Payload | src/pages/Register.jsx:31 | The body has exactly the email and purpose fields. |
| EmailCode.Tick | src/pages/Register.jsx:21-25 | A tick decrements the cooldown only while it is > 0. |
| EmailCode.TicksCountDown | src/pages/Register.jsx:21-25 | After n ticks the cooldown is max(0, c - n), never below 0. |
| EmailCode.Started | src/pages/Register.jsx:28-29 | Sending is true and the progress line shows. |
| EmailCode.Finished | src/pages/Register.jsx:32-38 | Sending ends either way. Success sets the cooldown to 60; failure leaves it. |
| EmailCode.SendAsWritten | src/pages/Register.jsx:27-39 | As written the call throws before any request: sending ends, the cooldown is unchanged, and the "code sent" line never shows. |
| EmailCode.AsWrittenNeverSends | src/pages/Register.jsx:31 | As written, no code is ever sent, and the cooldown stays 0. |
| EmailCode.Send | src/pages/Register.jsx:27-39 | Sending ends either way. Success starts the 60-second cooldown with the "code sent" line; failure keeps the cooldown and shows the error's message, else the fallback. |
| EmailCode.SendLocksForCooldown | src/pages/Register.jsx:87 | After a sent code, the button is disabled for fewer than 60 ticks and enabled from 60 on. |
| EmailCode.ValidPreserved | src/pages/Register.jsx:19-38 | The cooldown never leaves 0..60. |
| RegisterPage.Edit | src/pages/Register.jsx:70-79 | Typing sets one form field and leaves the others. |
| RegisterPage.Payload | src/pages/Register.jsx:46 | The form is handed over with every field as typed. |
| RegisterPage.CodeRequest | src/pages/Register.jsx:31 | The body is exactly the form's email and the purpose "register". |
| RegisterPage.SendCodeAsWritten | src/pages/Register.jsx:27-39 | As written: the form is unchanged, sending ends, the cooldown does not start and no "code sent" line shows. |
| RegisterPage.SendCode | src/pages/Register.jsx:27-39 | The form is unchanged and sending ends. Success starts the 60-second cooldown with the "code sent" line; failure keeps the cooldown. |
| RegisterPage.SubmitStarted | src/pages/Register.jsx:43-44 | Submitting is set and the status clears. |
| RegisterPage.Submit | src/pages/Register.jsx:41-54 | Success refreshes the session and goes to /login. Failure keeps the session, with the message or "注册失败。". |
| RegisterPage.SubmitOutcomes | src/pages/Register.jsx:45-50 | A rejected registration leaves storage unchanged and navigates nowhere. |
| RegisterPage.SubmitLock | src/pages/Register.jsx:43-53 | Submitting is true during the request and false after either outcome. |
| ForgotPasswordPage.CodeRequest | src/pages/ForgotPassword.jsx:22 | The body is exactly the form's email and the purpose "reset". |
| ForgotPasswordPage.SendCodeAsWritten | src/pages/ForgotPassword.jsx:18-30 | As written: the form is unchanged, sending ends, the cooldown does not start and no "code sent" line shows. |
| ForgotPasswordPage.SendCode | src/pages/ForgotPassword.jsx:18-30 | The form is unchanged and sending ends. Success starts the 60-second cooldown with the "code sent" line; failure keeps the cooldown. |
| ForgotPasswordPage.ResetMessage | src/pages/ForgotPassword.jsx:36-41 | The status is the success line, or the message or "重置失败。". |
| ForgotPasswordPage.SubmitAsWritten | src/pages/ForgotPassword.jsx:32-44 | The reset goes through the missing resetPassword export. The form is kept and submitting ends. |
| ForgotPasswordPage.ResetNeverSucceeds | src/pages/ForgotPassword.jsx:37 | As written, no reset ever reports success. |
| ForgotPasswordPage.Submit | src/pages/ForgotPassword.jsx:32-44 | The reset with a working request. The form is kept and submitting ends. |
| ForgotPasswordPage.ResetReportsSuccess | src/pages/ForgotPassword.jsx:37-38 | A successful reset shows the success line and does not clear the form. |
| CandidateDetailPage.StatusesLabelled | src/pages/CandidateDetail.jsx:11-26 | There are exactly six statuses, each with a label. |
| CandidateDetailPage.StatusTablesAgree | src/pages/ManageAnnouncements.jsx:21-29 | The announcement page offers the same statuses and labels, in the same order. |
| CandidateDetailPage.StatusShown | src/pages/CandidateDetail.jsx:216 | A missing status is selected as "r1_pending". |
| CandidateDetailPage.StatusLabel | src/pages/CandidateDetail.jsx:211 | The label is the table entry of the shown status. |
| CandidateDetailPage.StatusLabelled | src/pages/CandidateDetail.jsx:211-216 | An unset status reads "一轮待定", and every listed status has its label. |
| CandidateDetailPage.DisplayDirections | src/pages/CandidateDetail.jsx:45-48 | Directions are application.directions, else user.directions, else `[]`, and `[]` without a user. |
| CandidateDetailPage.DisplayedDirectionsFromApplication | src/pages/CandidateDetail.jsx:45-48 | For a normalised user with an application, the page shows the application's parsed directions. |
| CandidateDetailPage.TogglePassed | src/pages/CandidateDetail.jsx:242-248 | The passed list toggles one direction, and nothing else changes. |
| CandidateDetailPage.TasksFor | src/pages/CandidateDetail.jsx:66-67 | A task is kept iff its targetUserId equals the route id. |
| CandidateDetailPage.TasksForAppend | src/pages/CandidateDetail.jsx:67 | Selection keeps the original order. |
| CandidateDetailPage.Load | src/pages/CandidateDetail.jsx:57-72 | The user, comments, tasks and passed inputs come from the three answers. Failure sets only the status line. |
| CandidateDetailPage.Joint | src/pages/CandidateDetail.jsx:59-63 | The joint load resolves iff all three requests do; otherwise it takes the first rejection. |
| CandidateDetailPage.LoadCalls | src/pages/CandidateDetail.jsx:59-63 | The load fetches the user, their comments and all tasks. |
| CandidateDetailPage.PassedSurvivesReload | src/pages/CandidateDetail.jsx:68 | Passed directions the server stores as text come back as the same list of passed inputs. |
| CandidateDetailPage.Promote | src/pages/CandidateDetail.jsx:78-89 | Nothing is sent unless confirmed; otherwise the role is set to interviewer. |
| CandidateDetailPage.RemoveUser | src/pages/CandidateDetail.jsx:91-102 | A confirmed successful delete navigates to the candidate list. |
| CandidateDetailPage.UpdatePassed | src/pages/CandidateDetail.jsx:114-125 | The checked directions are sent once confirmed. |
| CandidateDetailPage.UpdateStatus | src/pages/CandidateDetail.jsx:104-112 | The chosen status is sent for the route id. |
| CandidateDetailPage.CommentOwnership | src/pages/CandidateDetail.jsx:142-143 | A comment can be managed iff the current user is an interviewer whose id is the comment's interviewer id. |
| CandidateDetailPage.SubmitComment | src/pages/CandidateDetail.jsx:127-140 | Blank text is rejected with a message and no call. Otherwise the trimmed text is posted and the input clears on success. |
| CandidateDetailPage.CommentsPostedTrimmed | src/pages/CandidateDetail.jsx:128-134 | A comment is posted iff it is not all white space, and what is posted is trimmed. |
| CandidateDetailPage.EditComment | src/pages/CandidateDetail.jsx:145-148 | Editing sets the editing id and the content, defaulting to "". |
| CandidateDetailPage.SaveComment | src/pages/CandidateDetail.jsx:150-165 | Saving is a no-op without an editing id. A draft that trims to "" sends nothing and sets only the status to "评论内容不能为空。". Otherwise the trimmed text is sent under the editing id. Success clears the editing id and content. Failure shows the message, or "更新评论失败。". |
| CandidateDetailPage.EditThenSave | src/pages/CandidateDetail.jsx:145-160 | Editing a comment and saving it unchanged re-sends its trimmed text and ends editing. |
| CandidateDetailPage.CancelEdit | src/pages/CandidateDetail.jsx:340-348 | Cancelling leaves editing mode with an empty draft and changes nothing else. |
| CandidateDetailPage.EditThenCancel | src/pages/CandidateDetail.jsx:145-165 | On a page that was not editing, opening the editor and cancelling restores the page, and a later save sends nothing. |
| CandidateDetailPage.DeleteComment | src/pages/CandidateDetail.jsx:167-177 | The id is deleted iff confirmed. |

## Left out

- Network transport is not modelled. This covers `fetch`, promise scheduling, and the timing of the joint `Promise.all` load. Requests are values and responses are inputs.
- CandidateDetailPage.Joint: takes the first rejection in argument order, while `Promise.all` takes the first to settle.
- `localStorage` is an explicit map. `window.confirm` is a boolean input.
- `JSON.parse` and `JSON.stringify` of the cached user are the `Codec` parameter. The model assumes only the round trips that lemmas require.
- Request bodies are the `Json` value before `JSON.stringify` (`Api.Send`, `Client.FetchInit`). The encoding is not modelled, so neither is what it drops. For example, `JSON.stringify` omits keys whose value is `undefined`, so `updateRole(id, undefined)` sends `{}`, while the modelled body still holds a `role` key.
- `sha256Hex` from `src/utils/crypto.js` is the `hash` parameter. crypto.js is not part of this model.
- `src/api/applications.js` is not part of this model. That leaves out `submitApplication`, `getMyApplication`, `deleteMyApplication` and `updateApplicationStatus`. Their outcomes are parameters, and `CandidateDetailPage.UpdateStatus` records the arguments it passes.
- The comment `updateComment` and `deleteComment` functions are imported by name at CandidateDetail.jsx:7 but not defined in `src/api/comments.js`. An ES module's named import of a missing export fails when the module is linked, so the candidate page as written cannot load at all. This differs from the namespace import at Register.jsx:3, which fails only when called. The model assumes a `comments.js` that does export them: it records the arguments passed, and their outcomes are parameters. As with auth.js, comments.js may come from an older revision than the page.
- React rendering, JSX markup, hooks and effect timing are not modelled. After an action, the reload is modelled as a separate `Load` step rather than chained.
- The timer is not modelled in time: the 300 ms search debounce and the 1000 ms cooldown period are left out. Only the tick step is modelled. Because of the debounce, results of an older search can arrive after a newer keystroke, and the model does not order them.
- MarkdownRenderer, gravatar, `formatDate` and `toLocaleString` are left out. They rely on foreign libraries or on the locale and clock.
- The collapsible sections of the candidate page and the display-only pages are not modelled. Those pages are Login, Profile, Announcements, UserDirectory, CandidateList, InterviewerDashboard and main.jsx.
- Numbers are not modelled beyond their truthiness (including NaN), and floating point is not modelled.
- `AppRoutes.Match`: the router's matching is reduced to the routes written in the table, plus one ignored trailing slash. Case-insensitive matching and URL decoding are not modelled.
- ManageAnnouncementsPage.ToggleStatus: requires the status list to be an array or falsy. A string list is excluded, and it is reachable, because `src/api/announcements.js:13` passes `allowed_statuses` through unparsed. On a string, `includes` is a substring test, so the checkboxes render with substring ticks (ManageAnnouncements.jsx:152). Toggling a status that is a substring then throws at `.filter`, and toggling any other status spreads the string's characters and appends the status (`[...'["Web"]', "Dev"]`). Any other non-array value makes `includes` throw.
- CandidateDetailPage.TogglePassed: requires the passed list to be an array or falsy. A string list is excluded; `parseJsonField` turns the stored text `"\"Web\""` into the string "Web". On it the checkboxes tick by substring (CandidateDetail.jsx:240), and a toggle throws at `.filter` or spreads characters, as for ToggleStatus.
- ApplicationFormPage.ToggleDirection: requires `directions` to be an array. A loaded application without one makes `includes` throw. A string one is excluded: the checkboxes tick by substring (ApplicationForm.jsx:152), and a toggle throws at `.filter` or spreads characters, as for ToggleStatus.
- CandidateDetailPage.TasksFor: a null task in the listing reads as "no target" here. In the source it throws, but `TasksApi.NullTaskRejectsList` shows such a listing never reaches the page.
- MyTasksPage.Draft: property names inherited from `Object.prototype` are not modelled.
- Js.Own: a string's index keys count Unicode scalar values, while JavaScript indexes by UTF-16 code unit. `{ ..."😀" }` has two keys in JavaScript and one here.
- `StrictEq` compares values that come from different sources: primitives compare by value, and objects and arrays never compare equal, as two distinct references would not. Object identity within one value (`x === x` on one object) is not modelled.

## Findings

| source | as written | input that shows it | evidently intended | confidence | as-written member | corrected member |
|---|---|---|---|---|---|---|
| src/pages/Register.jsx:31 | Both pages call `authApi.requestEmailCode`, which `src/api/auth.js` does not export. The call throws a TypeError before any request, so no code is ever sent and the cooldown never starts. The same happens at ForgotPassword.jsx:22. | Any click on the send button with a non-empty email | A request that sends the code, after which the button locks for 60 seconds | low: not executed; auth.js may come from an older revision than the pages | EmailCode.SendAsWritten (EmailCode.AsWrittenNeverSends) | EmailCode.Send (EmailCode.SendLocksForCooldown) |
| src/pages/ForgotPassword.jsx:37 | `authApi.resetPassword` is not exported by `src/api/auth.js`, so every reset fails with a TypeError message. | Any submission of the reset form | A request that resets the password and shows "密码已更新，请登录。" | low: not executed; auth.js may come from an older revision than the pages | ForgotPasswordPage.SubmitAsWritten (ForgotPasswordPage.ResetNeverSucceeds) | ForgotPasswordPage.Submit (ForgotPasswordPage.ResetReportsSuccess) |
| src/pages/MyTasks.jsx:23 | The report sent is `report[taskId] \|\| ""`, but the box shows `report[task.id] \|\| task.report \|\| ""` (line 58). Submitting a task with a saved report that was never edited sends "" and overwrites the saved report. | Task `{ id: "t1", report: "done" }` with no draft: the box shows "done", and the request sends `{ report: "" }` | Send what the box shows | medium: not executed | MyTasksPage.SubmitAsWritten (MyTasksPage.UntouchedSubmitErasesReport) | MyTasksPage.Submit (MyTasksPage.SubmitSendsShown) |
