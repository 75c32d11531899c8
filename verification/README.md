# Role-based access control of a Next.js/Supabase CMS admin panel, in Dafny

This project models the access-control core of a content-management admin
panel: the role type and route tables of `utils/auth.ts`, the three places a
role is resolved (client `getUserRole`, server `getUser`, and the inline lookup
in the middleware), the edge gate in `middleware.ts`, and the in-handler
guards of the admin API, the users page, the client-side `ProtectedLayout`,
the user-management panel and the dashboard.

Every backend round trip (auth lookup, role query, self-healing insert,
listing, update) is an explicit outcome value passed in by the caller. Every
handler is a pure, total function from those outcomes to the response it
produces.

Modules, one per component:

- `Wrappers`: `Option` (a TypeScript `T | null`) and `Call` (an awaited call that returned or threw).
- `Roles`: `UserRole`, `isAdmin` and `isEditorOrAbove`.
- `Routes`: `PROTECTED_ROUTES`, `PUBLIC_ROUTES` and `hasRouteAccess`.
- `Backend`: the abstract Supabase outcomes, the `PGRST116` "no row" code, and a `users` table as a map.
- `RoleStore`: `getUserRole`, the client-side lookup with its self-healing insert.
- `AuthServer`: `getUser`, the server-side `(user, role)` pair.
- `Middleware`: the edge gate.
- `AdminUsersApi`: `GET` and `POST` of `/api/admin/users`.
- `UsersPage`: the admin user-list page.
- `ProtectedLayout`: `checkAuth`, the auth-event reaction and the render condition.
- `UserManagement`: the role-change transition, badge colours and the selector value.
- `Decimal`: integer-to-decimal rendering, used for the editor URL.
- `Dashboard`: `createNewArticle` and `AdminPage`.

What the code does, as the proofs show it:

- `'/'` is a public route and routes are matched with `startsWith`. So every
  pathname that begins with `'/'` is public, and `hasRouteAccess` is true for
  all of them, whatever the role.
- The edge gate can therefore deny only two kinds of request that reach it:
  - `/api/admin*` without the admin role gets a 403, anonymous requests included.
  - A signed-in user on `'/'` is redirected to `/dashboard`.
- Its "unauthenticated" and "insufficient role" redirects never fire for a
  real pathname.
- The two route tables overlap: every protected route is also matched by the public route `'/'`.
- The real admin gates are inside the handlers. `/dashboard/users` is gated
  by the page's own check plus `ProtectedLayout` with `requiredRole="admin"`.
  The admin API is gated by each handler's own check.
- A present user never ends up with a `null` role.
  - `getUserRole` never answers `null` at all.
  - `getUser` answers `(null, null)` after an exception, so an exception there
    makes the request anonymous instead of a viewer.

Two consequences worth stating outright, since a reader might expect otherwise:

- The route tables do not classify paths into disjoint classes: they overlap
  (`Routes.ProtectedRoutesArePublic`), and there is no admin-only route class.
- The edge gate does not single out `/dashboard/users`
  (`Middleware.UsersPagePassesTheGate`); only the page and `ProtectedLayout` guard it.

## Model

| member | source | states |
|---|---|---|
| `Roles.IsAdmin` | utils/auth.ts:98-100 | `isAdmin` holds only for a non-null role of the top rank, admin |
| `Roles.IsEditorOrAbove` | utils/auth.ts:103-105 | `isEditorOrAbove` holds iff the role is non-null and ranks at least editor |
| `Roles.IsAdminExactly` | utils/auth.ts:98-100 | `isAdmin` holds exactly for the role `admin`, never for `null` |
| `Roles.EditorOrAboveIsRankThreshold` | utils/auth.ts:103-105 | `isEditorOrAbove` is "non-null and at least editor" in the admin > editor > viewer hierarchy |
| `Roles.AdminImpliesEditorOrAbove` | utils/auth.ts:98-105 | every admin is editor-or-above; an editor is editor-or-above but not admin |
| `Routes.AnyMatch` | utils/auth.ts:84 | the `.some` scan is true iff some route in the table equals the pathname or is a prefix of it |
| `Routes.HasRouteAccess` | utils/auth.ts:82-95 | access is granted iff the pathname begins with `'/'` or the role is non-null; every public pathname is granted |
| `Routes.IsPublic` | middleware.ts:82-84 | the `isPublicRoute` test holds iff the pathname begins with `'/'` |
| `Routes.PublicIffSlash` | utils/auth.ts:13-17 | a pathname matches a public route iff it begins with `'/'` |
| `Routes.PublicOpenToEveryRole` | utils/auth.ts:84-86 | a public pathname is accessible to every role, `null` included |
| `Routes.SlashPathsAlwaysAccessible` | utils/auth.ts:82-95 | for `'/'`-leading pathnames `hasRouteAccess` is constantly true, the same for every role as for `null` |
| `Routes.NonPublicNeedsRole` | utils/auth.ts:88-94 | off the public table the answer is `role != null`, in the protected branch and the default alike |
| `Routes.ProtectedRoutesArePublic` | utils/auth.ts:5-17 | every entry of the protected table is matched by the public table, so the tables are not disjoint |
| `Backend.LookupIn` | utils/auth.ts:24-30 | a `.single()` role query finds the row iff the id is in the table, and then answers that row's stored role; otherwise it fails with `PGRST116` |
| `Backend.StoredOrViewer` | utils/auth.ts:71 | the fallback to `'viewer'`: a stored role name is kept; null and `''` become `viewer` |
| `RoleStore.GetUserRole` | utils/auth.ts:20-79 | never `null`; the stored role when found and named, otherwise `viewer`; at most one insert, issued iff the lookup failed with `PGRST116` and a user is signed in, and that insert is `{id, email or '', viewer}` |
| `RoleStore.InsertOutcomeIrrelevant` | utils/auth.ts:54-68 | success, failure or exception of the insert changes neither the role nor the inserts issued |
| `RoleStore.SecondResolutionFindsHealedRow` | utils/auth.ts:39-73 | for a user with no row, a first call inserts one viewer row; once it lands, a second call finds it, inserts nothing and answers viewer again |
| `AuthServer.GetUser` | utils/auth-server.ts:8-71 | user non-null iff role non-null; a failed sign-in, a lookup exception or an insert exception is anonymous; a signed-in user is returned on every path without an exception, with the stored role or `viewer`; one viewer insert iff signed in and the row is missing |
| `AuthServer.UserImpliesRole` | utils/auth-server.ts:54-67 | whenever a user is returned, its role is non-null |
| `AuthServer.AgreesWithRoleStore` | utils/auth-server.ts:28-67 | on every path without an exception, `getUser` resolves the same role and issues the same inserts as `getUserRole` |
| `AuthServer.ExceptionDiverges` | utils/auth-server.ts:68-71 | a lookup exception makes `getUser` answer a `null` role where `getUserRole` answers `viewer` |
| `Middleware.EdgeRole` | middleware.ts:59-79 | the role is `null` iff there is no user; with a user, the stored named role or else `viewer` (error, exception, null or empty role) |
| `Middleware.EdgeRoleAgreesWithRoleStore` | middleware.ts:61-78 | for a signed-in user the gate's role equals the one `getUserRole` resolves from the same lookup |
| `Middleware.Decide` | middleware.ts:82-123 | a 403 carries the admin-required message and only hits `/api/admin*` without admin; redirects go only to `/` or `/dashboard`, and to `/` exactly for anonymous non-`'/'` paths; a user on `/` goes to the dashboard; passing `/api/admin*` needs admin |
| `Middleware.HandleRequest` | middleware.ts:53-123 | the whole middleware, with the role it resolves itself: a 403 exactly on `/api/admin*` when that role is not admin (both directions); a signed-in user on `/` is sent to the dashboard; for `'/'`-leading pathnames the closed three-way rule (dashboard redirect, 403, pass) |
| `Middleware.SlashPathDecision` | middleware.ts:82-123 | for `'/'`-leading pathnames the gate is exactly: user on `/` gets the dashboard redirect, else `/api/admin*` without admin gets 403, else pass |
| `Middleware.SlashPathNeverDenied` | middleware.ts:86-103 | for `'/'`-leading pathnames the redirects at lines 89, 98 and 102 are unreachable |
| `Middleware.AdminApiRequiresAdmin` | middleware.ts:111-121 | every `/api/admin*` request without the admin role gets the 403 JSON error, anonymous ones included |
| `Middleware.AdminPassesAdminApi` | middleware.ts:111-123 | an admin on `/api/admin*` passes |
| `Middleware.UsersPagePassesTheGate` | middleware.ts:82-123 | anonymous and viewer requests for `/dashboard/users` both pass the edge gate |
| `Middleware.RootAndAdminApiDisjoint` | middleware.ts:106-111 | the `/` redirect and the `/api/admin` check never apply to the same pathname |
| `AdminUsersApi.Get` | app/api/admin/users/route.ts:6-53 | exception gives 500; no user gives 401; a non-admin user gives 403; a listing failure gives 500; 200 iff an admin's listing succeeded, with the body `{message: 'Admin access granted', userCount: number of users listed, requestedBy: the admin's email, timestamp}` |
| `AdminUsersApi.Post` | app/api/admin/users/route.ts:56-83 | never 401; 403 for a missing or non-admin user; 500 on exception or a malformed body; 200 iff admin and body parsed, echoing the body as `data` |
| `AdminUsersApi.HandlersAdmitSameSessions` | app/api/admin/users/route.ts:60-65 | `GET` and `POST` succeed for exactly the same sessions: a user whose role is admin |
| `AdminUsersApi.AnonymousGetVersusPost` | app/api/admin/users/route.ts:11-16 | for an anonymous session `GET` answers 401 while `POST` answers 403 |
| `AdminUsersApi.GetThroughGetUser` | app/api/admin/users/route.ts:11-16 | through `getUser`, a failed sign-in or a role-lookup exception gets 401 from `GET` |
| `UsersPage.Render` | app/dashboard/users/page.tsx:8-51 | redirect to `/dashboard` iff no user or not admin (no other redirect target); otherwise content wrapped with `requiredRole = admin`, the error view on a failed query, the rows (or `[]`) on success |
| `UsersPage.NullRowsBecomeEmpty` | app/dashboard/users/page.tsx:47 | a `null` result reaches the user table as the empty list |
| `UsersPage.ContentNeedsAdminTwice` | app/dashboard/users/page.tsx:12-36 | on the client guard's first check after mount, the list is shown only if the server gate saw an admin and the guard signed in an admin |
| `ProtectedLayout.CheckAuth` | components/ProtectedLayout.tsx:28-75 | navigation goes to `/` iff sign-in failed or threw, otherwise only to `/dashboard`; authorized implies signed in, required role met and role in the allowed list |
| `ProtectedLayout.CheckOrder` | components/ProtectedLayout.tsx:32-68 | the checks run user, required role, allowed roles, and the first failure decides; the `hasAccess` check never decides |
| `ProtectedLayout.PathIrrelevant` | components/ProtectedLayout.tsx:45-66 | the current pathname never changes the verdict |
| `ProtectedLayout.AdminRequiredAuthorizesOnlyAdmins` | components/ProtectedLayout.tsx:49-68 | with `requiredRole="admin"`, authorized implies a signed-in user whose resolved role is admin |
| `ProtectedLayout.EmptyAllowListRefusesAll` | components/ProtectedLayout.tsx:56-60 | an empty `allowedRoles` array authorizes nobody |
| `ProtectedLayout.Render` | components/ProtectedLayout.tsx:94-120 | children render iff not loading and authorized; the spinner iff loading |
| `ProtectedLayout.ScreenAfter` | components/ProtectedLayout.tsx:68-74 | after a check, loading is off and children render iff this check authorized or an earlier one already had |
| `ProtectedLayout.AuthorizedAfter` | components/ProtectedLayout.tsx:23-68 | the `authorized` flag after a series of checks is set iff some check in the series authorized |
| `ProtectedLayout.ScreenAfterSeries` | components/ProtectedLayout.tsx:68-74 | one more check after a series renders what the sticky flag over the longer series gives |
| `ProtectedLayout.FailedRecheckKeepsChildren` | components/ProtectedLayout.tsx:82-86 | a re-check after a sign-in event that navigates away leaves already shown children rendered |
| `ProtectedLayout.FirstCheckDecides` | components/ProtectedLayout.tsx:23-74 | on the first check after mount, children render iff that check authorizes |
| `ProtectedLayout.OnAuthEvent` | components/ProtectedLayout.tsx:82-86 | go home iff signed out or no session; re-check iff signed in with a session; an `OtherEvent` never carries `SIGNED_IN` or `SIGNED_OUT` |
| `ProtectedLayout.EventOf` | components/ProtectedLayout.tsx:82-84 | a raw event name is the signed-out event iff it is `'SIGNED_OUT'`, the signed-in event iff it is `'SIGNED_IN'`, and otherwise an other event carrying that name |
| `ProtectedLayout.ReactionByName` | components/ProtectedLayout.tsx:80-87 | by raw event name: `'SIGNED_OUT'` or a lost session goes to `/`, `'SIGNED_IN'` with a session re-checks, anything else is ignored |
| `UserManagement.WithRole` | components/UserManagement.tsx:44-48 | same length and order; rows with the id get the new role and timestamp, every other row is unchanged |
| `UserManagement.UpdateUserRole` | components/UserManagement.tsx:25-57 | a null role leaves the state unchanged; otherwise loading is cleared and a message set; on error the list is kept and the message is an error; after a successful update the message is a success and the list is exactly `WithRole` of the old list (new role and timestamp on the user's rows, every other row unchanged) |
| `UserManagement.RoleChangeKeepsIds` | components/UserManagement.tsx:44-48 | a role change never adds, drops, reorders or renames rows |
| `UserManagement.SuccessfulChangeApplies` | components/UserManagement.tsx:44-48 | after a successful change every row with the id carries the new role |
| `UserManagement.WithRoleIdempotent` | components/UserManagement.tsx:44-48 | applying the same change twice equals applying it once |
| `UserManagement.WithRoleUnknownId` | components/UserManagement.tsx:44-48 | a change for an id not in the list leaves the list as it was |
| `UserManagement.BadgeColor` | components/UserManagement.tsx:59-70 | `getRoleBadgeColor` gives the gray default exactly for `null` |
| `UserManagement.BadgeColorInjective` | components/UserManagement.tsx:59-70 | the four values (three roles and `null`) get four distinct badge classes, `null` the gray default |
| `UserManagement.SelectorValue` | components/UserManagement.tsx:141 | the selector shows the role, or `viewer` when it is `null` |
| `Decimal.NatRoundTrip` | app/dashboard/page.tsx:46 | the decimal rendering of a natural number reads back as that number |
| `Decimal.IntRoundTrip` | app/dashboard/page.tsx:46 | the rendering of an integer, with a sign for negatives, reads back as that integer |
| `Dashboard.LatestArticle` | app/dashboard/page.tsx:21-26 | the top-id query fails with `PGRST116` iff the table is empty, and otherwise returns an existing id no smaller than any other |
| `Dashboard.NextArticleId` | app/dashboard/page.tsx:28-34 | no id iff the query threw or failed with a code other than `PGRST116`; the fetched id plus one when a row came back; 1 for an empty table |
| `Dashboard.NextIdIsFresh` | app/dashboard/page.tsx:21-34 | for any table the new id is strictly greater than every existing id (so unused), and 1 when the table is empty |
| `Dashboard.CreateNewArticle` | app/dashboard/page.tsx:16-47 | a non-`PGRST116` fetch error aborts with no insert; otherwise the new id is inserted with the default title; redirect iff the insert succeeded, to `/dashboard/editor/{id}`; a thrown top-id query raises with no insert; it raises exactly when the fetch or the insert threw, while a failed insert returns quietly |
| `Dashboard.InsertAndRedirect` | app/dashboard/page.tsx:34-46 | the new row is inserted with the default title; redirect to the editor route of the new id iff the insert succeeded; an exception iff the insert threw |
| `Dashboard.RedirectNamesFreshId` | app/dashboard/page.tsx:34-46 | end to end, the editor URL's last segment reads back as an id above every existing one |
| `Dashboard.AdminPage` | app/dashboard/page.tsx:58-107 | redirect to `/` iff no user; no required role; a signed-in user whose query succeeds gets the article view (rows or `[]`) with the email, the users link iff `isAdmin(role)` and the displayed role role or `viewer`; a query error is shown |
| `Dashboard.UsersLinkOnlyForAdmins` | app/dashboard/page.tsx:101-107 | through `getUser`, the user-management link appears only for a signed-in user whose stored role is admin |
| `Dashboard.UsersLinkShownToAdmins` | app/dashboard/page.tsx:101-107 | through `getUser`, a signed-in user whose stored role is admin and whose article query succeeds does see the link |

## Left out

- Supabase client construction and the cookie get/set/remove plumbing (middleware.ts:12-51). These are library calls; the model takes their outcomes as parameters.
- The `config.matcher` pattern (middleware.ts:135). Next.js translates it with its own path-to-regexp, which is not part of this model. The model assumes every request reaches the middleware.
- Middleware: an exception thrown by `supabase.auth.getUser()` at line 54 is outside any `try` and is not modelled. The auth error it reports is ignored by the source, so the model takes only the user.
- `AuthServer.GetUser`: `createClient()` sits outside the `try` block, so an exception there reaches the caller. `AdminUsersApi` models it as a thrown `getUser()` (`Call.Threw`).
- `UsersPage.Render` and `Dashboard.AdminPage` take the result of `getUser()` as a plain session. An exception from `getUser()` or from their page query (app/dashboard/users/page.tsx:10-22, app/dashboard/page.tsx:60-70) is not modelled; it escapes to the framework's error page.
- `ProtectedLayout.ScreenAfter`: the flag `wasAuthorized` stands for whatever earlier checks left behind. The model does not track a navigation unmounting the component.
- The stored `role` column: the source casts the column text to `UserRole` unchecked. The model assumes the column holds only `admin`, `editor`, `viewer`, `null` or `''`. Any other text would flow through the source unchanged and is not representable here.
- Concurrent first-time inserts. Only the insert's outcome (ok, failed, threw) is modelled, not the race.
- React state and effect scheduling, and the `onAuthStateChange` subscription lifecycle. Only the decision at ProtectedLayout.tsx:82-86 is modelled.
- `UserManagement.UpdateUserRole`: models only the state after the handler's `finally` block. The transient `loading = userId`, `message = null` state is not modelled. The stale `users` closure that `setUsers(users.map(...))` reads is taken to be the current state.
- `formatDate` and every `new Date()` timestamp: locale-dependent formatting. Timestamps are opaque string parameters.
- `Dashboard.NextArticleId`: ids are unbounded integers. The source computes `id + 1` on a JavaScript number, which loses precision above 2^53, and a template literal prints numbers of 10^21 and above in exponent form (`1e+21`), where `Decimal.IntToString` prints plain digits. The source's `Article` type declares `id` a string, and `as number` converts nothing. The model assumes the `articles.id` column is numeric, as the numeric id the action inserts implies.
- `handleLogout` in app/dashboard/page.tsx, components/LogoutButton.tsx and components/Header.tsx: sign-out calls and UI.
- app/page.tsx: a placeholder login form.
- components/ImageStorageModal.tsx: storage upload and list UI, a clipboard fallback and a floating-point progress percentage.
- app/dashboard/editor/[id]/page.tsx: the editor page, which is not part of this model.
- Console logging, JSX markup, styling and the article list's title and status display.
