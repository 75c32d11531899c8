/**
 * `UsersPage` of app/dashboard/users/page.tsx: the server-side admin gate in
 * front of the user list, and what it hands to `ProtectedLayout` and
 * `UserManagement`.
 */
module UsersPage {
  import opened Wrappers
  import opened Roles
  import opened Backend
  import opened AuthServer
  import UserManagement
  import ProtectedLayout
  import RoleStore

  /** `from('users').select(...).order('created_at', { ascending: false })`: rows (maybe `null`) or an error. */
  datatype UsersQuery = Rows(data: Option<seq<UserManagement.UserRow>>) | QueryFailed

  /** The body wrapped in `ProtectedLayout`. */
  datatype Content = LoadError | UserTable(initialUsers: seq<UserManagement.UserRow>)

  /** The page's outcome: a `redirect(...)`, or a `ProtectedLayout` with a required role around some content. */
  datatype Page = RedirectTo(location: string) | Layout(requiredRole: UserRole, content: Content)

  const DashboardPath: string := "/dashboard"

  /** `UsersPage()`: `session` is `getUser()`, `query` the user-list query. */
  function Render(session: ServerSession, query: UsersQuery): (p: Page)
    ensures p == RedirectTo(DashboardPath) <==> session.user.None? || !IsAdmin(session.role)
    ensures p.Layout? || p == RedirectTo(DashboardPath)
    ensures p.Layout? ==> p.requiredRole == Some(Admin) && session.user.Some? && IsAdmin(session.role)
    ensures p.Layout? && query.QueryFailed? ==> p.content == LoadError
    ensures p.Layout? && query.Rows? ==> p.content == UserTable(query.data.GetOr([]))
  {
    if session.user.None? || !IsAdmin(session.role) then RedirectTo(DashboardPath)
    else
      match query
      case QueryFailed => Layout(Some(Admin), LoadError)
      case Rows(data) => Layout(Some(Admin), UserTable(data.GetOr([])))
  }

  /** A `null` result reaches `UserManagement` as an empty list. */
  lemma NullRowsBecomeEmpty(session: ServerSession)
    requires session.user.Some? && IsAdmin(session.role)
    ensures Render(session, Rows(None)) == Layout(Some(Admin), UserTable([]))
  {
  }

  /**
   * Defense in depth: on the client guard's first check after mount
   * (`authorized` still false), the wrapped content is shown only if the
   * server gate saw an admin and the guard, run with the page's required
   * role, finds a signed-in admin. A later failed re-check keeps the content
   * shown (`ProtectedLayout.FailedRecheckKeepsChildren`).
   */
  lemma ContentNeedsAdminTwice(session: ServerSession, query: UsersQuery,
                               auth: Call<AuthReply>, lookup: Lookup, current: Call<AuthReply>,
                               insert: Insert, currentPath: string)
    requires Render(session, query).Layout?
    ensures var page := Render(session, query);
            var v := ProtectedLayout.CheckAuth(auth, lookup, current, insert, currentPath, page.requiredRole, None);
            ProtectedLayout.ScreenAfter(false, v) == ProtectedLayout.Children ==>
              IsAdmin(session.role) && SignedIn(auth) && IsAdmin(RoleStore.GetUserRole(lookup, current, insert).role)
  {
  }
}
