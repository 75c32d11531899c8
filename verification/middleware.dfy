/**
 * The edge gate of middleware.ts: resolve the role, then run the checks in
 * source order and answer with the kind of response sent.
 *
 * Request pathnames always begin with `'/'`, and every such pathname is
 * public (see `Routes.PublicIffSlash`), so of the four responses in the source only three
 * are reachable for real requests: pass, the redirect of a signed-in user
 * away from `'/'`, and the 403 for `/api/admin*` without the admin role.
 */
module Middleware {
  import opened Wrappers
  import opened Roles
  import opened Routes
  import opened Backend
  import RoleStore

  /** The response the middleware returns. */
  datatype EdgeResponse =
    | Pass                                   // `response`, the request continues
    | Redirect(location: string)             // `NextResponse.redirect(...)`
    | JsonError(status: int, error: string)  // `new NextResponse(JSON.stringify({ error }), { status })`

  const HomePath: string := "/"
  const DashboardPath: string := "/dashboard"
  const AdminApiPrefix: string := "/api/admin"
  const ForbiddenMessage: string := "Forbidden: Admin access required"

  /** The role lookup at lines 59-79: `null` without a user, otherwise never `null`. */
  function EdgeRole(user: Option<AuthUser>, lookup: Lookup): (role: UserRole)
    ensures user.None? <==> role.None?
    ensures user.Some? && FoundNamed(lookup) ==> role == Some(lookup.stored.role)
    ensures user.Some? && !FoundNamed(lookup) ==> role == Some(Viewer)
  {
    if user.None? then None
    else
      match lookup
      case Found(stored) => Some(StoredOrViewer(stored))
      case LookupFailed(_) => Some(Viewer)
      case LookupThrew => Some(Viewer)
  }

  /** For a signed-in user the gate resolves the same role as the client-side `getUserRole`, though it never inserts. */
  lemma EdgeRoleAgreesWithRoleStore(user: AuthUser, lookup: Lookup, current: Call<AuthReply>, insert: Insert)
    ensures EdgeRole(Some(user), lookup) == RoleStore.GetUserRole(lookup, current, insert).role
  {
  }

  /** The decision sequence at lines 81-123, for a user (or none), a resolved role and a pathname. */
  function Decide(user: Option<AuthUser>, role: UserRole, pathname: string): (r: EdgeResponse)
    ensures r.JsonError? ==> r.status == 403 && r.error == ForbiddenMessage
    ensures r.JsonError? ==> StartsWith(pathname, AdminApiPrefix) && !IsAdmin(role)
    ensures r.Redirect? ==> r.location == HomePath || r.location == DashboardPath
    ensures r == Redirect(HomePath) ==> user.None? && !StartsWith(pathname, "/")
    ensures !StartsWith(pathname, "/") ==> (r == Redirect(HomePath) <==> user.None?)
    ensures user.Some? && pathname == HomePath ==> r == Redirect(DashboardPath)
    ensures r == Pass && StartsWith(pathname, AdminApiPrefix) ==> IsAdmin(role)
  {
    if !IsPublic(pathname) && user.None? then Redirect(HomePath)
    else if !HasRouteAccess(pathname, role) then
      if user.None? then Redirect(HomePath) else Redirect(DashboardPath)
    else if user.Some? && pathname == HomePath then Redirect(DashboardPath)
    else if StartsWith(pathname, AdminApiPrefix) && role != Some(Admin) then
      JsonError(403, ForbiddenMessage)
    else Pass
  }

  /** `middleware(request)` with the backend calls replaced by their outcomes. */
  function HandleRequest(user: Option<AuthUser>, lookup: Lookup, pathname: string): (r: EdgeResponse)
    ensures r.JsonError? ==> StartsWith(pathname, AdminApiPrefix) && !IsAdmin(EdgeRole(user, lookup))
    ensures user.Some? && pathname == HomePath ==> r == Redirect(DashboardPath)
    ensures StartsWith(pathname, AdminApiPrefix) && !IsAdmin(EdgeRole(user, lookup)) ==>
              r == JsonError(403, ForbiddenMessage)
    ensures StartsWith(pathname, "/") ==>
              r == if user.Some? && pathname == HomePath then Redirect(DashboardPath)
                   else if StartsWith(pathname, AdminApiPrefix) && !IsAdmin(EdgeRole(user, lookup)) then JsonError(403, ForbiddenMessage)
                   else Pass
  {
    Decide(user, EdgeRole(user, lookup), pathname)
  }

  /**
   * For a `'/'`-leading pathname the gate reduces to two rules: a signed-in
   * user on `'/'` goes to the dashboard, and `/api/admin*` without the admin
   * role gets the 403; everything else passes.
   */
  lemma SlashPathDecision(user: Option<AuthUser>, role: UserRole, pathname: string)
    requires StartsWith(pathname, "/")
    ensures Decide(user, role, pathname) ==
              if user.Some? && pathname == HomePath then Redirect(DashboardPath)
              else if StartsWith(pathname, AdminApiPrefix) && !IsAdmin(role) then JsonError(403, ForbiddenMessage)
              else Pass
  {
  }

  /** The redirects at lines 89, 98 and 102 never fire for a `'/'`-leading pathname. */
  lemma SlashPathNeverDenied(user: Option<AuthUser>, role: UserRole, pathname: string)
    requires StartsWith(pathname, "/")
    ensures Decide(user, role, pathname) != Redirect(HomePath)
    ensures pathname != HomePath ==> Decide(user, role, pathname) != Redirect(DashboardPath)
  {
  }

  /** Any `/api/admin*` request without the admin role, anonymous ones included, gets the 403. */
  lemma AdminApiRequiresAdmin(user: Option<AuthUser>, role: UserRole, pathname: string)
    requires StartsWith(pathname, AdminApiPrefix)
    requires !IsAdmin(role)
    ensures Decide(user, role, pathname) == JsonError(403, ForbiddenMessage)
  {
  }

  /** An admin on `/api/admin*` passes. */
  lemma AdminPassesAdminApi(user: Option<AuthUser>, pathname: string)
    requires StartsWith(pathname, AdminApiPrefix)
    ensures Decide(user, Some(Admin), pathname) == Pass
  {
  }

  /** Anonymous or viewer, a request for `/dashboard/users` passes the edge gate. */
  lemma UsersPagePassesTheGate(user: Option<AuthUser>, lookup: Lookup)
    ensures HandleRequest(None, lookup, "/dashboard/users") == Pass
    ensures Decide(user, Some(Viewer), "/dashboard/users") == Pass
  {
    var path := "/dashboard/users";
    assert StartsWith(path, "/") && !StartsWith(path, AdminApiPrefix) by {
      assert path[..1] == "/";
      assert path[1] != AdminApiPrefix[1];
    }
    SlashPathDecision(None, EdgeRole(None, lookup), "/dashboard/users");
    SlashPathDecision(user, Some(Viewer), "/dashboard/users");
  }

  /** The `'/'` redirect and the `/api/admin` check never apply to the same pathname. */
  lemma RootAndAdminApiDisjoint(pathname: string)
    ensures !(pathname == HomePath && StartsWith(pathname, AdminApiPrefix))
  {
  }
}
