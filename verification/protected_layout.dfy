/**
 * The client guard of components/ProtectedLayout.tsx: the `checkAuth`
 * decision chain, the auth-event reaction and the render condition.
 */
module ProtectedLayout {
  import opened Wrappers
  import opened Roles
  import opened Routes
  import opened Backend
  import RoleStore

  /** Where `checkAuth` ends: authorized, or `router.push(to)` without authorizing. */
  datatype Verdict = Authorized | Navigate(to: string)

  /** What the component renders. */
  datatype View = Spinner | AccessDenied | Children

  /** The name of an auth event other than `SIGNED_IN` and `SIGNED_OUT`. */
  type OtherName = s: string | s != "SIGNED_IN" && s != "SIGNED_OUT" witness ""

  /** The auth events the subscription distinguishes. */
  datatype AuthEvent = SignedInEvent | SignedOutEvent | OtherEvent(name: OtherName)

  /** The event a raw event name stands for. */
  function EventOf(name: string): (e: AuthEvent)
    ensures e == SignedOutEvent <==> name == "SIGNED_OUT"
    ensures e == SignedInEvent <==> name == "SIGNED_IN"
    ensures e.OtherEvent? ==> e.name == name
  {
    if name == "SIGNED_OUT" then SignedOutEvent
    else if name == "SIGNED_IN" then SignedInEvent
    else OtherEvent(name)
  }

  /** The subscription's reaction to an auth event. */
  datatype Reaction = GoHome | Recheck | Ignore

  const HomePath: string := "/"
  const DashboardPath: string := "/dashboard"

  /** `requiredRole && role !== requiredRole` fails the check; an absent or `null` requirement is skipped. */
  predicate RequiredRoleHolds(requiredRole: UserRole, role: UserRole) {
    requiredRole.None? || role == requiredRole
  }

  /** `allowedRoles && !allowedRoles.includes(role)` fails; an absent list is skipped, an empty one refuses all. */
  predicate AllowedRolesHold(allowedRoles: Option<seq<UserRole>>, role: UserRole) {
    allowedRoles.None? || role in allowedRoles.value
  }

  /**
   * `checkAuth()`. `auth` is `supabase.auth.getUser()`; `lookup`, `current`
   * and `insert` are the inputs of the `getUserRole` call for that user;
   * `currentPath` is `window.location.pathname`.
   */
  function CheckAuth(auth: Call<AuthReply>, lookup: Lookup, current: Call<AuthReply>, insert: Insert,
                     currentPath: string, requiredRole: UserRole, allowedRoles: Option<seq<UserRole>>): (v: Verdict)
    ensures v.Navigate? ==> v.to == HomePath || v.to == DashboardPath
    ensures v == Navigate(HomePath) <==> !SignedIn(auth)
    ensures v == Authorized ==>
              var role := RoleStore.GetUserRole(lookup, current, insert).role;
              SignedIn(auth) && RequiredRoleHolds(requiredRole, role) && AllowedRolesHold(allowedRoles, role)
  {
    match auth
    case Threw => Navigate(HomePath)  // the catch block
    case Returned(reply) =>
      if reply.failed || reply.user.None? then Navigate(HomePath)
      else
        var role := RoleStore.GetUserRole(lookup, current, insert).role;
        var hasAccess := HasRouteAccess(currentPath, role);
        if !RequiredRoleHolds(requiredRole, role) then Navigate(DashboardPath)
        else if !AllowedRolesHold(allowedRoles, role) then Navigate(DashboardPath)
        else if !hasAccess then Navigate(DashboardPath)
        else Authorized
  }

  /**
   * The checks run in order (user, required role, allowed roles) and the first
   * failure decides; a signed-in user passing both role checks is authorized.
   * The `hasAccess` check never decides, because the resolved role is never `null`.
   */
  lemma CheckOrder(auth: Call<AuthReply>, lookup: Lookup, current: Call<AuthReply>, insert: Insert,
                   currentPath: string, requiredRole: UserRole, allowedRoles: Option<seq<UserRole>>)
    ensures var role := RoleStore.GetUserRole(lookup, current, insert).role;
            CheckAuth(auth, lookup, current, insert, currentPath, requiredRole, allowedRoles) ==
              if !SignedIn(auth) then Navigate(HomePath)
              else if !RequiredRoleHolds(requiredRole, role) then Navigate(DashboardPath)
              else if !AllowedRolesHold(allowedRoles, role) then Navigate(DashboardPath)
              else Authorized
  {
  }

  /** The current path never influences the verdict. */
  lemma PathIrrelevant(auth: Call<AuthReply>, lookup: Lookup, current: Call<AuthReply>, insert: Insert,
                       p: string, q: string, requiredRole: UserRole, allowedRoles: Option<seq<UserRole>>)
    ensures CheckAuth(auth, lookup, current, insert, p, requiredRole, allowedRoles)
         == CheckAuth(auth, lookup, current, insert, q, requiredRole, allowedRoles)
  {
  }

  /** With `requiredRole="admin"`, only a signed-in admin is authorized. */
  lemma AdminRequiredAuthorizesOnlyAdmins(auth: Call<AuthReply>, lookup: Lookup, current: Call<AuthReply>, insert: Insert,
                                          currentPath: string, allowedRoles: Option<seq<UserRole>>)
    ensures CheckAuth(auth, lookup, current, insert, currentPath, Some(Admin), allowedRoles) == Authorized ==>
              SignedIn(auth) && IsAdmin(RoleStore.GetUserRole(lookup, current, insert).role)
  {
  }

  /** An empty `allowedRoles` list refuses every signed-in user. */
  lemma EmptyAllowListRefusesAll(auth: Call<AuthReply>, lookup: Lookup, current: Call<AuthReply>, insert: Insert,
                                 currentPath: string, requiredRole: UserRole)
    ensures CheckAuth(auth, lookup, current, insert, currentPath, requiredRole, Some([])) != Authorized
  {
  }

  /** The component's render: spinner while loading, the denial card unless authorized, else the children. */
  function Render(loading: bool, authorized: bool): (v: View)
    ensures v == Children <==> !loading && authorized
    ensures v == Spinner <==> loading
  {
    if loading then Spinner
    else if !authorized then AccessDenied
    else Children
  }

  /**
   * The screen once a run of `checkAuth` has finished. Its `finally` always
   * clears loading, and `authorized` is only ever set to true, never back:
   * a run that navigates away leaves an earlier authorization in place.
   */
  function ScreenAfter(wasAuthorized: bool, v: Verdict): (view: View)
    ensures view == Children <==> wasAuthorized || v == Authorized
    ensures view != Spinner
  {
    Render(false, wasAuthorized || v == Authorized)
  }

  /** The `authorized` flag after a series of `checkAuth` runs since mount: sticky once set. */
  function AuthorizedAfter(verdicts: seq<Verdict>): (a: bool)
    ensures a <==> Authorized in verdicts
  {
    if |verdicts| == 0 then false
    else AuthorizedAfter(verdicts[..|verdicts| - 1]) || verdicts[|verdicts| - 1] == Authorized
  }

  /** Running one more check after a series: the screen is the one the sticky flag gives. */
  lemma ScreenAfterSeries(verdicts: seq<Verdict>, v: Verdict)
    ensures ScreenAfter(AuthorizedAfter(verdicts), v) == Render(false, AuthorizedAfter(verdicts + [v]))
  {
    assert (verdicts + [v])[..|verdicts|] == verdicts;
  }

  /** A re-check that navigates away does not hide the children once they were shown. */
  lemma FailedRecheckKeepsChildren(to: string)
    ensures ScreenAfter(true, Navigate(to)) == Children
  {
  }

  /** On the first check after mount, the children render exactly when that check authorizes. */
  lemma FirstCheckDecides(v: Verdict)
    ensures ScreenAfter(false, v) == Children <==> v == Authorized
  {
  }

  /** The `onAuthStateChange` callback: sign-out or a lost session goes home, sign-in re-checks. */
  function OnAuthEvent(event: AuthEvent, hasSession: bool): (r: Reaction)
    ensures r == GoHome <==> event == SignedOutEvent || !hasSession
    ensures r == Recheck <==> event == SignedInEvent && hasSession
  {
    if event == SignedOutEvent || !hasSession then GoHome
    else if event == SignedInEvent then Recheck
    else Ignore
  }

  /**
   * The reaction to a raw event name: `'SIGNED_OUT'` or a lost session goes
   * home, `'SIGNED_IN'` with a session re-checks, anything else is ignored.
   */
  lemma ReactionByName(name: string, hasSession: bool)
    ensures OnAuthEvent(EventOf(name), hasSession) ==
              if name == "SIGNED_OUT" || !hasSession then GoHome
              else if name == "SIGNED_IN" then Recheck
              else Ignore
  {
  }
}
