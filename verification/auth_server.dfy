/**
 * `getUser` of utils/auth-server.ts: the server-side pair (user, role).
 * Unlike the client-side `getUserRole`, an exception anywhere in its `try`
 * block makes the request anonymous rather than a viewer.
 */
module AuthServer {
  import opened Wrappers
  import opened Roles
  import opened Backend
  import RoleStore

  /** `{ user, role }` plus the `users` inserts issued on the way. */
  datatype ServerSession = ServerSession(user: Option<AuthUser>, role: UserRole, insertsIssued: seq<UserRecord>)

  /** `{ user: null, role: null }`. */
  const Anonymous: ServerSession := ServerSession(None, None, [])

  /**
   * `getUser()`. `auth` is `supabase.auth.getUser()`, `lookup` the role query
   * for that user, `insert` the outcome of the self-healing insert.
   */
  function GetUser(auth: Call<AuthReply>, lookup: Lookup, insert: Insert): (s: ServerSession)
    ensures s.user.Some? <==> s.role.Some?
    ensures !SignedIn(auth) ==> s == Anonymous
    ensures lookup.LookupThrew? ==> s.user.None?
    ensures s.user.Some? ==> SignedIn(auth) && s.user == auth.value.user
    ensures SignedIn(auth) && !lookup.LookupThrew? && !(MissingRow(lookup) && insert == InsertThrew) ==>
              s.user == auth.value.user
    ensures SignedIn(auth) && MissingRow(lookup) && insert == InsertThrew ==> s.user.None? && s.role.None?
    ensures s.user.Some? && FoundNamed(lookup) ==> s.role == Some(lookup.stored.role)
    ensures s.user.Some? && !FoundNamed(lookup) ==> s.role == Some(Viewer)
    ensures |s.insertsIssued| <= 1
    ensures |s.insertsIssued| == 1 <==> SignedIn(auth) && MissingRow(lookup)
    ensures |s.insertsIssued| == 1 ==> s.insertsIssued[0] == NewViewerRecord(auth.value.user.value)
  {
    match auth
    case Threw => Anonymous
    case Returned(reply) =>
      if reply.failed || reply.user.None? then Anonymous
      else
        var user := reply.user.value;
        match lookup
        case LookupThrew => Anonymous
        case Found(stored) => ServerSession(Some(user), Some(StoredOrViewer(stored)), [])
        case LookupFailed(code) =>
          if code != NotFoundCode then ServerSession(Some(user), Some(Viewer), [])
          else if insert == InsertThrew then
            // The insert was sent; its exception lands in the catch block.
            ServerSession(None, None, [NewViewerRecord(user)])
          else
            ServerSession(Some(user), Some(Viewer), [NewViewerRecord(user)])
  }

  /** Whatever went wrong, a returned user always comes with a non-null role. */
  lemma UserImpliesRole(auth: Call<AuthReply>, lookup: Lookup, insert: Insert)
    ensures GetUser(auth, lookup, insert).user.Some? ==> GetUser(auth, lookup, insert).role.Some?
  {
  }

  /**
   * On every path without an exception, `getUser` resolves the same role and
   * issues the same inserts as the client-side `getUserRole`.
   */
  lemma AgreesWithRoleStore(auth: Call<AuthReply>, lookup: Lookup, insert: Insert)
    requires SignedIn(auth)
    requires !lookup.LookupThrew?
    requires MissingRow(lookup) ==> insert != InsertThrew
    ensures GetUser(auth, lookup, insert).role == RoleStore.GetUserRole(lookup, auth, insert).role
    ensures GetUser(auth, lookup, insert).insertsIssued == RoleStore.GetUserRole(lookup, auth, insert).insertsIssued
  {
  }

  /** Where the two disagree: an exception makes `getUser` anonymous but `getUserRole` a viewer. */
  lemma ExceptionDiverges(auth: Call<AuthReply>, current: Call<AuthReply>, insert: Insert)
    requires SignedIn(auth)
    ensures GetUser(auth, LookupThrew, insert).role == None
    ensures RoleStore.GetUserRole(LookupThrew, current, insert).role == Some(Viewer)
  {
  }
}
