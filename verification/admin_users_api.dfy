/**
 * The `GET` and `POST` handlers of app/api/admin/users/route.ts, as the
 * status code and JSON body each one answers with.
 */
module AdminUsersApi {
  import opened Wrappers
  import opened Roles
  import opened Backend
  import opened AuthServer

  /** The JSON bodies the two handlers produce. */
  datatype Body =
    | ErrorBody(error: string)
    | Granted(message: string, userCount: nat, requestedBy: Option<string>, timestamp: string)
    | Completed(message: string, data: string, processedBy: Option<string>)

  /** `NextResponse.json(body, { status })`; the default status is 200. */
  datatype ApiResponse = ApiResponse(status: int, body: Body)

  /** `supabase.auth.admin.listUsers()`. */
  datatype ListUsers = Listed(users: seq<AuthUser>) | ListFailed | ListThrew

  const UnauthorizedMessage: string := "Unauthorized: Please login"
  const ForbiddenMessage: string := "Forbidden: Admin access required"
  const PostForbiddenMessage: string := "Unauthorized: Admin access required"
  const InternalErrorMessage: string := "Internal server error"
  const GrantedMessage: string := "Admin access granted"
  const CompletedMessage: string := "Admin POST operation completed"

  const InternalError: ApiResponse := ApiResponse(500, ErrorBody(InternalErrorMessage))

  /** The caller got past the handler's own admin check. */
  predicate AdminSession(session: Call<ServerSession>) {
    session.Returned? && session.value.user.Some? && IsAdmin(session.value.role)
  }

  /**
   * `GET`: `session` is the awaited `getUser()`, `list` the user listing,
   * `now` the timestamp string the handler stamps on success.
   */
  function Get(session: Call<ServerSession>, list: ListUsers, now: string): (r: ApiResponse)
    ensures session.Threw? ==> r == InternalError
    ensures session.Returned? && session.value.user.None? ==> r == ApiResponse(401, ErrorBody(UnauthorizedMessage))
    ensures session.Returned? && session.value.user.Some? && !IsAdmin(session.value.role) ==>
              r == ApiResponse(403, ErrorBody(ForbiddenMessage))
    ensures AdminSession(session) && !list.Listed? ==> r == InternalError
    ensures r.status == 200 <==> AdminSession(session) && list.Listed?
    ensures r.status == 200 ==> r.body == Granted(GrantedMessage, |list.users|, session.value.user.value.email, now)
  {
    match session
    case Threw => InternalError
    case Returned(s) =>
      if s.user.None? then ApiResponse(401, ErrorBody(UnauthorizedMessage))
      else if !IsAdmin(s.role) then ApiResponse(403, ErrorBody(ForbiddenMessage))
      else
        match list
        case ListThrew => InternalError
        case ListFailed => InternalError
        case Listed(users) => ApiResponse(200, Granted(GrantedMessage, |users|, s.user.value.email, now))
  }

  /** `POST`: `body` is the awaited `request.json()`, which throws on a malformed body. */
  function Post(session: Call<ServerSession>, body: Call<string>): (r: ApiResponse)
    ensures r.status != 401
    ensures session.Threw? ==> r == InternalError
    ensures session.Returned? && !AdminSession(session) ==> r == ApiResponse(403, ErrorBody(PostForbiddenMessage))
    ensures AdminSession(session) && body.Threw? ==> r == InternalError
    ensures r.status == 200 <==> AdminSession(session) && body.Returned?
    ensures r.status == 200 ==> r.body == Completed(CompletedMessage, body.value, session.value.user.value.email)
  {
    match session
    case Threw => InternalError
    case Returned(s) =>
      if s.user.None? || !IsAdmin(s.role) then ApiResponse(403, ErrorBody(PostForbiddenMessage))
      else
        match body
        case Threw => InternalError
        case Returned(data) => ApiResponse(200, Completed(CompletedMessage, data, s.user.value.email))
  }

  /** Both handlers admit exactly the same sessions: a user whose role is admin. */
  lemma HandlersAdmitSameSessions(session: Call<ServerSession>, users: seq<AuthUser>, data: string, now: string)
    ensures Get(session, Listed(users), now).status == 200 <==> Post(session, Returned(data)).status == 200
    ensures Get(session, Listed(users), now).status == 200 <==> AdminSession(session)
  {
  }

  /** Only `GET` tells an anonymous caller 401; `POST` answers 403 for the same session. */
  lemma AnonymousGetVersusPost(s: ServerSession, list: ListUsers, body: Call<string>, now: string)
    requires s.user.None?
    ensures Get(Returned(s), list, now).status == 401
    ensures Post(Returned(s), body).status == 403
  {
  }

  /**
   * End to end with `getUser`: a failed sign-in gets 401 from `GET`, and an
   * exception during the role lookup also gets 401, since `getUser` turns it
   * into an anonymous session.
   */
  lemma GetThroughGetUser(auth: Call<AuthReply>, lookup: Lookup, insert: Insert, list: ListUsers, now: string)
    requires !SignedIn(auth) || lookup.LookupThrew?
    ensures Get(Returned(GetUser(auth, lookup, insert)), list, now).status == 401
  {
  }
}
