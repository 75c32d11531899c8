/**
 * `getUserRole` of utils/auth.ts: the client-side role lookup with its
 * self-healing insert. Every failure it can meet (lookup error, missing
 * row, failed insert, exception) ends in the least-privileged role
 * `viewer`; it never yields `null`.
 */
module RoleStore {
  import opened Wrappers
  import opened Roles
  import opened Backend

  /** The role handed back and the `users` inserts issued on the way. */
  datatype Resolution = Resolution(role: UserRole, insertsIssued: seq<UserRecord>)

  /**
   * `getUserRole(client, userId)`. `lookup` is the role query for `userId`;
   * `current` is the `auth.getUser()` call made only after a "no row" error;
   * `insert` is the outcome of the self-healing insert, if one is issued.
   */
  function GetUserRole(lookup: Lookup, current: Call<AuthReply>, insert: Insert): (r: Resolution)
    ensures r.role.Some?
    ensures FoundNamed(lookup) ==> r.role == Some(lookup.stored.role)
    ensures !FoundNamed(lookup) ==> r.role == Some(Viewer)
    ensures |r.insertsIssued| <= 1
    ensures |r.insertsIssued| == 1 <==>
              MissingRow(lookup) && current.Returned? && current.value.user.Some?
    ensures |r.insertsIssued| == 1 ==> r.insertsIssued[0] == NewViewerRecord(current.value.user.value)
  {
    match lookup
    case Found(stored) => Resolution(Some(StoredOrViewer(stored)), [])
    case LookupThrew => Resolution(Some(Viewer), [])
    case LookupFailed(code) =>
      if code != NotFoundCode then Resolution(Some(Viewer), [])
      else
        match current
        case Threw => Resolution(Some(Viewer), [])
        case Returned(reply) =>
          if reply.user.None? then Resolution(Some(Viewer), [])
          else
            // Whether the insert succeeds, fails or throws, the answer is 'viewer'.
            Resolution(Some(Viewer), [NewViewerRecord(reply.user.value)])
  }

  /** The insert's outcome never changes what `getUserRole` answers or issues. */
  lemma InsertOutcomeIrrelevant(lookup: Lookup, current: Call<AuthReply>, a: Insert, b: Insert)
    ensures GetUserRole(lookup, current, a) == GetUserRole(lookup, current, b)
  {
  }

  /**
   * Resolving twice for a user with no row: the first call issues exactly one
   * viewer insert; once it has landed, the second call finds that row, issues
   * nothing and answers `viewer` again.
   */
  lemma SecondResolutionFindsHealedRow(table: RoleTable, user: AuthUser, insert2: Insert)
    requires user.id !in table
    ensures var first := GetUserRole(LookupIn(table, user.id), Returned(AuthReply(Some(user), false)), InsertOk);
            var healed := ApplyInsert(table, NewViewerRecord(user), InsertOk);
            var second := GetUserRole(LookupIn(healed, user.id), Returned(AuthReply(Some(user), false)), insert2);
            && first.role == Some(Viewer)
            && first.insertsIssued == [NewViewerRecord(user)]
            && second.role == Some(Viewer)
            && second.insertsIssued == []
  {
  }
}
