/**
 * Abstract outcomes of the Supabase calls the access-control code makes.
 * Each backend round trip becomes a value the caller supplies, so the
 * decision functions stay pure and total.
 */
module Backend {
  import opened Wrappers
  import opened Roles

  /** PostgREST's error code for "`.single()` found no row". */
  const NotFoundCode: string := "PGRST116"

  /** An identity from the auth provider; its email may be missing. */
  datatype AuthUser = AuthUser(id: string, email: Option<string>)

  /** What `supabase.auth.getUser()` resolves to: the user, if any, and whether an error came with it. */
  datatype AuthReply = AuthReply(user: Option<AuthUser>, failed: bool)

  /** `if (error || !user)` does not fire: the auth call produced a user and no error. */
  predicate SignedIn(auth: Call<AuthReply>) {
    auth.Returned? && !auth.value.failed && auth.value.user.Some?
  }

  /** The stored `role` column: SQL null, the empty string, or one of the three role names. */
  datatype StoredRole = NullRole | EmptyRole | Named(role: Role)

  /** `from('users').select('role').eq('id', …).single()`. */
  datatype Lookup = Found(stored: StoredRole) | LookupFailed(code: string) | LookupThrew

  /** `from(…).insert(…)`: accepted, rejected with an error, or threw. */
  datatype Insert = InsertOk | InsertFailed | InsertThrew

  /** A row of the `users` table as written by the self-healing insert. */
  datatype UserRecord = UserRecord(id: string, email: string, role: Role)

  /** `user.email || ''`. */
  function EmailOrEmpty(email: Option<string>): string {
    email.GetOr("")
  }

  /** The row `{ id: user.id, email: user.email || '', role: 'viewer' }`. */
  function NewViewerRecord(user: AuthUser): UserRecord {
    UserRecord(user.id, EmailOrEmpty(user.email), Viewer)
  }

  /** `userData?.role as UserRole || 'viewer'`: null and `''` are falsy. */
  function StoredOrViewer(stored: StoredRole): (r: Role)
    ensures stored.Named? ==> r == stored.role
    ensures !stored.Named? ==> r == Viewer
  {
    match stored
    case Named(r) => r
    case _ => Viewer
  }

  /** The lookup succeeded and the row carries a role name. */
  predicate FoundNamed(lookup: Lookup) {
    lookup.Found? && lookup.stored.Named?
  }

  /** The lookup failed with PostgREST's "no row" code. */
  predicate MissingRow(lookup: Lookup) {
    lookup == LookupFailed(NotFoundCode)
  }

  /** The `users` table, keyed by user id. */
  type RoleTable = map<string, StoredRole>

  /** A role lookup against a table: the row's role, or the "no row" error. */
  function LookupIn(table: RoleTable, id: string): (l: Lookup)
    ensures id in table <==> l.Found?
    ensures id !in table <==> MissingRow(l)
    ensures l.Found? ==> l.stored == table[id]
  {
    if id in table then Found(table[id]) else LookupFailed(NotFoundCode)
  }

  /** The table after one insert of `record` with the given outcome: only an accepted insert writes. */
  function ApplyInsert(table: RoleTable, record: UserRecord, outcome: Insert): (t: RoleTable)
    ensures outcome != InsertOk ==> t == table
    ensures outcome == InsertOk ==> record.id in t && t[record.id] == Named(record.role)
    ensures outcome == InsertOk ==> t.Keys == table.Keys + {record.id}
    ensures forall id :: id in table && id != record.id ==> id in t && t[id] == table[id]
  {
    if outcome == InsertOk then table[record.id := Named(record.role)] else table
  }
}
