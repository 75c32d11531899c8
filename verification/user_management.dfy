/**
 * The state logic of components/UserManagement.tsx: the role-change handler
 * `updateUserRole` as a transition on the component's state, the badge
 * colour of each role and the value shown by the role selector.
 */
module UserManagement {
  import opened Wrappers
  import opened Roles

  /** A row of the `users` table as the component receives it. */
  datatype UserRow = UserRow(id: string, email: string, role: UserRole, createdAt: string, updatedAt: string)

  datatype MessageKind = Success | Error

  datatype Message = Message(kind: MessageKind, text: string)

  /** The component's state: `users`, `loading` (id being updated) and `message`. */
  datatype Panel = Panel(users: seq<UserRow>, loading: Option<string>, message: Option<Message>)

  /** `supabase.from('users').update({ role }).eq('id', userId)`. */
  datatype Update = Updated | UpdateFailed | UpdateThrew

  const SuccessText: string := "사용자 역할이 성공적으로 업데이트되었습니다."
  const ErrorText: string := "역할 업데이트 중 오류가 발생했습니다."

  /** The `map` callback: the row for `userId` gets the new role and timestamp. */
  function Touch(row: UserRow, userId: string, newRole: Role, now: string): UserRow {
    if row.id == userId then row.(role := Some(newRole), updatedAt := now) else row
  }

  /**
   * `users.map(...)` at lines 44-48: each row whose id is `userId` gets the new
   * role and timestamp; every other row is kept; length and order are preserved.
   */
  function WithRole(users: seq<UserRow>, userId: string, newRole: Role, now: string): (r: seq<UserRow>)
    ensures |r| == |users|
    ensures forall i :: 0 <= i < |r| && users[i].id == userId ==>
              r[i] == users[i].(role := Some(newRole), updatedAt := now)
    ensures forall i :: 0 <= i < |r| && users[i].id != userId ==> r[i] == users[i]
  {
    if |users| == 0 then []
    else [Touch(users[0], userId, newRole, now)] + WithRole(users[1..], userId, newRole, now)
  }

  /**
   * `updateUserRole(userId, newRole)` from the state before the call to the
   * state after its `finally` block, with the backend's answer and the
   * timestamp `new Date().toISOString()` as parameters.
   */
  function UpdateUserRole(panel: Panel, userId: string, newRole: UserRole, outcome: Update, now: string): (p: Panel)
    ensures newRole.None? ==> p == panel
    ensures newRole.Some? ==> p.loading.None? && p.message.Some?
    ensures newRole.Some? && outcome != Updated ==> p.users == panel.users && p.message.value.kind == Error
    ensures newRole.Some? && outcome == Updated ==> p.message.value.kind == Success
    ensures newRole.Some? && outcome == Updated ==> p.users == WithRole(panel.users, userId, newRole.value, now)
    ensures p.users != panel.users ==> newRole.Some? && outcome == Updated
  {
    if newRole.None? then panel
    else
      match outcome
      case Updated => Panel(WithRole(panel.users, userId, newRole.value, now), None, Some(Message(Success, SuccessText)))
      case UpdateFailed => Panel(panel.users, None, Some(Message(Error, ErrorText)))
      case UpdateThrew => Panel(panel.users, None, Some(Message(Error, ErrorText)))
  }

  /** The ids of the rows, in order. */
  function Ids(users: seq<UserRow>): seq<string> {
    seq(|users|, i requires 0 <= i < |users| => users[i].id)
  }

  /** A role change never adds, drops, reorders or renames rows. */
  lemma RoleChangeKeepsIds(panel: Panel, userId: string, newRole: UserRole, outcome: Update, now: string)
    ensures Ids(UpdateUserRole(panel, userId, newRole, outcome, now).users) == Ids(panel.users)
  {
  }

  /** After a successful change, every row for `userId` carries the new role. */
  lemma SuccessfulChangeApplies(panel: Panel, userId: string, newRole: Role, now: string)
    ensures var p := UpdateUserRole(panel, userId, Some(newRole), Updated, now);
            forall i :: 0 <= i < |p.users| && p.users[i].id == userId ==> p.users[i].role == Some(newRole)
  {
  }

  /** Applying the same change twice is the same as applying it once. */
  lemma WithRoleIdempotent(users: seq<UserRow>, userId: string, newRole: Role, now: string)
    ensures WithRole(WithRole(users, userId, newRole, now), userId, newRole, now) == WithRole(users, userId, newRole, now)
  {
  }

  /** A change for an id that is not in the list leaves the list as it was. */
  lemma WithRoleUnknownId(users: seq<UserRow>, userId: string, newRole: Role, now: string)
    requires userId !in Ids(users)
    ensures WithRole(users, userId, newRole, now) == users
  {
    assert forall i :: 0 <= i < |users| ==> Ids(users)[i] == users[i].id;
  }

  /** `getRoleBadgeColor`. */
  function BadgeColor(role: UserRole): (c: string)
    ensures c == "bg-gray-100 text-gray-800" <==> role.None?
  {
    match role
    case Some(Admin) => "bg-red-100 text-red-800"
    case Some(Editor) => "bg-yellow-100 text-yellow-800"
    case Some(Viewer) => "bg-green-100 text-green-800"
    case None => "bg-gray-100 text-gray-800"
  }

  /** Distinct roles get distinct badges, and `null` gets the gray default. */
  lemma BadgeColorInjective(a: UserRole, b: UserRole)
    ensures BadgeColor(a) == BadgeColor(b) <==> a == b
    ensures BadgeColor(None) == "bg-gray-100 text-gray-800"
  {
  }

  /** `user.role || 'viewer'`, the value the role selector displays. */
  function SelectorValue(role: UserRole): (r: Role)
    ensures role.Some? ==> r == role.value
    ensures role.None? ==> r == Viewer
  {
    role.GetOr(Viewer)
  }
}
