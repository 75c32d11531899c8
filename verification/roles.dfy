/** The `UserRole` type of utils/auth.ts and its two role predicates. */
module Roles {
  import opened Wrappers

  /** The three role names a `users` row may carry. */
  datatype Role = Admin | Editor | Viewer

  /** `'admin' | 'editor' | 'viewer' | null`. */
  type UserRole = Option<Role>

  /** `isAdmin`: strict equality with `'admin'`. */
  predicate IsAdmin(role: UserRole)
    ensures IsAdmin(role) ==> role.Some? && Rank(role.value) == Rank(Admin)
  {
    role == Some(Admin)
  }

  /** `isEditorOrAbove`: `'admin'` or `'editor'`. */
  predicate IsEditorOrAbove(role: UserRole)
    ensures IsEditorOrAbove(role) <==> role.Some? && Rank(role.value) >= Rank(Editor)
  {
    role == Some(Admin) || role == Some(Editor)
  }

  /** The intended hierarchy admin > editor > viewer, as an independent reference. */
  function Rank(role: Role): nat {
    match role
    case Admin => 2
    case Editor => 1
    case Viewer => 0
  }

  /** `isAdmin` accepts exactly the role `admin`; in particular never `null`. */
  lemma IsAdminExactly(role: UserRole)
    ensures IsAdmin(role) <==> role.Some? && role.value == Admin
    ensures !IsAdmin(None)
  {
  }

  /** `isEditorOrAbove` is the threshold "rank at least editor" over non-null roles. */
  lemma EditorOrAboveIsRankThreshold(role: UserRole)
    ensures IsEditorOrAbove(role) <==> role.Some? && Rank(role.value) >= Rank(Editor)
  {
  }

  /** Every admin is an editor-or-above, but not conversely. */
  lemma AdminImpliesEditorOrAbove(role: UserRole)
    ensures IsAdmin(role) ==> IsEditorOrAbove(role)
    ensures IsEditorOrAbove(Some(Editor)) && !IsAdmin(Some(Editor))
  {
  }
}
