/**
 * hooks/use-role.ts: the flags a page reads, all derived from the signed-in
 * profile's role string. The string is passed to the lib/roles.ts functions
 * unchecked, so a stored string that names no role behaves like no role there,
 * while the hook's own `role` field still carries it.
 */
module UseRole {
  import opened Wrappers
  import opened Roles

  datatype RoleView = RoleView(
    role: Option<string>,
    isUser: bool,
    isOrganizer: bool,
    isAdmin: bool,
    canManageContent: bool,
    canApproveResources: bool,
    canViewAnalytics: bool,
    canJoinRooms: bool)

  /** What the lib/roles.ts functions make of the hook's `role`. */
  function Typed(role: Option<string>): Option<Role> {
    match role
    case None => None
    case Some(s) => ParseRole(s)
  }

  /**
   * `useRole()` for a profile whose role column reads `profileRole`
   * (`None` when there is no profile or the column is null).
   */
  function UseRole(profileRole: Option<string>): (v: RoleView)
    ensures v.role.None? <==> profileRole.None? || profileRole == Some("")
    ensures v.role.Some? ==> profileRole == v.role
    ensures v.isAdmin == v.canApproveResources
    ensures v.isOrganizer == v.canManageContent
    ensures !(v.isUser && v.isOrganizer)
    ensures v.canViewAnalytics == v.canJoinRooms
    ensures v.canViewAnalytics <==> v.role.Some? && v.role.value in {"user", "organizer", "admin"}
    ensures v.isUser || v.isOrganizer <==> v.canViewAnalytics
  {
    var role := if profileRole == Some("") then None else profileRole;
    var typed := Typed(role);
    RoleView(
      role,
      role == Some("user"),
      role == Some("organizer") || role == Some("admin"),
      role == Some("admin"),
      CanManageContent(typed),
      CanApproveResources(typed),
      CanViewAnalytics(typed),
      CanJoinRooms(typed))
  }

  /** The hook's `hasRole(required)` closure. */
  function HookHasRole(v: RoleView, required: Role): bool {
    HasRole(Typed(v.role), required)
  }

  /** The closure answers exactly what lib/roles.ts `hasRole` answers for the parsed profile role. */
  lemma HookHasRoleAgrees(profileRole: Option<string>, required: Role)
    ensures HookHasRole(UseRole(profileRole), required)
        <==> profileRole.Some? && HasRole(ParseRole(profileRole.value), required)
  {
  }

  /** The analytics flag is raised only for a stored string that names one of the three roles. */
  lemma AnalyticsFlagNamesRole(role: string)
    requires UseRole(Some(role)).canViewAnalytics
    ensures role == "user" || role == "organizer" || role == "admin"
  {
  }

  /** A role string that names no role is carried in `role` but grants nothing. */
  lemma UnknownRoleGrantsNothing(s: string)
    requires s != "" && ParseRole(s).None?
    ensures UseRole(Some(s)).role == Some(s)
    ensures !UseRole(Some(s)).canViewAnalytics && !UseRole(Some(s)).canManageContent
    ensures !UseRole(Some(s)).isUser && !UseRole(Some(s)).isOrganizer && !UseRole(Some(s)).isAdmin
  {
  }
}
