/**
 * The role lattice of lib/roles.ts: three roles ranked user < organizer < admin,
 * a rank comparison, and the permissions derived from it. A missing role
 * (`null` / `undefined`, or a stored string that is not a role) is `None`.
 */
module Roles {
  import opened Wrappers

  datatype Role = User | Organizer | Admin

  /** The `roleHierarchy` table. */
  function Rank(r: Role): nat {
    match r
    case User => 1
    case Organizer => 2
    case Admin => 3
  }

  /** The string stored for a role (`ROLES.USER` etc.). */
  function Name(r: Role): string {
    match r
    case User => "user"
    case Organizer => "organizer"
    case Admin => "admin"
  }

  /** Reading a stored role string; anything other than the three names is no role. */
  function ParseRole(s: string): (r: Option<Role>)
    ensures r.Some? ==> Name(r.value) == s
    ensures r.None? ==> forall q: Role :: Name(q) != s
  {
    if s == "user" then Some(User)
    else if s == "organizer" then Some(Organizer)
    else if s == "admin" then Some(Admin)
    else None
  }

  /** Names and parsing are inverse: every role survives being stored as a string. */
  lemma ParseName(r: Role)
    ensures ParseRole(Name(r)) == Some(r)
  {
  }

  /**
   * `hasRole(userRole, requiredRole)`: no role satisfies nothing; otherwise the
   * rank must reach the required rank. Spelled out: `user` is required of
   * everyone, a role satisfies itself, and admin satisfies every requirement.
   */
  function HasRole(userRole: Option<Role>, required: Role): (b: bool)
    ensures userRole.None? ==> !b
    ensures b <==> userRole.Some? && (required == User || userRole.value == required || userRole.value == Admin)
  {
    userRole.Some? && Rank(userRole.value) >= Rank(required)
  }

  /** `canManageContent`: exactly organizers and admins. */
  function CanManageContent(userRole: Option<Role>): (b: bool)
    ensures b <==> userRole == Some(Organizer) || userRole == Some(Admin)
  {
    HasRole(userRole, Organizer)
  }

  /** `canApproveResources`: an equality test, not a rank test. */
  function CanApproveResources(userRole: Option<Role>): (b: bool)
    ensures b <==> userRole.Some? && userRole.value.Admin?
  {
    userRole == Some(Admin)
  }

  /** `canViewAnalytics`: any role at all. */
  function CanViewAnalytics(userRole: Option<Role>): (b: bool)
    ensures b <==> userRole.Some?
  {
    HasRole(userRole, User)
  }

  /** `canJoinRooms`: any role at all. */
  function CanJoinRooms(userRole: Option<Role>): (b: bool)
    ensures b <==> userRole.Some?
  {
    HasRole(userRole, User)
  }

  /**
   * The handlers' inline test `['organizer', 'admin'].includes(role)` on the
   * stored role string.
   */
  predicate IsManagerRole(role: string) {
    role == "organizer" || role == "admin"
  }

  /** The handlers' inline string test and `canManageContent` agree on every stored string. */
  lemma ManagerRoleIsCanManage(role: string)
    ensures IsManagerRole(role) <==> CanManageContent(ParseRole(role))
  {
  }

  /** Every role satisfies its own requirement. */
  lemma HasRoleReflexive(r: Role)
    ensures HasRole(Some(r), r)
  {
  }

  /** Satisfaction composes along the order. */
  lemma HasRoleTransitive(a: Role, b: Role, c: Role)
    requires HasRole(Some(a), b) && HasRole(Some(b), c)
    ensures HasRole(Some(a), c)
  {
  }

  /** Two roles that satisfy each other are the same role. */
  lemma HasRoleAntisymmetric(a: Role, b: Role)
    requires HasRole(Some(a), b) && HasRole(Some(b), a)
    ensures a == b
  {
  }

  /** A higher role satisfies every requirement a lower one does. */
  lemma HasRoleMonotone(lo: Role, hi: Role, required: Role)
    requires Rank(lo) <= Rank(hi)
    requires HasRole(Some(lo), required)
    ensures HasRole(Some(hi), required)
  {
  }

  /** The two "any role" permissions are the same permission. */
  lemma ViewAnalyticsIsJoinRooms(userRole: Option<Role>)
    ensures CanViewAnalytics(userRole) == CanJoinRooms(userRole)
  {
  }

  /** Approving resources implies managing content, but not the other way round. */
  lemma ApproveImpliesManage(userRole: Option<Role>)
    ensures CanApproveResources(userRole) ==> CanManageContent(userRole)
    ensures CanManageContent(Some(Organizer)) && !CanApproveResources(Some(Organizer))
  {
  }
}
