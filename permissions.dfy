/**
 * Role checks: administrator and user roles, the permission test, the
 * features restricted for users, and the role's display name and colour.
 */
module Permissions {

  import opened Common

  datatype Role = Admin | User

  /** isAdmin: a present administrator role. */
  function IsAdmin(role: Option<Role>): (r: bool)
    ensures r ==> role.Some?
  {
    role == Some(Admin)
  }

  /** isUser: a present role that is not administrator. */
  function IsUser(role: Option<Role>): (r: bool)
    ensures r <==> role.Some? && !IsAdmin(role)
  {
    match role
    case Some(User) => true
    case _ => false
  }

  /** No role is both, and a missing role is neither. */
  lemma RolesExclusive(role: Option<Role>)
    ensures !(IsAdmin(role) && IsUser(role))
    ensures role.None? ==> !IsAdmin(role) && !IsUser(role)
    ensures role.Some? ==> IsAdmin(role) != IsUser(role)
  {
    match role
    case None =>
    case Some(Admin) =>
    case Some(User) =>
  }

  /** hasPermission: an administrator has every permission, anyone else none. */
  function HasPermission(role: Option<Role>, permission: Option<string>): (r: bool)
    ensures r <==> IsAdmin(role)
  {
    if role != Some(Admin) then false else true
  }

  /** The keys of RESTRICTED_FOR_USERS. */
  datatype Feature =
    | UpdateOthersReports | DeleteOthersReports | AssignReports | ChangeReportStatus
    | CreateCoupons | EditCoupons | DeleteCoupons
    | ManageCategories | ManageLocations
    | CreateNotificationsForOthers | ViewAllNotifications

  /** RESTRICTED_FOR_USERS: every flag is set. */
  function RestrictedForUsers(f: Feature): bool {
    match f
    case UpdateOthersReports => true
    case DeleteOthersReports => true
    case AssignReports => true
    case ChangeReportStatus => true
    case CreateCoupons => true
    case EditCoupons => true
    case DeleteCoupons => true
    case ManageCategories => true
    case ManageLocations => true
    case CreateNotificationsForOthers => true
    case ViewAllNotifications => true
  }

  /** useIsRestricted for the signed-in user's role. */
  function IsRestricted(role: Option<Role>, f: Feature): (r: bool)
    ensures IsAdmin(role) ==> !r
  {
    if role == Some(Admin) then false else RestrictedForUsers(f) == true
  }

  /** Every feature is restricted exactly for non-administrators, so a
      feature is open exactly to those who have the permissions. */
  lemma RestrictedIffNotAdmin(role: Option<Role>, f: Feature, permission: Option<string>)
    ensures IsRestricted(role, f) <==> !IsAdmin(role)
    ensures IsRestricted(role, f) <==> !HasPermission(role, permission)
  {
    match f
    case UpdateOthersReports =>
    case DeleteOthersReports =>
    case AssignReports =>
    case ChangeReportStatus =>
    case CreateCoupons =>
    case EditCoupons =>
    case DeleteCoupons =>
    case ManageCategories =>
    case ManageLocations =>
    case CreateNotificationsForOthers =>
    case ViewAllNotifications =>
  }

  /** getRoleName: a non-empty display name. */
  function RoleName(role: Option<Role>): (r: string)
    ensures r != ""
  {
    match role
    case Some(Admin) => "Administrador"
    case Some(User) => "Usuario"
    case None => "Sin rol"
  }

  /** getRoleColor: a pair of Tailwind classes, background first. */
  function RoleColor(role: Option<Role>): (r: string)
    ensures IsPrefix("bg-", r)
  {
    match role
    case Some(Admin) => "bg-red-100 text-red-800"
    case Some(User) => "bg-blue-100 text-blue-800"
    case None => "bg-gray-100 text-gray-800"
  }

  /** The three cases get three different names and three different colours. */
  lemma RoleDisplayDistinct(a: Option<Role>, b: Option<Role>)
    ensures RoleName(a) == RoleName(b) ==> a == b
    ensures RoleColor(a) == RoleColor(b) ==> a == b
  {
  }
}
