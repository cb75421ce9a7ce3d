/**
 * The shared vocabulary of the console: the role names, the twelve
 * permission tags, and the records for users, roles, audit-log entries,
 * tenant files, tenant settings and navigation items.
 */
module Types {
  import opened Builtins

  /** The three role names; every user carries exactly one. */
  datatype RoleName = SystemAdmin | TenantAdmin | UserRole

  function RoleLabel(r: RoleName): string
  {
    match r
    case SystemAdmin => "System Admin"
    case TenantAdmin => "Tenant Admin"
    case UserRole => "User"
  }

  /** The permission enumeration, in declaration order. */
  datatype Permission =
    | ViewUsers | ManageUsers
    | ViewRoles | ManageRoles
    | ViewAuditLogs | ExportAuditLogs
    | ViewSettings | ManageSettings
    | ViewFiles | ManageFiles
    | ViewDashboard
    | ManageOwnProfile

  /** The string value each permission stands for. */
  function Tag(p: Permission): string
  {
    match p
    case ViewUsers => "view:users"
    case ManageUsers => "manage:users"
    case ViewRoles => "view:roles"
    case ManageRoles => "manage:roles"
    case ViewAuditLogs => "view:audit-logs"
    case ExportAuditLogs => "export:audit-logs"
    case ViewSettings => "view:settings"
    case ManageSettings => "manage:settings"
    case ViewFiles => "view:files"
    case ManageFiles => "manage:files"
    case ViewDashboard => "view:dashboard"
    case ManageOwnProfile => "manage:own-profile"
  }

  /** `Object.values(Permission)`: every permission, in declaration order. */
  const AllPermissions: seq<Permission> :=
    [ViewUsers, ManageUsers, ViewRoles, ManageRoles, ViewAuditLogs, ExportAuditLogs,
     ViewSettings, ManageSettings, ViewFiles, ManageFiles, ViewDashboard, ManageOwnProfile]

  /** There are exactly twelve permissions, listed once each, with pairwise-distinct tags. */
  lemma PermissionCatalog()
    ensures |AllPermissions| == 12
    ensures forall p :: p in AllPermissions
    ensures forall i, j :: 0 <= i < j < |AllPermissions| ==> Tag(AllPermissions[i]) != Tag(AllPermissions[j])
  {
    forall p: Permission
      ensures p in AllPermissions
    {
      match p
      case ViewUsers => assert AllPermissions[0] == p;
      case ManageUsers => assert AllPermissions[1] == p;
      case ViewRoles => assert AllPermissions[2] == p;
      case ManageRoles => assert AllPermissions[3] == p;
      case ViewAuditLogs => assert AllPermissions[4] == p;
      case ExportAuditLogs => assert AllPermissions[5] == p;
      case ViewSettings => assert AllPermissions[6] == p;
      case ManageSettings => assert AllPermissions[7] == p;
      case ViewFiles => assert AllPermissions[8] == p;
      case ManageFiles => assert AllPermissions[9] == p;
      case ViewDashboard => assert AllPermissions[10] == p;
      case ManageOwnProfile => assert AllPermissions[11] == p;
    }
  }

  datatype User = User(
    id: string,
    name: string,
    email: string,
    role: RoleName,
    tenantId: string,
    createdAt: string,
    avatarUrl: string)

  /** A catalog role; `permissions` is an ordered list that may repeat entries. */
  datatype Role = Role(
    id: string,
    name: RoleName,
    description: string,
    permissions: seq<Permission>)

  datatype AuditLog = AuditLog(
    id: string,
    userId: string,
    userName: string,
    action: string,
    details: string,
    timestamp: string)

  datatype TenantFile = TenantFile(
    id: string,
    name: string,
    mimeType: string,
    size: int,
    uploadedAt: string,
    url: string)

  datatype Notifications = Notifications(weeklySummary: bool, productUpdates: bool)

  datatype TenantSettings = TenantSettings(
    tenantId: string,
    appName: string,
    logoUrl: Option<string>,
    faviconUrl: Option<string>,
    primaryColor: string,
    secondaryColor: string,
    customDomain: string,
    supportEmail: string,
    hidePoweredBy: bool,
    emailHeaderText: string,
    emailFooterText: string,
    timezone: string,
    language: string,
    sessionTimeout: int,
    enforce2FA: bool,
    notifications: Notifications)

  /** `Permission | Permission[]`: a scalar requirement or a list of them. */
  datatype Requirement = Single(p: Permission) | AnyOf(ps: seq<Permission>)

  /** The list a requirement is normalised to before it is checked. */
  function RequiredList(req: Requirement): seq<Permission>
  {
    match req
    case Single(p) => [p]
    case AnyOf(ps) => ps
  }

  /** A navigation entry; `path` and `children` are both optional (the icon is not modelled). */
  datatype NavItem = NavItem(
    titleKey: string,
    path: Option<string>,
    permission: Requirement,
    children: Submenu)

  /** The optional `children` list of a navigation entry. */
  datatype Submenu = NoChildren | Children(items: seq<NavItem>)
}
