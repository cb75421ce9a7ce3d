/**
 * The mock remote gateway: module-level collections of users, roles, audit
 * log entries and files plus the remote tenant-settings record, changed by
 * append, replace-by-id, delete-by-id and a shallow settings merge. Calls
 * are synchronous here; the latency of the original is not modelled.
 */
module Api {
  import opened Builtins
  import opened Types
  import SettingsStore
  import Rbac

  // ---------------------------------------------------------------------------
  // Collection updates

  function UserKey(u: User): string { u.id }
  function RoleKey(r: Role): string { r.id }
  function FileKey(f: TenantFile): string { f.id }

  /** `xs.map(x => key(x) === key(y) ? { ...x, ...y } : x)` with a whole record `y`. */
  function ReplaceById<T>(xs: seq<T>, key: T -> string, y: T): (r: seq<T>)
    ensures |r| == |xs|
    ensures forall i :: 0 <= i < |xs| && key(xs[i]) == key(y) ==> r[i] == y
    ensures forall i :: 0 <= i < |xs| && key(xs[i]) != key(y) ==> r[i] == xs[i]
  {
    if xs == [] then []
    else [if key(xs[0]) == key(y) then y else xs[0]] + ReplaceById(xs[1..], key, y)
  }

  /** Replacing keeps every entry's id, so the ids and their order are unchanged. */
  lemma ReplaceKeepsKeys<T>(xs: seq<T>, key: T -> string, y: T)
    ensures forall i :: 0 <= i < |xs| ==> key(ReplaceById(xs, key, y)[i]) == key(xs[i])
  {
  }

  /** An id no entry has leaves the collection unchanged. */
  lemma {:induction false} ReplaceUnknownIsIdentity<T>(xs: seq<T>, key: T -> string, y: T)
    requires forall i :: 0 <= i < |xs| ==> key(xs[i]) != key(y)
    ensures ReplaceById(xs, key, y) == xs
  {
    if xs != [] {
      ReplaceUnknownIsIdentity(xs[1..], key, y);
    }
  }

  /** Replacing with the same record again changes nothing. */
  lemma ReplaceIdempotent<T>(xs: seq<T>, key: T -> string, y: T)
    ensures ReplaceById(ReplaceById(xs, key, y), key, y) == ReplaceById(xs, key, y)
  {
    ReplaceKeepsKeys(xs, key, y);
  }

  /** `xs.filter(x => key(x) !== id)`. */
  function RemoveById<T(!new)>(xs: seq<T>, key: T -> string, id: string): (r: seq<T>)
    ensures forall x :: x in r <==> x in xs && key(x) != id
  {
    Filter(xs, x => key(x) != id)
  }

  /** After a delete no entry has the id, and the others are kept in their order. */
  lemma RemoveKeepsOthersInOrder<T(!new)>(xs: seq<T>, key: T -> string, id: string)
    ensures forall i :: 0 <= i < |RemoveById(xs, key, id)| ==> key(RemoveById(xs, key, id)[i]) != id
    ensures IsSubsequence(RemoveById(xs, key, id), xs)
    ensures forall i :: 0 <= i < |xs| && key(xs[i]) != id ==> xs[i] in RemoveById(xs, key, id)
    ensures forall x :: multiset(RemoveById(xs, key, id))[x] == if key(x) != id then multiset(xs)[x] else 0
  {
    var r := RemoveById(xs, key, id);
    assert forall i :: 0 <= i < |r| ==> r[i] in r;
    assert forall i :: 0 <= i < |xs| ==> xs[i] in xs;
    FilterIsSubsequence(xs, x => key(x) != id);
    forall x
      ensures multiset(r)[x] == if key(x) != id then multiset(xs)[x] else 0
    {
      FilterCount(xs, x => key(x) != id, x);
    }
  }

  /**
   * The delete read list-inductively: nothing from nothing, and one more
   * entry stays at the end exactly when its id differs.
   */
  lemma RemoveSnoc<T(!new)>(xs: seq<T>, y: T, key: T -> string, id: string)
    ensures RemoveById([], key, id) == []
    ensures RemoveById(xs + [y], key, id) == RemoveById(xs, key, id) + (if key(y) != id then [y] else [])
  {
    FilterAppend(xs, [y], x => key(x) != id);
    assert [y][1..] == [];
  }

  /** Deleting an id no entry has leaves the collection unchanged. */
  lemma RemoveUnknownIsIdentity<T(!new)>(xs: seq<T>, key: T -> string, id: string)
    requires forall i :: 0 <= i < |xs| ==> key(xs[i]) != id
    ensures RemoveById(xs, key, id) == xs
  {
    FilterKeepsAll(xs, x => key(x) != id);
  }

  // ---------------------------------------------------------------------------
  // The role catalog as seen by the permission check

  /**
   * `useRbac` reads the live role catalog: after an update of the role the
   * user is found under (same id, same name), the lookup finds the new record.
   */
  lemma {:induction false} UpdatedRoleIsFound(catalog: seq<Role>, r: Role)
    requires Rbac.FindRole(catalog, r.name).Some?
    requires Rbac.FindRole(catalog, r.name).value.id == r.id
    ensures Rbac.FindRole(ReplaceById(catalog, RoleKey, r), r.name) == Some(r)
  {
    if catalog[0].name != r.name {
      var rest := ReplaceById(catalog[1..], RoleKey, r);
      assert ReplaceById(catalog, RoleKey, r) == [ReplaceById(catalog, RoleKey, r)[0]] + rest;
      assert ReplaceById(catalog, RoleKey, r)[1..] == rest;
      if catalog[0].id != r.id {
        UpdatedRoleIsFound(catalog[1..], r);
      }
    }
  }

  /** So every later permission check of a user holding that role uses the updated list. */
  lemma UpdatedRoleDecidesPermission(catalog: seq<Role>, r: Role, u: User, req: Requirement)
    requires u.role == r.name
    requires Rbac.FindRole(catalog, r.name).Some?
    requires Rbac.FindRole(catalog, r.name).value.id == r.id
    ensures Rbac.HasPermission(Some(u), ReplaceById(catalog, RoleKey, r), req) <==>
            (u.role == SystemAdmin || Rbac.SomeGranted(RequiredList(req), r.permissions))
  {
    UpdatedRoleIsFound(catalog, r);
  }

  // ---------------------------------------------------------------------------
  // Seed data

  const SeedUsers: seq<User> := [
    User("user-1", "Admin User", "admin@colloki.com", TenantAdmin, "tenant-123",
         "2023-10-26T10:00:00.000Z", "https://i.pravatar.cc/150?u=user-1"),
    User("user-2", "Jane Doe", "jane.doe@colloki.com", UserRole, "tenant-123",
         "2023-10-25T11:30:00.000Z", "https://i.pravatar.cc/150?u=user-2"),
    User("user-3", "John Smith", "john.smith@colloki.com", UserRole, "tenant-123",
         "2023-10-24T15:00:00.000Z", "https://i.pravatar.cc/150?u=user-3")]

  const SeedRoles: seq<Role> := [
    Role("role-1", TenantAdmin, "Has full access to manage the tenant.", AllPermissions),
    Role("role-2", UserRole, "Has basic access to the system.", [ViewDashboard, ViewFiles, ManageOwnProfile]),
    Role("role-3", SystemAdmin, "Has access to the entire system.", AllPermissions)]

  const SeedAuditLogs: seq<AuditLog> := [
    AuditLog("log-1", "user-1", "Admin User", "USER_LOGIN", "User logged in successfully.",
             "2023-10-27T09:00:00.000Z"),
    AuditLog("log-2", "user-2", "Jane Doe", "FILE_UPLOAD", "Uploaded file \"report.pdf\".",
             "2023-10-27T09:05:00.000Z"),
    AuditLog("log-3", "user-1", "Admin User", "USER_UPDATE", "Updated profile for user John Smith.",
             "2023-10-27T09:10:00.000Z"),
    AuditLog("log-4", "user-3", "John Smith", "USER_LOGIN", "User logged in successfully.",
             "2023-10-27T09:12:00.000Z")]

  const SeedFiles: seq<TenantFile> := [
    TenantFile("file-1", "Q3 Financial Report.pdf", "application/pdf", 1234567,
               "2023-10-26T14:00:00.000Z", "#"),
    TenantFile("file-2", "Marketing Campaign.jpg", "image/jpeg", 876543,
               "2023-10-25T16:30:00.000Z", "#"),
    TenantFile("file-3", "Onboarding Guide.docx",
               "application/vnd.openxmlformats-officedocument.wordprocessingml.document", 45678,
               "2023-10-24T10:15:00.000Z", "#")]

  const SeedTenantSettings := TenantSettings(
    "tenant-123", "Colloki", None, None, "#4f46e5", "#0ea5e9", "app.colloki.com",
    "support@colloki.com", false, "Welcome!", "© 2024 Colloki Inc.", "UTC", "en", 60, false,
    Notifications(true, true))

  /**
   * In the seed catalog Tenant Admin and System Admin list every permission
   * and User lists exactly view:dashboard, view:files and manage:own-profile.
   */
  lemma SeedCatalog()
    ensures Rbac.FindRole(SeedRoles, TenantAdmin) == Some(SeedRoles[0])
    ensures Rbac.FindRole(SeedRoles, UserRole) == Some(SeedRoles[1])
    ensures Rbac.FindRole(SeedRoles, SystemAdmin) == Some(SeedRoles[2])
    ensures forall p :: p in SeedRoles[0].permissions && p in SeedRoles[2].permissions
    ensures forall p :: p in SeedRoles[1].permissions <==> p in {ViewDashboard, ViewFiles, ManageOwnProfile}
  {
    Types.PermissionCatalog();
  }

  /** A seed User may see the dashboard and files but may not manage users or roles. */
  lemma SeedUserRole(u: User)
    requires u.role == UserRole
    ensures Rbac.HasPermission(Some(u), SeedRoles, Single(ViewDashboard))
    ensures Rbac.HasPermission(Some(u), SeedRoles, Single(ViewFiles))
    ensures !Rbac.HasPermission(Some(u), SeedRoles, Single(ManageUsers))
    ensures !Rbac.HasPermission(Some(u), SeedRoles, AnyOf([ManageRoles, ViewAuditLogs]))
  {
    SeedCatalog();
    assert ViewDashboard in SeedRoles[1].permissions;
    assert ViewFiles in SeedRoles[1].permissions;
  }

  const NewUserTenant := "tenant-123"

  /** The record `createUser` builds; `idStamp` and `avatarStamp` are the two `Date.now()` readings. */
  function NewUser(name: string, email: string, role: RoleName,
                   idStamp: nat, createdAt: string, avatarStamp: nat): (u: User)
    ensures u.name == name && u.email == email && u.role == role && u.createdAt == createdAt
    ensures u.tenantId == NewUserTenant && StartsWith(u.id, "user-") && |u.id| > 5
  {
    User("user-" + NatToString(idStamp), name, email, role, NewUserTenant, createdAt,
         "https://i.pravatar.cc/150?u=" + NatToString(avatarStamp))
  }

  /** The new user's id is "user-" followed by the clock reading, which reads back from it. */
  lemma NewUserId(name: string, email: string, role: RoleName, idStamp: nat, createdAt: string, avatarStamp: nat)
    ensures var u := NewUser(name, email, role, idStamp, createdAt, avatarStamp);
            StartsWith(u.id, "user-") && DecimalValue(u.id[5..]) == idStamp &&
            u.name == name && u.email == email && u.role == role && u.tenantId == NewUserTenant
  {
    var u := NewUser(name, email, role, idStamp, createdAt, avatarStamp);
    assert u.id[5..] == NatToString(idStamp);
    DecimalRoundTrip(idStamp);
  }

  /** The gateway's module-level state. */
  class Gateway {
    var users: seq<User>
    var roles: seq<Role>
    var auditLogs: seq<AuditLog>
    var files: seq<TenantFile>
    var tenantSettings: TenantSettings

    constructor ()
      ensures users == SeedUsers && roles == SeedRoles && auditLogs == SeedAuditLogs
      ensures files == SeedFiles && tenantSettings == SeedTenantSettings
    {
      users := SeedUsers;
      roles := SeedRoles;
      auditLogs := SeedAuditLogs;
      files := SeedFiles;
      tenantSettings := SeedTenantSettings;
    }

    method FetchUsers() returns (r: seq<User>)
      ensures r == users
    {
      r := users;
    }

    /** Appends exactly one user at the end; the existing users are unchanged. */
    method CreateUser(name: string, email: string, role: RoleName,
                      idStamp: nat, createdAt: string, avatarStamp: nat) returns (u: User)
      modifies this
      ensures u == NewUser(name, email, role, idStamp, createdAt, avatarStamp)
      ensures users == old(users) + [u]
      ensures roles == old(roles) && auditLogs == old(auditLogs) && files == old(files)
      ensures tenantSettings == old(tenantSettings)
    {
      u := NewUser(name, email, role, idStamp, createdAt, avatarStamp);
      users := users + [u];
    }

    method UpdateUser(u: User) returns (r: User)
      modifies this
      ensures r == u
      ensures users == ReplaceById(old(users), UserKey, u)
      ensures roles == old(roles) && auditLogs == old(auditLogs) && files == old(files)
      ensures tenantSettings == old(tenantSettings)
    {
      users := ReplaceById(users, UserKey, u);
      r := u;
    }

    /** Always reports success, also for an id no user has. */
    method DeleteUser(id: string) returns (success: bool)
      modifies this
      ensures success
      ensures users == RemoveById(old(users), UserKey, id)
      ensures roles == old(roles) && auditLogs == old(auditLogs) && files == old(files)
      ensures tenantSettings == old(tenantSettings)
    {
      users := RemoveById(users, UserKey, id);
      success := true;
    }

    method FetchRoles() returns (r: seq<Role>)
      ensures r == roles
    {
      r := roles;
    }

    method UpdateRole(role: Role) returns (r: Role)
      modifies this
      ensures r == role
      ensures roles == ReplaceById(old(roles), RoleKey, role)
      ensures users == old(users) && auditLogs == old(auditLogs) && files == old(files)
      ensures tenantSettings == old(tenantSettings)
    {
      roles := ReplaceById(roles, RoleKey, role);
      r := role;
    }

    method FetchAuditLogs() returns (r: seq<AuditLog>)
      ensures r == auditLogs
    {
      r := auditLogs;
    }

    method FetchFiles() returns (r: seq<TenantFile>)
      ensures r == files
    {
      r := files;
    }

    method DeleteFile(id: string) returns (success: bool)
      modifies this
      ensures success
      ensures files == RemoveById(old(files), FileKey, id)
      ensures users == old(users) && roles == old(roles) && auditLogs == old(auditLogs)
      ensures tenantSettings == old(tenantSettings)
    {
      files := RemoveById(files, FileKey, id);
      success := true;
    }

    /** Shallow-merges the partial record and returns the merged remote record. */
    method UpdateTenantSettings(p: SettingsStore.SettingsPatch) returns (r: TenantSettings)
      modifies this
      ensures tenantSettings == SettingsStore.Merge(old(tenantSettings), p)
      ensures r == tenantSettings
      ensures users == old(users) && roles == old(roles) && auditLogs == old(auditLogs)
      ensures files == old(files)
    {
      tenantSettings := SettingsStore.Merge(tenantSettings, p);
      r := tenantSettings;
    }
  }
}
