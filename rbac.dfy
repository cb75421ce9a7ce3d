/**
 * The permission decision of `useRbac`: a user is looked up in the role
 * catalog by role name, the System Admin role bypasses the check, and any
 * other role passes when it lists at least one of the required permissions.
 * The decision is a function of the signed-in user (absent when nobody is
 * signed in), the role catalog at call time and the requirement.
 */
module Rbac {
  import opened Builtins
  import opened Types

  /** The catalog entry at index `i` is the first one named `name`. */
  ghost predicate FirstNamed(catalog: seq<Role>, name: RoleName, i: int)
  {
    0 <= i < |catalog| && catalog[i].name == name &&
    forall j :: 0 <= j < i ==> catalog[j].name != name
  }

  /** `catalog.find(r => r.name === name)`. */
  function FindRole(catalog: seq<Role>, name: RoleName): (r: Option<Role>)
    ensures r.None? <==> forall i :: 0 <= i < |catalog| ==> catalog[i].name != name
    ensures r.Some? ==> exists i :: FirstNamed(catalog, name, i) && catalog[i] == r.value
  {
    if catalog == [] then None
    else if catalog[0].name == name then
      assert FirstNamed(catalog, name, 0);
      Some(catalog[0])
    else
      var r := FindRole(catalog[1..], name);
      assert forall i :: FirstNamed(catalog[1..], name, i) ==> FirstNamed(catalog, name, i + 1);
      r
  }

  /** `required.some(p => granted.includes(p))`. */
  function SomeGranted(required: seq<Permission>, granted: seq<Permission>): (b: bool)
    ensures b <==> exists p :: p in required && p in granted
  {
    if required == [] then false
    else
      assert forall p :: p in required <==> p == required[0] || p in required[1..];
      required[0] in granted || SomeGranted(required[1..], granted)
  }

  /** `hasPermission(requiredPermission)` for the signed-in `user`. */
  function HasPermission(user: Option<User>, catalog: seq<Role>, req: Requirement): (b: bool)
    ensures b ==> user.Some? && FindRole(catalog, user.value.role).Some?
    ensures b && user.value.role != SystemAdmin ==>
              exists p :: p in RequiredList(req) && p in FindRole(catalog, user.value.role).value.permissions
    ensures user.Some? && user.value.role == SystemAdmin && FindRole(catalog, SystemAdmin).Some? ==> b
  {
    if user.None? then false
    else
      match FindRole(catalog, user.value.role)
      case None => false
      case Some(role) =>
        if user.value.role == SystemAdmin then true
        else SomeGranted(RequiredList(req), role.permissions)
  }

  /** Nobody signed in: every requirement is refused. */
  lemma NoUserIsRefused(catalog: seq<Role>, req: Requirement)
    ensures !HasPermission(None, catalog, req)
  {
  }

  /** A role name missing from the catalog refuses everything, System Admin included. */
  lemma UnknownRoleIsRefused(u: User, catalog: seq<Role>, req: Requirement)
    requires forall i :: 0 <= i < |catalog| ==> catalog[i].name != u.role
    ensures !HasPermission(Some(u), catalog, req)
  {
  }

  /** A System Admin present in the catalog passes every requirement, the empty list included. */
  lemma SystemAdminBypass(u: User, catalog: seq<Role>, req: Requirement)
    requires u.role == SystemAdmin
    requires exists i :: 0 <= i < |catalog| && catalog[i].name == SystemAdmin
    ensures HasPermission(Some(u), catalog, req)
  {
  }

  /** A scalar requirement is checked as the one-element list. */
  lemma ScalarIsSingletonList(user: Option<User>, catalog: seq<Role>, p: Permission)
    ensures HasPermission(user, catalog, Single(p)) == HasPermission(user, catalog, AnyOf([p]))
  {
  }

  /**
   * For any other role found in the catalog, the decision is "at least one
   * required permission is listed by the role"; the empty list is refused.
   */
  lemma OtherRolesNeedOneListed(u: User, catalog: seq<Role>, role: Role, req: Requirement)
    requires u.role != SystemAdmin
    requires FindRole(catalog, u.role) == Some(role)
    ensures HasPermission(Some(u), catalog, req) <==>
            exists i :: 0 <= i < |RequiredList(req)| && RequiredList(req)[i] in role.permissions
    ensures RequiredList(req) == [] ==> !HasPermission(Some(u), catalog, req)
  {
    var ps := RequiredList(req);
    if HasPermission(Some(u), catalog, req) {
      var p :| p in ps && p in role.permissions;
      var i :| 0 <= i < |ps| && ps[i] == p;
    }
  }

  /**
   * Listing more permissions never withdraws a grant: if the role the user
   * is found under in a second catalog lists at least what the first did,
   * every requirement granted before is granted again.
   */
  lemma GrantIsMonotone(u: User, before: seq<Role>, after: seq<Role>, req: Requirement)
    requires HasPermission(Some(u), before, req)
    requires FindRole(after, u.role).Some?
    requires forall p :: p in FindRole(before, u.role).value.permissions ==>
                         p in FindRole(after, u.role).value.permissions
    ensures HasPermission(Some(u), after, req)
  {
  }
}
