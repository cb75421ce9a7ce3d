/**
 * The roles page: the role table, and the dialog whose grouped check boxes
 * edit one role's permission list before it is sent to the gateway.
 */
module RolesPage {
  import opened Builtins
  import opened Types
  import Api

  /** The dialog's check-box groups, in display order. */
  const PermissionGroups: seq<(string, seq<Permission>)> := [
    ("User Management", [ViewUsers, ManageUsers]),
    ("Role Management", [ViewRoles, ManageRoles]),
    ("Audit Logs", [ViewAuditLogs, ExportAuditLogs]),
    ("Settings", [ViewSettings, ManageSettings]),
    ("File System", [ViewFiles, ManageFiles]),
    ("Dashboard", [ViewDashboard]),
    ("Profile", [ManageOwnProfile])
  ]

  /** The check boxes of the groups, in display order. */
  function Boxes(groups: seq<(string, seq<Permission>)>): seq<Permission>
  {
    if groups == [] then [] else groups[0].1 + Boxes(groups[1..])
  }

  /**
   * The groups list every permission in declaration order, so each
   * permission has exactly one check box.
   */
  lemma GroupsCoverEveryPermissionOnce()
    ensures Boxes(PermissionGroups) == AllPermissions
    ensures forall p :: p in Boxes(PermissionGroups)
    ensures forall i, j :: 0 <= i < j < |Boxes(PermissionGroups)| ==> Boxes(PermissionGroups)[i] != Boxes(PermissionGroups)[j]
  {
    var g := PermissionGroups;
    assert Boxes(g[6..]) == [ManageOwnProfile] by {
      assert g[6..][1..] == [];
    }
    assert g[5..][1..] == g[6..];
    assert g[4..][1..] == g[5..];
    assert g[3..][1..] == g[4..];
    assert g[2..][1..] == g[3..];
    assert g[1..][1..] == g[2..];
    assert Boxes(g) == AllPermissions;
    PermissionCatalog();
  }

  /** A check box's `onChange`: checking appends the permission, unchecking drops every copy of it. */
  function CheckboxChange(current: seq<Permission>, p: Permission, checked: bool): (r: seq<Permission>)
    ensures p in r <==> checked
    ensures checked ==> r == current + [p]
  {
    if checked then current + [p] else Filter(current, perm => perm != p)
  }

  /** No other permission's box changes, and every other entry keeps its place and its number of copies. */
  lemma CheckboxChangeKeepsOthers(current: seq<Permission>, p: Permission, checked: bool)
    ensures forall q :: q != p ==> (q in CheckboxChange(current, p, checked) <==> q in current)
    ensures !checked ==> IsSubsequence(CheckboxChange(current, p, checked), current)
    ensures forall q :: q != p ==> multiset(CheckboxChange(current, p, checked))[q] == multiset(current)[q]
    ensures !checked ==> multiset(CheckboxChange(current, p, checked))[p] == 0
  {
    if !checked {
      FilterIsSubsequence(current, perm => perm != p);
      forall q
        ensures multiset(CheckboxChange(current, p, checked))[q] == if q != p then multiset(current)[q] else 0
      {
        FilterCount(current, perm => perm != p, q);
      }
    }
  }

  /** Checking a box that was clear and then clearing it restores the list. */
  lemma CheckThenUncheck(current: seq<Permission>, p: Permission)
    requires p !in current
    ensures CheckboxChange(CheckboxChange(current, p, true), p, false) == current
  {
    var keep := perm => perm != p;
    FilterAppend(current, [p], keep);
    FilterKeepsAll(current, keep);
    assert Filter([p], keep) == [];
  }

  /** Clearing a box is idempotent. */
  lemma UncheckTwice(current: seq<Permission>, p: Permission)
    ensures CheckboxChange(CheckboxChange(current, p, false), p, false) == CheckboxChange(current, p, false)
  {
    var r := CheckboxChange(current, p, false);
    FilterKeepsAll(r, perm => perm != p);
  }

  /** `p.replace(/[:_]/g, ' ')`: every `:` and `_` becomes a space. */
  function Label(tag: string): (r: string)
    ensures |r| == |tag|
    ensures forall i :: 0 <= i < |r| ==> r[i] == (if tag[i] == ':' || tag[i] == '_' then ' ' else tag[i])
  {
    seq(|tag|, i requires 0 <= i < |tag| => if tag[i] == ':' || tag[i] == '_' then ' ' else tag[i])
  }

  /** A label has no `:` or `_` left in it, and labelling again changes nothing. */
  lemma LabelIsClean(tag: string)
    ensures ':' !in Label(tag) && '_' !in Label(tag)
    ensures Label(Label(tag)) == Label(tag)
  {
    var r := Label(tag);
    assert forall i :: 0 <= i < |r| ==> r[i] != ':' && r[i] != '_';
  }

  /** The colon of a tag becomes a space, and the hyphens of the tags stay. */
  lemma LabelExamples()
    ensures Label(Tag(ViewUsers)) == "view users"
    ensures '-' in Label(Tag(ViewAuditLogs))
  {
    assert Label("view:users") == "view users";
    assert Label("view:audit-logs")[10] == '-';
  }

  /** The table's count cell: the length of the role's list, then ` permissions`. */
  function CountLabel(role: Role): (c: string)
    ensures |c| > |" permissions"| && c[|c| - |" permissions"|..] == " permissions"
  {
    NatToString(|role.permissions|) + " permissions"
  }

  /** The cell's leading digits read back as the number of listed permissions. */
  lemma CountLabelReadsBack(role: Role)
    ensures var n := |NatToString(|role.permissions|)|;
            var c := CountLabel(role);
            n <= |c| && c[n..] == " permissions" &&
            (forall i :: 0 <= i < n ==> IsDigit(c[i])) && DecimalValue(c[..n]) == |role.permissions|
  {
    var d := NatToString(|role.permissions|);
    var c := CountLabel(role);
    assert c[..|d|] == d;
    assert c[|d|..] == " permissions";
    DecimalRoundTrip(|role.permissions|);
  }

  /** The page's state. */
  class Page {
    var roles: seq<Role>
    var isLoading: bool
    var isModalOpen: bool
    var editingRole: Option<Role>
    /** The form's `permissions` field; `None` after the form is reset to no values. */
    var formPermissions: Option<seq<Permission>>

    /** The form holds a permission list exactly while a role is being edited. */
    predicate Valid()
      reads this
    {
      editingRole.Some? <==> formPermissions.Some?
    }

    constructor ()
      ensures roles == [] && isLoading && !isModalOpen && editingRole == None && formPermissions == None
      ensures Valid()
    {
      roles := [];
      isLoading := true;
      isModalOpen := false;
      editingRole := None;
      formPermissions := None;
    }

    /** `loadRoles`: the table shows the gateway's current roles. */
    method LoadRoles(gw: Api.Gateway)
      modifies this
      ensures roles == gw.roles && !isLoading
      ensures isModalOpen == old(isModalOpen) && editingRole == old(editingRole)
      ensures formPermissions == old(formPermissions)
    {
      isLoading := true;
      roles := gw.FetchRoles();
      isLoading := false;
    }

    /** `openModal(role)`: the dialog edits the role, starting from its own permissions. */
    method OpenModal(role: Role)
      modifies this
      ensures editingRole == Some(role) && formPermissions == Some(role.permissions) && isModalOpen
      ensures roles == old(roles) && isLoading == old(isLoading)
      ensures Valid()
    {
      editingRole := Some(role);
      formPermissions := Some(role.permissions);
      isModalOpen := true;
    }

    /** `closeModal`. */
    method CloseModal()
      modifies this
      ensures !isModalOpen && editingRole == None && formPermissions == None
      ensures roles == old(roles) && isLoading == old(isLoading)
      ensures Valid()
    {
      isModalOpen := false;
      editingRole := None;
      formPermissions := None;
    }

    /**
     * A click on the box for `p` while the dialog is showing. The box shows
     * `p`'s presence, so the click's new `checked` is its absence.
     */
    method ClickBox(p: Permission, checked: bool)
      requires formPermissions.Some?
      requires checked == (p !in formPermissions.value)
      requires Valid()
      modifies this
      ensures formPermissions == Some(CheckboxChange(old(formPermissions).value, p, checked))
      ensures roles == old(roles) && isModalOpen == old(isModalOpen) && editingRole == old(editingRole)
      ensures isLoading == old(isLoading)
      ensures Valid()
    {
      formPermissions := Some(CheckboxChange(formPermissions.value, p, checked));
    }

    /**
     * `handleSubmit(onSubmit)`: the form's current permission list, put into
     * the edited role in place of its own, goes to the gateway; the dialog
     * closes and the table reloads. Without an edited role nothing is sent.
     */
    method OnSubmit(gw: Api.Gateway)
      requires Valid()
      modifies this, gw
      ensures old(editingRole).Some? ==>
                gw.roles == Api.ReplaceById(old(gw.roles), Api.RoleKey,
                                            old(editingRole).value.(permissions := old(formPermissions).value))
      ensures old(editingRole).None? ==> gw.roles == old(gw.roles)
      ensures gw.users == old(gw.users) && gw.auditLogs == old(gw.auditLogs)
      ensures gw.files == old(gw.files) && gw.tenantSettings == old(gw.tenantSettings)
      ensures roles == gw.roles && !isLoading
      ensures !isModalOpen && editingRole == None && formPermissions == None && Valid()
    {
      if editingRole.Some? {
        var _ := gw.UpdateRole(editingRole.value.(permissions := formPermissions.value));
      }
      CloseModal();
      LoadRoles(gw);
    }
  }
}
