/** The pieces of the authorization gate that do not touch the database: the
    bearer-header convention, the role allow-lists the routes declare, and the
    per-record visibility rules of the leave and expense listings. */
module Access {

  import opened Records
  import Text

  const BearerPrefix: string := "Bearer "

  /** The eight roles a user's role may be changed to. */
  const ValidRoles: seq<string> :=
    ["super_admin", "main_handler", "admin", "ceo", "hr", "manager", "server", "employee"]

  /** Lead create/update/delete, leave approval, invoice creation, task deletion;
      also the roles that see every leave and expense of their company. */
  const TenantAdmins: seq<string> := ["super_admin", "main_handler", "admin"]

  /** Project create and update. */
  const ProjectEditors: seq<string> := ["super_admin", "main_handler", "admin", "manager"]

  /** User deletion and user creation. */
  const UserManagers: seq<string> := ["super_admin", "main_handler", "admin", "ceo", "hr", "manager"]

  /** Changing a user's role. */
  const RoleEditors: seq<string> := ["super_admin", "main_handler", "admin", "ceo"]

  /** The roles that may act on users of another company. */
  const CrossTenantRoles: seq<string> := ["super_admin", "main_handler"]

  /** The token `get_current_user` hands to the JWT library:
      `auth_header.replace("Bearer ", "")`. */
  function BearerToken(header: string): (token: string)
    ensures |token| <= |header|
    ensures !Text.Occurs(header, BearerPrefix) ==> token == header
  {
    Text.RemoveAll(header, BearerPrefix)
  }

  /** For a well-formed header, `Bearer <token>` with no second `Bearer ` inside
      the token, the token handed on is exactly `<token>`. */
  lemma BearerTokenOfWellFormedHeader(token: string)
    requires !Text.Occurs(token, BearerPrefix)
    ensures Text.StartsWith(BearerPrefix + token, BearerPrefix)
    ensures BearerToken(BearerPrefix + token) == token
  {
    var h := BearerPrefix + token;
    assert h[..|BearerPrefix|] == BearerPrefix;
    assert h[|BearerPrefix|..] == token;
  }

  /** Every copy of the prefix is removed, not only the leading one: a token
      that itself holds `Bearer ` reaches the JWT library with it cut out. */
  lemma BearerTokenCutsEveryPrefix(a: string, b: string)
    requires forall i :: 0 <= i < |a| ==> !Text.StartsWith((a + (BearerPrefix + b))[i..], BearerPrefix)
    requires !Text.Occurs(b, BearerPrefix)
    ensures BearerToken(BearerPrefix + a + BearerPrefix + b) == a + b
  {
    Text.RemoveAllBetween(a, b, BearerPrefix);
  }

  /** The check `require_roles` makes once the user is known. */
  predicate HasRole(user: User, roles: seq<string>) {
    user.role in roles
  }

  /** Whether a user may act on a target user: same company, or a cross-tenant role. */
  predicate MayManage(actor: User, target: User) {
    target.company == actor.company || actor.role in CrossTenantRoles
  }

  /** The allow-lists are nested: a cross-tenant role is a tenant admin, a
      tenant admin may edit projects, a project editor or role editor may
      manage users, and every listed role is one a user may be given. */
  lemma RoleListsNested(user: User)
    ensures HasRole(user, CrossTenantRoles) ==> HasRole(user, TenantAdmins)
    ensures HasRole(user, TenantAdmins) ==> HasRole(user, ProjectEditors) && HasRole(user, RoleEditors)
    ensures HasRole(user, ProjectEditors) ==> HasRole(user, UserManagers)
    ensures HasRole(user, RoleEditors) ==> HasRole(user, UserManagers)
    ensures HasRole(user, UserManagers) ==> HasRole(user, ValidRoles)
    ensures HasRole(user, UserManagers) <==> HasRole(user, ValidRoles) && user.role != "server" && user.role != "employee"
  {
  }

  /** Only the two cross-tenant roles reach users of another company; every
      actor may act on users of its own company, itself included. */
  lemma MayManageScope(actor: User, target: User)
    ensures actor.role in CrossTenantRoles ==> MayManage(actor, target)
    ensures actor.role !in CrossTenantRoles ==> (MayManage(actor, target) <==> target.company == actor.company)
    ensures MayManage(actor, actor)
  {
  }

  /** Leave listing: tenant admins see every leave of their company, anyone else
      only their own. */
  predicate LeaveVisible(viewer: User, l: Leave) {
    l.tenant == viewer.company && (viewer.role in TenantAdmins || l.userId == viewer.id)
  }

  /** Expense listing: tenant admins see every expense of their company, anyone
      else only those they submitted. */
  predicate ExpenseVisible(viewer: User, e: Expense) {
    e.tenant == viewer.company && (viewer.role in TenantAdmins || e.submittedBy == viewer.id)
  }

  function LeaveFilter(viewer: User): Leave -> bool { (l: Leave) => LeaveVisible(viewer, l) }

  function ExpenseFilter(viewer: User): Expense -> bool { (e: Expense) => ExpenseVisible(viewer, e) }
}
