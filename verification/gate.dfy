/** The two request gates every protected route goes through: `get_current_user`
    (bearer header, token, user lookup) and `require_roles` (the route's role
    allow-list). The JWT library is the oracle `decode`. */
module Gate {

  import opened Records
  import Text
  import Query
  import Access

  /** `get_current_user`: the caller named by the bearer token, or a 401. */
  function CurrentUser(users: seq<User>, decode: string -> Claims, header: string): (r: Result<User>)
    ensures r.Err? ==> r.error.code == 401
    ensures !Text.StartsWith(header, Access.BearerPrefix) ==> r == Err(Error(401, "Not authenticated"))
    ensures Text.StartsWith(header, Access.BearerPrefix) ==>
      match decode(Access.BearerToken(header))
      case Expired => r == Err(Error(401, "Token expired"))
      case Malformed => r == Err(Error(401, "Invalid token"))
      case Decoded(id) =>
        && (r.Ok? <==> exists k :: 0 <= k < |users| && users[k].id == id)
        && (r.Ok? ==> r.value in users && r.value.id == id)
        && (r.Err? ==> r.error == Error(401, "User not found"))
  {
    if !Text.StartsWith(header, Access.BearerPrefix) then Err(Error(401, "Not authenticated"))
    else
      match decode(Access.BearerToken(header))
      case Expired => Err(Error(401, "Token expired"))
      case Malformed => Err(Error(401, "Invalid token"))
      case Decoded(id) =>
        match Query.FindOne(users, UserWithId(id))
        case None => Err(Error(401, "User not found"))
        case Some(u) => Ok(u)
  }

  /** `require_roles(*roles)`: the caller, when their role is in `roles`; a 403
      for an authenticated caller whose role is not; the gate's 401 otherwise. */
  function Authorize(users: seq<User>, decode: string -> Claims, header: string, roles: seq<string>): (r: Result<User>)
    ensures CurrentUser(users, decode, header).Err? ==> r == CurrentUser(users, decode, header)
    ensures CurrentUser(users, decode, header).Ok? ==>
      if CurrentUser(users, decode, header).value.role in roles
      then r == CurrentUser(users, decode, header)
      else r == Err(Error(403, "Insufficient permissions"))
    ensures r.Ok? ==> r.value.role in roles && r.value in users
  {
    match CurrentUser(users, decode, header)
    case Err(e) => Err(e)
    case Ok(u) => if Access.HasRole(u, roles) then Ok(u) else Err(Error(403, "Insufficient permissions"))
  }

  /** A header that does not start with the bearer prefix is refused with 401
      before the user table is consulted: the answer is the same whatever the
      users and the token decoder are. */
  lemma {:induction false} UnauthenticatedWhateverTheUsers(
    a: seq<User>, b: seq<User>, da: string -> Claims, db: string -> Claims, header: string, roles: seq<string>)
    requires !Text.StartsWith(header, Access.BearerPrefix)
    ensures Authorize(a, da, header, roles) == Authorize(b, db, header, roles) == Err(Error(401, "Not authenticated"))
  {
  }

  /** The lead, leave-approval, invoice and task-deletion routes admit exactly
      super_admin, main_handler and admin: every other role is refused with 403. */
  lemma TenantAdminRoutesClosed(users: seq<User>, decode: string -> Claims, header: string)
    requires CurrentUser(users, decode, header).Ok?
    ensures var role := CurrentUser(users, decode, header).value.role;
      Authorize(users, decode, header, Access.TenantAdmins).Ok? <==>
        role == "super_admin" || role == "main_handler" || role == "admin"
  {
  }
}
