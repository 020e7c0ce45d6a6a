/** The shared vocabulary: the two enumerations with their wire strings, the
    stored user record, its password-free public view, the token claims and
    the principal a verified token yields. */
module UserTypes {
  import opened Wrappers

  datatype Role = ADMIN | MANAGER | USER | GUEST

  datatype Permission =
    READ_USERS | WRITE_USERS | DELETE_USERS | READ_PROFILE | WRITE_PROFILE | MANAGE_SYSTEM

  /** The string value of each `UserRole` member. */
  function RoleValue(r: Role): string {
    match r
    case ADMIN => "admin"
    case MANAGER => "manager"
    case USER => "user"
    case GUEST => "guest"
  }

  /** The string value of each `Permission` member. */
  function PermissionValue(p: Permission): string {
    match p
    case READ_USERS => "read:users"
    case WRITE_USERS => "write:users"
    case DELETE_USERS => "delete:users"
    case READ_PROFILE => "read:profile"
    case WRITE_PROFILE => "write:profile"
    case MANAGE_SYSTEM => "manage:system"
  }

  /** `Object.values(UserRole)`, in declaration order. */
  const AllRoles: seq<Role> := [ADMIN, MANAGER, USER, GUEST]

  /** `Object.values(Permission)`, in declaration order. */
  const AllPermissions: seq<Permission> :=
    [READ_USERS, WRITE_USERS, DELETE_USERS, READ_PROFILE, WRITE_PROFILE, MANAGE_SYSTEM]

  /** A permission's position in the `Permission` enum's declaration. */
  function Rank(p: Permission): nat {
    match p
    case READ_USERS => 0
    case WRITE_USERS => 1
    case DELETE_USERS => 2
    case READ_PROFILE => 3
    case WRITE_PROFILE => 4
    case MANAGE_SYSTEM => 5
  }

  /** Reading a role back from its wire string, as a request body or a
      database column carries it: the string must be one of the enum values. */
  function ParseRole(s: string): (r: Option<Role>)
    ensures r.Some? ==> RoleValue(r.value) == s
  {
    if s == "admin" then Some(ADMIN)
    else if s == "manager" then Some(MANAGER)
    else if s == "user" then Some(USER)
    else if s == "guest" then Some(GUEST)
    else None
  }

  function ParsePermission(s: string): (r: Option<Permission>)
    ensures r.Some? ==> PermissionValue(r.value) == s
  {
    if s == "read:users" then Some(READ_USERS)
    else if s == "write:users" then Some(WRITE_USERS)
    else if s == "delete:users" then Some(DELETE_USERS)
    else if s == "read:profile" then Some(READ_PROFILE)
    else if s == "write:profile" then Some(WRITE_PROFILE)
    else if s == "manage:system" then Some(MANAGE_SYSTEM)
    else None
  }

  function RoleValues(rs: seq<Role>): (ws: seq<string>)
    ensures |ws| == |rs|
    ensures forall i :: 0 <= i < |rs| ==> ws[i] == RoleValue(rs[i])
  {
    seq(|rs|, i requires 0 <= i < |rs| => RoleValue(rs[i]))
  }

  function PermissionValues(ps: seq<Permission>): (ws: seq<string>)
    ensures |ws| == |ps|
    ensures forall i :: 0 <= i < |ps| ==> ws[i] == PermissionValue(ps[i])
  {
    seq(|ps|, i requires 0 <= i < |ps| => PermissionValue(ps[i]))
  }

  /** The user table's row (timestamps left out). */
  datatype User = User(
    id: string,
    email: string,
    username: string,
    password: string,
    role: Role,
    permissions: seq<Permission>,
    isActive: bool)

  /** `User` without `password`. */
  datatype PublicUser = PublicUser(
    id: string,
    email: string,
    username: string,
    role: Role,
    permissions: seq<Permission>,
    isActive: bool)

  /** `const { password, ...rest } = user`: the only view that leaves the services. */
  function Public(u: User): PublicUser {
    PublicUser(u.id, u.email, u.username, u.role, u.permissions, u.isActive)
  }

  /** Puts a password back onto a public view; the inverse of `Public`. */
  function WithPassword(p: PublicUser, password: string): User {
    User(p.id, p.email, p.username, password, p.role, p.permissions, p.isActive)
  }

  /** The claims signed into an access token; `iat` and `exp` are optional. */
  datatype JwtPayload = JwtPayload(
    sub: string,
    email: string,
    username: string,
    role: Role,
    permissions: seq<Permission>,
    iat: Option<int>,
    exp: Option<int>)

  /** `request.user` as the guards see it. The guards read `user.permissions?`,
      so the list may be absent. */
  datatype Principal = Principal(
    id: string,
    email: string,
    username: string,
    role: Role,
    permissions: Option<seq<Permission>>)

  /** The principal that a verified token's claims resolve to. */
  function PrincipalOfClaims(c: JwtPayload): Principal {
    Principal(c.sub, c.email, c.username, c.role, Some(c.permissions))
  }

  // ---------------------------------------------------------------------
  // Properties of the vocabulary

  /** The four role strings are pairwise distinct, and each decodes back to
      its role: the wire string identifies the role. */
  lemma RoleValueRoundTrip(r: Role)
    ensures ParseRole(RoleValue(r)) == Some(r)
    ensures forall r' :: RoleValue(r') == RoleValue(r) ==> r' == r
  {
    forall r' | RoleValue(r') == RoleValue(r)
      ensures r' == r
    {
      assert ParseRole(RoleValue(r')) == ParseRole(RoleValue(r));
    }
  }

  /** The six permission strings are pairwise distinct, and each decodes
      back to its permission. */
  lemma PermissionValueRoundTrip(p: Permission)
    ensures ParsePermission(PermissionValue(p)) == Some(p)
    ensures forall p' :: PermissionValue(p') == PermissionValue(p) ==> p' == p
  {
    forall p' | PermissionValue(p') == PermissionValue(p)
      ensures p' == p
    {
      assert ParsePermission(PermissionValue(p')) == ParsePermission(PermissionValue(p));
    }
  }

  /** `Object.values(Permission)` lists every permission exactly once, in
      declaration order; likewise for roles. */
  lemma EnumerationsComplete()
    ensures |AllPermissions| == 6 && |AllRoles| == 4
    ensures forall p: Permission :: p in AllPermissions
    ensures forall r: Role :: r in AllRoles
    ensures forall i, j :: 0 <= i < j < |AllPermissions| ==> AllPermissions[i] != AllPermissions[j]
    ensures forall i, j :: 0 <= i < j < |AllRoles| ==> AllRoles[i] != AllRoles[j]
    ensures PermissionValues(AllPermissions) ==
      ["read:users", "write:users", "delete:users", "read:profile", "write:profile", "manage:system"]
    ensures RoleValues(AllRoles) == ["admin", "manager", "user", "guest"]
  {
    forall p: Permission
      ensures p in AllPermissions
    {
      match p
      case READ_USERS => assert AllPermissions[0] == p;
      case WRITE_USERS => assert AllPermissions[1] == p;
      case DELETE_USERS => assert AllPermissions[2] == p;
      case READ_PROFILE => assert AllPermissions[3] == p;
      case WRITE_PROFILE => assert AllPermissions[4] == p;
      case MANAGE_SYSTEM => assert AllPermissions[5] == p;
    }
    forall r: Role
      ensures r in AllRoles
    {
      match r
      case ADMIN => assert AllRoles[0] == r;
      case MANAGER => assert AllRoles[1] == r;
      case USER => assert AllRoles[2] == r;
      case GUEST => assert AllRoles[3] == r;
    }
  }

  /** `PublicUser` is exactly `User` minus `password`: stripping then
      restoring the password gives back the record, and restoring then
      stripping gives back the view. */
  lemma PublicViewRoundTrip(u: User, p: PublicUser, pw: string)
    ensures WithPassword(Public(u), u.password) == u
    ensures Public(WithPassword(p, pw)) == p
    ensures Public(u) == Public(u.(password := pw))
  {
  }
}
