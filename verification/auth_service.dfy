/** `AuthService`: the role-to-permissions policy, credential validation,
    token issuance and registration. bcrypt and the JWT service are
    collaborators passed in as values. */
module AuthService {
  import opened Wrappers
  import opened Exceptions
  import opened UserTypes
  import opened UsersService
  import RolesGuard
  import PermissionsGuard

  /** bcrypt: `hash(plaintext, rounds)` and `compare(plaintext, hash)`. */
  datatype Bcrypt = Bcrypt(hash: (string, nat) -> string, compare: (string, string) -> bool)

  /** The JWT service: `sign` embeds the claims and stamps `iat`/`exp`;
      `verify` reads them back. */
  datatype Jwt = Jwt(sign: JwtPayload -> string, verify: string -> Option<JwtPayload>)

  /** The work factor `register` hashes with. */
  const SaltRounds: nat := 10

  /** `compare` accepts a password against its own hash at the work factor used. */
  ghost predicate Sound(b: Bcrypt) {
    forall p :: b.compare(p, b.hash(p, SaltRounds))
  }

  /** `verify` recovers what `sign` embedded, up to the timestamps it adds. */
  ghost predicate Faithful(j: Jwt) {
    forall c :: j.verify(j.sign(c)).Some? && j.verify(j.sign(c)).value.(iat := c.iat, exp := c.exp) == c
  }

  /** `getDefaultPermissions`: ADMIN holds every permission, MANAGER all but
      deleting users and managing the system, USER its own profile, GUEST
      nothing; every list follows the enum's declaration order, so none
      repeats an entry. */
  function DefaultPermissions(role: Role): (r: seq<Permission>)
    ensures role == ADMIN ==> forall p: Permission :: p in r
    ensures role == MANAGER ==> forall p :: p in r <==> p != DELETE_USERS && p != MANAGE_SYSTEM
    ensures role == USER ==> forall p :: p in r <==> p == READ_PROFILE || p == WRITE_PROFILE
    ensures role == GUEST ==> forall p :: p !in r
    ensures forall i, j :: 0 <= i < j < |r| ==> r[i] != r[j]
    ensures forall i, j :: 0 <= i < j < |r| ==> Rank(r[i]) < Rank(r[j])
  {
    match role
    case ADMIN => EnumerationsComplete(); AllPermissions
    case MANAGER => ManagerGrant(); [READ_USERS, WRITE_USERS, READ_PROFILE, WRITE_PROFILE]
    case USER => UserGrant(); [READ_PROFILE, WRITE_PROFILE]
    case GUEST => []
  }

  lemma ManagerGrant()
    ensures forall p :: p in [READ_USERS, WRITE_USERS, READ_PROFILE, WRITE_PROFILE] <==>
      p != DELETE_USERS && p != MANAGE_SYSTEM
  {
    forall p: Permission
      ensures p in [READ_USERS, WRITE_USERS, READ_PROFILE, WRITE_PROFILE] <==>
        p != DELETE_USERS && p != MANAGE_SYSTEM
    {
      match p
      case READ_USERS =>
      case WRITE_USERS =>
      case DELETE_USERS =>
      case READ_PROFILE =>
      case WRITE_PROFILE =>
      case MANAGE_SYSTEM =>
    }
  }

  lemma UserGrant()
    ensures forall p :: p in [READ_PROFILE, WRITE_PROFILE] <==> p == READ_PROFILE || p == WRITE_PROFILE
  {
  }

  /** The roles are ordered by what they are granted: each role's default
      permissions contain those of every role below it. */
  lemma PolicyGrants(p: Permission)
    ensures p in DefaultPermissions(MANAGER) ==> p in DefaultPermissions(ADMIN)
    ensures p in DefaultPermissions(USER) ==> p in DefaultPermissions(MANAGER)
    ensures p in DefaultPermissions(GUEST) ==> p in DefaultPermissions(USER)
    ensures DefaultPermissions(ADMIN) == AllPermissions
  {
  }

  /** `validateUser`: the public view of the user with this email whose
      stored hash matches the password; `None` otherwise, whether the email
      is unknown or the password wrong. `isActive` plays no part. */
  function ValidateUser(s: Store, b: Bcrypt, email: string, password: string): (r: Option<PublicUser>)
    requires Valid(s)
    ensures r.Some? <==>
      exists id :: id in s && s[id].email == email && b.compare(password, s[id].password)
    ensures r.Some? ==> r.value.id in s && r.value == Public(s[r.value.id]) && r.value.email == email
  {
    var user := FindByEmail(s, email);
    if user.None? then None
    else if !b.compare(password, user.value.password) then None
    else Some(Public(user.value))
  }

  /** An unknown email never reaches `compare`: the outcome is `None` for any
      hasher, the same value a wrong password produces. */
  lemma UnknownEmailSkipsCompare(s: Store, b1: Bcrypt, b2: Bcrypt, email: string, p1: string, p2: string)
    requires Valid(s)
    requires !EmailTaken(s, email)
    ensures ValidateUser(s, b1, email, p1) == ValidateUser(s, b2, email, p2) == None
  {
  }

  /** Deactivated users validate exactly as active ones do. */
  lemma ValidateIgnoresIsActive(s: Store, b: Bcrypt, email: string, password: string, id: string, active: bool)
    requires Valid(s) && id in s
    ensures Valid(s[id := s[id].(isActive := active)])
    ensures var r := ValidateUser(s, b, email, password);
      var r' := ValidateUser(s[id := s[id].(isActive := active)], b, email, password);
      && r.Some? == r'.Some?
      && (r.Some? ==> r'.value == r.value.(isActive := if r.value.id == id then active else r.value.isActive))
  {
    var s' := s[id := s[id].(isActive := active)];
    assert forall x :: x in s' ==> s'[x].email == s[x].email && s'[x].password == s[x].password;
  }

  /** The `user` object `login` returns: no `isActive`, no timestamps. */
  datatype UserSummary = UserSummary(
    id: string, email: string, username: string, role: Role, permissions: seq<Permission>)

  datatype LoginResponse = LoginResponse(accessToken: string, user: UserSummary)

  /** The payload `login` signs. */
  function ClaimsOf(u: PublicUser): JwtPayload {
    JwtPayload(u.id, u.email, u.username, u.role, u.permissions, None, None)
  }

  function SummaryOfClaims(c: JwtPayload): UserSummary {
    UserSummary(c.sub, c.email, c.username, c.role, c.permissions)
  }

  /** `login`: Unauthorized without a user; otherwise a token over the
      user's claims, and a summary carrying the same five fields. */
  function Login(user: Option<PublicUser>, j: Jwt): (r: Result<LoginResponse, HttpException>)
    ensures user.None? <==> r.Failure?
    ensures r.Failure? ==> r.error == Unauthorized("Invalid user")
    ensures r.Success? ==>
      var u := user.value;
      && r.value.user == UserSummary(u.id, u.email, u.username, u.role, u.permissions)
      && (Faithful(j) ==>
            && j.verify(r.value.accessToken).Some?
            && SummaryOfClaims(j.verify(r.value.accessToken).value) == r.value.user
            && PrincipalOfClaims(j.verify(r.value.accessToken).value) ==
                 Principal(u.id, u.email, u.username, u.role, Some(u.permissions)))
  {
    if user.None? then Failure(Unauthorized("Invalid user"))
    else
      var u := user.value;
      var claims := ClaimsOf(u);
      Success(LoginResponse(j.sign(claims), SummaryOfClaims(claims)))
  }

  /** `register`: hash the password at the work factor, store the role's
      policy permissions, then log the new user in. The role defaults to USER. */
  function Register(s: Store, b: Bcrypt, j: Jwt, freshId: string,
                    email: string, username: string, password: string, role: Option<Role>)
    : (r: Result<(Store, LoginResponse), HttpException>)
    requires Valid(s) && freshId !in s
    ensures EmailTaken(s, email) <==> r.Failure?
    ensures r.Failure? ==> r.error == Conflict(EmailConflict)
    ensures r.Success? ==>
      var (s', resp) := r.value;
      var granted := role.GetOr(USER);
      && Valid(s')
      && s'.Keys == s.Keys + {freshId}
      && (forall id :: id in s ==> s'[id] == s[id])
      && s'[freshId] == User(freshId, email, username, b.hash(password, SaltRounds), granted,
                             DefaultPermissions(granted), true)
      && resp.user == UserSummary(freshId, email, username, granted, DefaultPermissions(granted))
  {
    var granted := role.GetOr(USER);
    var hashed := b.hash(password, SaltRounds);
    var dto := CreateUserDto(email, username, hashed, granted, Some(DefaultPermissions(granted)));
    var (s', created) :- Create(s, dto, freshId);
    var resp := Login(Some(created), j).value;
    Success((s', resp))
  }

  /** Registering logs in: with a sound hasher, the new credentials
      validate against the new table, and logging in with them yields the
      summary registration returned. */
  lemma RegisterThenLogin(s: Store, b: Bcrypt, j: Jwt, freshId: string,
                          email: string, username: string, password: string, role: Option<Role>)
    requires Valid(s) && freshId !in s
    requires !EmailTaken(s, email)
    requires Sound(b)
    ensures var r := Register(s, b, j, freshId, email, username, password, role);
      && r.Success?
      && ValidateUser(r.value.0, b, email, password) == Some(Public(r.value.0[freshId]))
      && Login(ValidateUser(r.value.0, b, email, password), j).value.user == r.value.1.user
  {
    var (s', resp) := Register(s, b, j, freshId, email, username, password, role).value;
    assert b.compare(password, b.hash(password, SaltRounds));
    assert s'[freshId].email == email;
  }

  /** The principal a registration's token resolves to is let through by
      the role gate for any requirement naming its role, and by the
      permission gate exactly for requirements within its role's policy. */
  lemma RegisteredTokenAuthorizes(s: Store, b: Bcrypt, j: Jwt, freshId: string,
                                  email: string, username: string, password: string, role: Option<Role>,
                                  roles: seq<Role>, required: seq<Permission>)
    requires Valid(s) && freshId !in s
    requires !EmailTaken(s, email)
    requires Faithful(j)
    ensures var r := Register(s, b, j, freshId, email, username, password, role);
      var token := r.value.1.accessToken;
      && r.Success?
      && j.verify(token).Some?
      && var p := PrincipalOfClaims(j.verify(token).value);
      && (RolesGuard.CanActivate(Some(roles), Some(p)).Success? <==> role.GetOr(USER) in roles)
      && (PermissionsGuard.CanActivate(Some(required), Some(p)).Success? <==>
            forall q :: q in required ==> q in DefaultPermissions(role.GetOr(USER)))
  {
    var (s', resp) := Register(s, b, j, freshId, email, username, password, role).value;
    var created := Public(s'[freshId]);
    assert Login(Some(created), j).value == resp;
  }

  /** Registering a MANAGER stores the four manager permissions, and its
      token is turned away from an ADMIN-only role requirement. */
  lemma ManagerRegistration(s: Store, b: Bcrypt, j: Jwt, freshId: string,
                            email: string, username: string, password: string)
    requires Valid(s) && freshId !in s
    requires !EmailTaken(s, email)
    requires Faithful(j)
    ensures var r := Register(s, b, j, freshId, email, username, password, Some(MANAGER));
      && r.Success?
      && r.value.0[freshId].permissions == [READ_USERS, WRITE_USERS, READ_PROFILE, WRITE_PROFILE]
      && var p := PrincipalOfClaims(j.verify(r.value.1.accessToken).value);
      RolesGuard.CanActivate(Some([ADMIN]), Some(p)) ==
        Failure(Forbidden("Access denied. Required roles: admin. Your role: manager"))
  {
    var (s', resp) := Register(s, b, j, freshId, email, username, password, Some(MANAGER)).value;
    assert Login(Some(Public(s'[freshId])), j).value == resp;
    var p := PrincipalOfClaims(j.verify(resp.accessToken).value);
    assert p.role == MANAGER;
    AdminOnlyDenialText();
  }

  lemma AdminOnlyDenialText()
    ensures RolesGuard.DenialMessage([ADMIN], MANAGER) ==
      "Access denied. Required roles: admin. Your role: manager"
  {
    assert RoleValues([ADMIN]) == ["admin"];
  }
}
