/** `UsersController`: the per-route role and permission requirements, the
    class-level guard chain JwtAuth → Roles → Permissions, and the dispatch
    of each route to `UsersService`. */
module UsersController {
  import opened Wrappers
  import opened Exceptions
  import opened UserTypes
  import Users = UsersService
  import RolesGuard
  import PermissionsGuard
  import AuthService

  /** The controller's handlers, in declaration order. */
  datatype Route =
    | Create         // POST   /users
    | FindAll        // GET    /users
    | GetProfile     // GET    /users/profile
    | FindOne        // GET    /users/:id
    | UpdateProfile  // PATCH  /users/profile
    | Update         // PATCH  /users/:id
    | Remove         // DELETE /users/:id
    | Deactivate     // PATCH  /users/:id/deactivate
    | Activate       // PATCH  /users/:id/activate

  /** What `@Roles(...)` and `@RequirePermissions(...)` attach to a route;
      `None` where the decorator is absent. */
  datatype Descriptor = Descriptor(roles: Option<seq<Role>>, permissions: Option<seq<Permission>>)

  /** Every route declares exactly one permission: `read:users` on the two
      reads, `read:profile` and `write:profile` on the profile routes,
      `delete:users` on deletion and `write:users` on every other write;
      `manage:system` guards nothing. Only the two profile routes leave the
      role open; every role list opens with ADMIN, never names USER or
      GUEST, and adds MANAGER, second, on the two reads and on
      deactivation. */
  function DescriptorOf(route: Route): (d: Descriptor)
    ensures d.permissions.Some? && |d.permissions.value| == 1
    ensures d.roles.None? <==> route == GetProfile || route == UpdateProfile
    ensures d.roles.Some? ==>
      ADMIN in d.roles.value && USER !in d.roles.value && GUEST !in d.roles.value
    ensures (d.roles.Some? && MANAGER in d.roles.value) <==>
      route == FindAll || route == FindOne || route == Deactivate
    ensures d.roles.Some? ==>
      d.roles.value[0] == ADMIN && |d.roles.value| == (if MANAGER in d.roles.value then 2 else 1)
    ensures d.permissions.value[0] == READ_USERS <==> route == FindAll || route == FindOne
    ensures d.permissions.value[0] == WRITE_USERS <==>
      route == Create || route == Update || route == Deactivate || route == Activate
    ensures d.permissions.value[0] == DELETE_USERS <==> route == Remove
    ensures d.permissions.value[0] == READ_PROFILE <==> route == GetProfile
    ensures d.permissions.value[0] == WRITE_PROFILE <==> route == UpdateProfile
    ensures d.permissions.value[0] != MANAGE_SYSTEM
  {
    match route
    case Create => Descriptor(Some([ADMIN]), Some([WRITE_USERS]))
    case FindAll => Descriptor(Some([ADMIN, MANAGER]), Some([READ_USERS]))
    case GetProfile => Descriptor(None, Some([READ_PROFILE]))
    case FindOne => Descriptor(Some([ADMIN, MANAGER]), Some([READ_USERS]))
    case UpdateProfile => Descriptor(None, Some([WRITE_PROFILE]))
    case Update => Descriptor(Some([ADMIN]), Some([WRITE_USERS]))
    case Remove => Descriptor(Some([ADMIN]), Some([DELETE_USERS]))
    case Deactivate => Descriptor(Some([ADMIN, MANAGER]), Some([WRITE_USERS]))
    case Activate => Descriptor(Some([ADMIN]), Some([WRITE_USERS]))
  }

  /** `@UseGuards(JwtAuthGuard, RolesGuard, PermissionsGuard)` */
  datatype Guard = JwtAuth | Roles | Permissions

  const GuardChain: seq<Guard> := [JwtAuth, Roles, Permissions]

  /** The bearer-token guard turns a request without a verified principal
      away with Passport's default 401. */
  const Unauthenticated: HttpException := Unauthorized("Unauthorized")

  function RunGuard(g: Guard, d: Descriptor, user: Option<Principal>): (r: Result<bool, HttpException>)
    ensures r != Success(false)
  {
    match g
    case JwtAuth => if user.None? then Failure(Unauthenticated) else Success(true)
    case Roles => RolesGuard.CanActivate(d.roles, user)
    case Permissions => PermissionsGuard.CanActivate(d.permissions, user)
  }

  /** Runs the guards in order; the first one that throws stops the rest. */
  function RunGuards(gs: seq<Guard>, d: Descriptor, user: Option<Principal>): (r: Result<bool, HttpException>)
    ensures r.Success? <==> forall i :: 0 <= i < |gs| ==> RunGuard(gs[i], d, user).Success?
    ensures r.Failure? ==>
      exists i :: && 0 <= i < |gs|
                  && (forall k :: 0 <= k < i ==> RunGuard(gs[k], d, user).Success?)
                  && RunGuard(gs[i], d, user) == r
    decreases |gs|
  {
    if |gs| == 0 then Success(true)
    else
      var first := RunGuard(gs[0], d, user);
      if first.Failure? then first
      else
        var rest := RunGuards(gs[1..], d, user);
        if rest.Failure? then
          var i :| 0 <= i < |gs| - 1
            && (forall k :: 0 <= k < i ==> RunGuard(gs[1..][k], d, user).Success?)
            && RunGuard(gs[1..][i], d, user) == rest;
          assert forall k :: 0 <= k < i + 1 ==> RunGuard(gs[k], d, user).Success? by {
            forall k | 0 <= k < i + 1
              ensures RunGuard(gs[k], d, user).Success?
            {
              if k > 0 { assert gs[k] == gs[1..][k - 1]; }
            }
          }
          rest
        else
          assert forall i :: 1 <= i < |gs| ==> gs[i] == gs[1..][i - 1];
          Success(true)
  }

  predicate RoleAdmits(d: Descriptor, p: Principal) {
    d.roles.None? || p.role in d.roles.value
  }

  predicate PermissionsAdmit(d: Descriptor, p: Principal) {
    d.permissions.None? || forall q :: q in d.permissions.value ==> q in PermissionsGuard.Held(p)
  }

  /** The guard chain of a route: the principal it lets through, or the
      exception of the first guard that refuses. Once the token guard has
      passed, "User not authenticated" can no longer occur. */
  function Authorize(route: Route, user: Option<Principal>): (r: Result<Principal, HttpException>)
    ensures user.None? ==> r == Failure(Unauthenticated)
    ensures user.Some? ==>
      var d := DescriptorOf(route);
      var p := user.value;
      && (r.Success? <==> RoleAdmits(d, p) && PermissionsAdmit(d, p))
      && (r.Success? ==> r.value == p)
      && (!RoleAdmits(d, p) ==> r == Failure(Forbidden(RolesGuard.DenialMessage(d.roles.value, p.role))))
      && (RoleAdmits(d, p) && !PermissionsAdmit(d, p) ==>
            r == Failure(Forbidden(PermissionsGuard.DenialMessage(
                   PermissionsGuard.Missing(d.permissions.value, PermissionsGuard.Held(p))))))
    ensures r != Failure(Forbidden("User not authenticated"))
  {
    var d := DescriptorOf(route);
    var verdict := RunGuards(GuardChain, d, user);
    assert RunGuard(GuardChain[0], d, user) == RunGuard(JwtAuth, d, user);
    assert RunGuard(GuardChain[1], d, user) == RunGuard(Roles, d, user);
    assert RunGuard(GuardChain[2], d, user) == RunGuard(Permissions, d, user);
    if verdict.Failure? then Failure(verdict.error) else Success(user.value)
  }

  /** What a route handler reads from the request: the `:id` path
      parameter, the body, and the id the database will assign on insert. */
  datatype Request = Request(
    id: string,
    createBody: Users.CreateUserDto,
    updateBody: Users.UpdateUserDto,
    freshId: string)

  datatype Response = UserList(users: set<PublicUser>) | OneUser(user: PublicUser) | NoContent

  /** The row a handler acts on: the caller's own for the profile routes,
      the `:id` path parameter for every other route that takes one. */
  function Target(route: Route, p: Principal, req: Request): string {
    if route == GetProfile || route == UpdateProfile then p.id else req.id
  }

  /** The handlers, each calling its `UsersService` operation on its target
      row. */
  function Handle(route: Route, p: Principal, s: Users.Store, req: Request): (r: Result<(Users.Store, Response), HttpException>)
    requires Users.Valid(s) && req.freshId !in s
    ensures r.Success? ==> Users.Valid(r.value.0)
    ensures (route == GetProfile || route == FindOne) && r.Success? ==> r.value.0 == s
    ensures route == Create ==>
      && (r.Success? <==> !Users.EmailTaken(s, req.createBody.email))
      && (r.Failure? ==> r.error == Conflict(Users.EmailConflict))
      && (r.Success? ==>
            && r.value.0.Keys == s.Keys + {req.freshId}
            && (forall id :: id in s ==> r.value.0[id] == s[id])
            && r.value.0[req.freshId] == User(req.freshId, req.createBody.email, req.createBody.username,
                 req.createBody.password, req.createBody.role, req.createBody.permissions.GetOr([]), true)
            && r.value.1 == OneUser(Public(r.value.0[req.freshId])))
    ensures route == FindAll ==> r == Success((s, UserList(Users.FindAll(s))))
    ensures route == GetProfile || route == FindOne ==>
      var id := Target(route, p, req);
      && (r.Success? <==> id in s)
      && (r.Failure? ==> r.error == NotFound(Users.NotFoundMessage(id)))
      && (r.Success? ==> r.value.1 == OneUser(Public(s[id])))
    ensures route == UpdateProfile || route == Update ==>
      var id := Target(route, p, req);
      && (id !in s ==> r == Failure(NotFound(Users.NotFoundMessage(id))))
      && (id in s ==> (r.Success? <==> !Users.EmailClash(s, id, req.updateBody)))
      && (id in s && r.Failure? ==> r.error == UniqueViolation)
      && (r.Success? ==>
            && id in s
            && r.value.0.Keys == s.Keys
            && (forall other :: other in s && other != id ==> r.value.0[other] == s[other])
            && r.value.0[id] == Users.ApplyPatch(s[id], req.updateBody)
            && r.value.1 == OneUser(Public(r.value.0[id])))
    ensures route == Remove ==>
      && (r.Success? <==> req.id in s)
      && (r.Failure? ==> r.error == NotFound(Users.NotFoundMessage(req.id)))
      && (r.Success? ==>
            && r.value.0.Keys == s.Keys - {req.id}
            && (forall other :: other in r.value.0 ==> r.value.0[other] == s[other])
            && r.value.1 == NoContent)
    ensures route == Deactivate || route == Activate ==>
      && (r.Success? <==> req.id in s)
      && (r.Failure? ==> r.error == NotFound(Users.NotFoundMessage(req.id)))
      && (r.Success? ==>
            && r.value.0 == s[req.id := s[req.id].(isActive := route == Activate)]
            && r.value.1 == OneUser(Public(r.value.0[req.id])))
  {
    match route
    case Create =>
      var (s', u) :- Users.Create(s, req.createBody, req.freshId);
      Success((s', OneUser(u)))
    case FindAll => Success((s, UserList(Users.FindAll(s))))
    case GetProfile =>
      var u :- Users.FindById(s, p.id);
      Success((s, OneUser(u)))
    case FindOne =>
      var u :- Users.FindById(s, req.id);
      Success((s, OneUser(u)))
    case UpdateProfile =>
      var (s', u) :- Users.Update(s, p.id, req.updateBody);
      Success((s', OneUser(u)))
    case Update =>
      var (s', u) :- Users.Update(s, req.id, req.updateBody);
      Success((s', OneUser(u)))
    case Remove =>
      var s' :- Users.Remove(s, req.id);
      Success((s', NoContent))
    case Deactivate =>
      var (s', u) :- Users.Deactivate(s, req.id);
      Success((s', OneUser(u)))
    case Activate =>
      var (s', u) :- Users.Activate(s, req.id);
      Success((s', OneUser(u)))
  }

  /** A request end to end: guards first, then the handler. A refused
      request reports the guard's exception and the handler never runs, so
      the table is untouched. */
  function Serve(route: Route, user: Option<Principal>, s: Users.Store, req: Request)
    : (r: Result<(Users.Store, Response), HttpException>)
    requires Users.Valid(s) && req.freshId !in s
    ensures Authorize(route, user).Failure? ==> r == Failure(Authorize(route, user).error)
    ensures Authorize(route, user).Success? ==> r == Handle(route, user.value, s, req)
    ensures r.Success? ==> Users.Valid(r.value.0)
  {
    var p :- Authorize(route, user);
    Handle(route, p, s, req)
  }

  // ---------------------------------------------------------------------
  // Who can do what

  /** The access matrix the end-to-end tests assert, for users holding
      their role's default permissions. */
  predicate MayAccess(role: Role, route: Route) {
    match role
    case ADMIN => true
    case MANAGER => route in {FindAll, GetProfile, FindOne, UpdateProfile, Deactivate}
    case USER => route == GetProfile || route == UpdateProfile
    case GUEST => false
  }

  function WithDefaults(p: Principal): Principal {
    p.(permissions := Some(AuthService.DefaultPermissions(p.role)))
  }

  /** With default permissions the guard chain admits exactly the matrix:
      a USER reaches only the profile routes, a MANAGER is refused creation,
      deletion, update-by-id and activation, an ADMIN reaches everything,
      and a GUEST nothing. */
  lemma AccessMatrix(route: Route, p: Principal)
    ensures Authorize(route, Some(WithDefaults(p))).Success? <==> MayAccess(p.role, route)
  {
    var q := WithDefaults(p);
    var d := DescriptorOf(route);
    if d.permissions.Some? && |d.permissions.value| == 1 {
      assert PermissionsAdmit(d, q) <==> d.permissions.value[0] in PermissionsGuard.Held(q);
    }
  }

  /** Every route declares at least one permission, so a principal holding
      none is refused everywhere, whatever its role. */
  lemma NoPermissionsNoAccess(route: Route, p: Principal)
    requires PermissionsGuard.Held(p) == []
    ensures Authorize(route, Some(p)).Failure?
  {
    var d := DescriptorOf(route);
    assert d.permissions.value[0] in d.permissions.value;
  }

  /** The profile routes read and patch the caller's own row: the `:id` in
      the request is ignored. */
  lemma ProfileActsOnOwnRow(p: Principal, s: Users.Store, req: Request, otherId: string)
    requires Users.Valid(s) && req.freshId !in s
    requires Authorize(UpdateProfile, Some(p)).Success?
    ensures Serve(UpdateProfile, Some(p), s, req) == Serve(UpdateProfile, Some(p), s, req.(id := otherId))
    ensures Serve(UpdateProfile, Some(p), s, req).Success? <==> Users.Update(s, p.id, req.updateBody).Success?
    ensures Serve(UpdateProfile, Some(p), s, req).Success? ==>
      Serve(UpdateProfile, Some(p), s, req).value.0 == Users.Update(s, p.id, req.updateBody).value.0
  {
  }

  /** Deactivation is open to managers but activation is not: a MANAGER
      with default permissions can switch a user off and cannot switch it
      back on. */
  lemma DeactivateActivateAsymmetry(p: Principal)
    requires p.role == MANAGER
    ensures Authorize(Deactivate, Some(WithDefaults(p))).Success?
    ensures Authorize(Activate, Some(WithDefaults(p))) ==
      Failure(Forbidden(RolesGuard.DenialMessage([ADMIN], MANAGER)))
  {
  }

  /** End to end: whoever registers with a role and presents the token
      registration returned reaches exactly the routes the matrix grants
      that role. */
  lemma RegisteredAccess(s: Users.Store, b: AuthService.Bcrypt, j: AuthService.Jwt, freshId: string,
                         email: string, username: string, password: string, role: Option<Role>,
                         route: Route)
    requires Users.Valid(s) && freshId !in s
    requires !Users.EmailTaken(s, email)
    requires AuthService.Faithful(j)
    ensures var r := AuthService.Register(s, b, j, freshId, email, username, password, role);
      && r.Success?
      && j.verify(r.value.1.accessToken).Some?
      && var p := PrincipalOfClaims(j.verify(r.value.1.accessToken).value);
      Authorize(route, Some(p)).Success? <==> MayAccess(role.GetOr(USER), route)
  {
    var (s', resp) := AuthService.Register(s, b, j, freshId, email, username, password, role).value;
    assert AuthService.Login(Some(Public(s'[freshId])), j).value == resp;
    var p := PrincipalOfClaims(j.verify(resp.accessToken).value);
    assert p == WithDefaults(p);
    AccessMatrix(route, p);
  }
}
