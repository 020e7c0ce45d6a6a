/** `UsersService` over the user table, modelled as a map from id to
    record. Every operation returns the new table alongside its result, and
    every value it hands back is the password-free view. */
module UsersService {
  import opened Wrappers
  import opened Exceptions
  import opened UserTypes

  type Store = map<string, User>

  /** What the table guarantees: each row sits under its own id, and no two
      rows share an email (the unique email column). */
  predicate Valid(s: Store) {
    && (forall id :: id in s ==> s[id].id == id)
    && (forall a, b :: a in s && b in s && s[a].email == s[b].email ==> a == b)
  }

  predicate EmailTaken(s: Store, email: string) {
    exists id :: id in s && s[id].email == email
  }

  const EmailConflict: string := "User with this email already exists"

  function NotFoundMessage(id: string): string {
    "User with ID " + id + " not found"
  }

  /** `CreateUserDto`; `permissions` is optional. */
  datatype CreateUserDto = CreateUserDto(
    email: string,
    username: string,
    password: string,
    role: Role,
    permissions: Option<seq<Permission>>)

  /** The field patch `update` writes: every field optional. */
  datatype UpdateUserDto = UpdateUserDto(
    email: Option<string>,
    username: Option<string>,
    password: Option<string>,
    role: Option<Role>,
    permissions: Option<seq<Permission>>,
    isActive: Option<bool>)

  const NoChanges: UpdateUserDto := UpdateUserDto(None, None, None, None, None, None)

  /** `findOne({ where: { email } })`: the stored record itself, password
      included, or `None`. */
  function FindByEmail(s: Store, email: string): (r: Option<User>)
    requires Valid(s)
    ensures r.Some? <==> EmailTaken(s, email)
    ensures r.Some? ==> r.value.id in s && s[r.value.id] == r.value && r.value.email == email
  {
    if EmailTaken(s, email) then
      var id :| id in s && s[id].email == email;
      Some(s[id])
    else None
  }

  /** `create`: refuses a taken email, otherwise stores the record under the
      fresh id the database assigns, with the given permissions or none. */
  function Create(s: Store, dto: CreateUserDto, freshId: string): (r: Result<(Store, PublicUser), HttpException>)
    requires Valid(s)
    requires freshId !in s
    ensures EmailTaken(s, dto.email) <==> r.Failure?
    ensures r.Failure? ==> r.error == Conflict(EmailConflict)
    ensures r.Success? ==>
      var (s', u) := r.value;
      && Valid(s')
      && s'.Keys == s.Keys + {freshId}
      && (forall id :: id in s ==> s'[id] == s[id])
      && s'[freshId].password == dto.password
      && u == Public(s'[freshId])
      && u.id == freshId && u.email == dto.email && u.username == dto.username
      && u.role == dto.role && u.isActive
      && u.permissions == (if dto.permissions.Some? then dto.permissions.value else [])
  {
    if FindByEmail(s, dto.email).Some? then
      Failure(Conflict(EmailConflict))
    else
      var user := User(freshId, dto.email, dto.username, dto.password, dto.role,
                       dto.permissions.GetOr([]), true);
      var s' := s[freshId := user];
      Success((s', Public(user)))
  }

  /** `findAll`: every row, without its password. */
  function FindAll(s: Store): set<PublicUser> {
    set id | id in s :: Public(s[id])
  }

  /** `findAll` lists every row once: one public view per stored id. */
  lemma FindAllListsEveryRow(s: Store)
    requires Valid(s)
    ensures forall id :: id in s ==> Public(s[id]) in FindAll(s)
    ensures forall u :: u in FindAll(s) ==> u.id in s && Public(s[u.id]) == u
    ensures |FindAll(s)| == |s|
  {
    FindAllSize(s);
  }

  lemma {:induction false} FindAllSize(s: Store)
    requires forall id :: id in s ==> s[id].id == id
    ensures |FindAll(s)| == |s|
    decreases |s|
  {
    if s != map[] {
      var k :| k in s;
      var t := s - {k};
      assert t.Keys == s.Keys - {k};
      assert |t| == |s| - 1;
      FindAllSize(t);
      assert FindAll(s) == FindAll(t) + {Public(s[k])} by {
        forall u | u in FindAll(s)
          ensures u in FindAll(t) + {Public(s[k])}
        {
          var id :| id in s && u == Public(s[id]);
          if id != k {
            assert id in t;
          }
        }
      }
      assert Public(s[k]) !in FindAll(t);
    } else {
      assert FindAll(s) == {};
    }
  }

  /** `findById` */
  function FindById(s: Store, id: string): (r: Result<PublicUser, HttpException>)
    ensures id !in s <==> r.Failure?
    ensures r.Failure? ==> r.error == NotFound(NotFoundMessage(id))
    ensures r.Success? ==> WithPassword(r.value, s[id].password) == s[id]
  {
    if id in s then Success(Public(s[id])) else Failure(NotFound(NotFoundMessage(id)))
  }

  /** The row after `repository.update(id, dto)`: patched fields replaced,
      every other field, permissions included, left as stored. */
  function ApplyPatch(u: User, patch: UpdateUserDto): User {
    User(u.id,
         patch.email.GetOr(u.email),
         patch.username.GetOr(u.username),
         patch.password.GetOr(u.password),
         patch.role.GetOr(u.role),
         patch.permissions.GetOr(u.permissions),
         patch.isActive.GetOr(u.isActive))
  }

  /** Would the patch give the row an email another row already has? */
  predicate EmailClash(s: Store, id: string, patch: UpdateUserDto) {
    patch.email.Some? && exists other :: other in s && other != id && s[other].email == patch.email.value
  }

  /** `update`: NotFound for an unknown id; otherwise the row is patched and
      re-read. An email the table already holds under another id is refused
      by the unique column. */
  function Update(s: Store, id: string, patch: UpdateUserDto): (r: Result<(Store, PublicUser), HttpException>)
    ensures id !in s ==> r == Failure(NotFound(NotFoundMessage(id)))
    ensures id in s && EmailClash(s, id, patch) ==> r == Failure(UniqueViolation)
    ensures id in s && !EmailClash(s, id, patch) ==> r.Success?
    ensures r.Success? ==>
      var (s', u) := r.value;
      && id in s && s'.Keys == s.Keys
      && (forall other :: other in s && other != id ==> s'[other] == s[other])
      && u == Public(s'[id])
      && s'[id].id == s[id].id
      && s'[id].email == (if patch.email.Some? then patch.email.value else s[id].email)
      && s'[id].username == (if patch.username.Some? then patch.username.value else s[id].username)
      && s'[id].password == (if patch.password.Some? then patch.password.value else s[id].password)
      && s'[id].role == (if patch.role.Some? then patch.role.value else s[id].role)
      && s'[id].permissions == (if patch.permissions.Some? then patch.permissions.value else s[id].permissions)
      && s'[id].isActive == (if patch.isActive.Some? then patch.isActive.value else s[id].isActive)
      && (Valid(s) ==> Valid(s'))
  {
    if id !in s then Failure(NotFound(NotFoundMessage(id)))
    else if EmailClash(s, id, patch) then Failure(UniqueViolation)
    else
      var s' := s[id := ApplyPatch(s[id], patch)];
      Success((s', Public(s'[id])))
  }

  /** `remove`: NotFound for an unknown id; otherwise the row is deleted. */
  function Remove(s: Store, id: string): (r: Result<Store, HttpException>)
    ensures id !in s <==> r.Failure?
    ensures r.Failure? ==> r.error == NotFound(NotFoundMessage(id))
    ensures r.Success? ==>
      && r.value.Keys == s.Keys - {id}
      && (forall other :: other in r.value ==> r.value[other] == s[other])
      && (Valid(s) ==> Valid(r.value))
  {
    if id !in s then Failure(NotFound(NotFoundMessage(id)))
    else Success(s - {id})
  }

  function ActivePatch(active: bool): UpdateUserDto {
    NoChanges.(isActive := Some(active))
  }

  /** `deactivate` is `update(id, { isActive: false })`. */
  function Deactivate(s: Store, id: string): (r: Result<(Store, PublicUser), HttpException>)
    ensures id !in s <==> r.Failure?
    ensures r.Failure? ==> r.error == NotFound(NotFoundMessage(id))
    ensures r.Success? ==>
      && r.value.0 == s[id := s[id].(isActive := false)]
      && !r.value.1.isActive
      && r.value.1 == Public(r.value.0[id])
  {
    Update(s, id, ActivePatch(false))
  }

  /** `activate` is `update(id, { isActive: true })`. */
  function Activate(s: Store, id: string): (r: Result<(Store, PublicUser), HttpException>)
    ensures id !in s <==> r.Failure?
    ensures r.Failure? ==> r.error == NotFound(NotFoundMessage(id))
    ensures r.Success? ==>
      && r.value.0 == s[id := s[id].(isActive := true)]
      && r.value.1.isActive
      && r.value.1 == Public(r.value.0[id])
  {
    Update(s, id, ActivePatch(true))
  }

  // ---------------------------------------------------------------------
  // Properties relating several calls

  /** Changing a user's role leaves the stored permissions as they were:
      `update` never recomputes them from the role. */
  lemma RoleChangeKeepsPermissions(s: Store, id: string, role: Role)
    requires id in s
    ensures var r := Update(s, id, NoChanges.(role := Some(role)));
      && r.Success?
      && r.value.1.role == role
      && r.value.1.permissions == s[id].permissions
  {
  }

  /** After `remove(id)`, `findById(id)` is NotFound and every other row
      reads as before. */
  lemma RemoveThenFind(s: Store, id: string, other: string)
    requires id in s
    ensures Remove(s, id).Success?
    ensures FindById(Remove(s, id).value, id) == Failure(NotFound(NotFoundMessage(id)))
    ensures other != id ==> FindById(Remove(s, id).value, other) == FindById(s, other)
  {
  }

  /** Deactivating twice is deactivating once, and likewise activating;
      neither is an error on a row already in that state. */
  lemma ToggleIdempotent(s: Store, id: string)
    requires id in s
    ensures var once := Deactivate(s, id).value.0;
      Deactivate(once, id).Success? && Deactivate(once, id).value.0 == once
    ensures var once := Activate(s, id).value.0;
      Activate(once, id).Success? && Activate(once, id).value.0 == once
  {
    var d := Deactivate(s, id).value.0;
    assert d[id := d[id].(isActive := false)] == d;
    var a := Activate(s, id).value.0;
    assert a[id := a[id].(isActive := true)] == a;
  }

  /** Create, then find by the email: the record comes back under the new
      id, and `findById` returns the view `create` returned. */
  lemma CreateThenFind(s: Store, dto: CreateUserDto, freshId: string)
    requires Valid(s) && freshId !in s
    requires !EmailTaken(s, dto.email)
    ensures var (s', u) := Create(s, dto, freshId).value;
      && FindByEmail(s', dto.email) == Some(s'[freshId])
      && FindById(s', freshId) == Success(u)
  {
  }
}
