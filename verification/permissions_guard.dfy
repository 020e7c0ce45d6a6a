/** `PermissionsGuard.canActivate`: ALL-of-permissions access control,
    reporting only the permissions the principal lacks. */
module PermissionsGuard {
  import opened Wrappers
  import opened Exceptions
  import opened Strings
  import opened UserTypes

  /** `user.permissions?.includes(p)` is false for every `p` when the list is
      undefined, exactly as for an empty list. */
  function Held(u: Principal): seq<Permission> {
    u.permissions.GetOr([])
  }

  /** `required.every(p => held.includes(p))` */
  function Every(required: seq<Permission>, held: seq<Permission>): bool
    decreases |required|
  {
    |required| == 0 || (required[0] in held && Every(required[1..], held))
  }

  /** `required.filter(p => !held.includes(p))` */
  function Missing(required: seq<Permission>, held: seq<Permission>): seq<Permission>
    decreases |required|
  {
    if |required| == 0 then []
    else if required[0] in held then Missing(required[1..], held)
    else [required[0]] + Missing(required[1..], held)
  }

  lemma {:induction false} EveryIsInclusion(required: seq<Permission>, held: seq<Permission>)
    ensures Every(required, held) <==> forall p :: p in required ==> p in held
    decreases |required|
  {
    if |required| > 0 {
      EveryIsInclusion(required[1..], held);
      assert required == [required[0]] + required[1..];
    }
  }

  /** The missing list holds exactly the required permissions not held. */
  lemma {:induction false} MissingMembers(required: seq<Permission>, held: seq<Permission>)
    ensures forall p :: p in Missing(required, held) <==> p in required && p !in held
    ensures |Missing(required, held)| <= |required|
    decreases |required|
  {
    if |required| > 0 {
      MissingMembers(required[1..], held);
      assert required == [required[0]] + required[1..];
    }
  }

  /** Filtering distributes over concatenation, so the missing list keeps
      the declared order of the requirement. */
  lemma {:induction false} MissingKeepsOrder(a: seq<Permission>, b: seq<Permission>, held: seq<Permission>)
    ensures Missing(a + b, held) == Missing(a, held) + Missing(b, held)
    decreases |a|
  {
    if |a| > 0 {
      assert (a + b)[1..] == a[1..] + b;
      MissingKeepsOrder(a[1..], b, held);
    } else {
      assert a + b == b;
    }
  }

  /** Nothing is missing exactly when everything required is held. */
  lemma MissingEmptyIffEvery(required: seq<Permission>, held: seq<Permission>)
    ensures Missing(required, held) == [] <==> Every(required, held)
  {
    MissingMembers(required, held);
    EveryIsInclusion(required, held);
    if Missing(required, held) != [] {
      assert Missing(required, held)[0] in Missing(required, held);
    }
  }

  function DenialMessage(missing: seq<Permission>): string {
    "Access denied. Missing permissions: " + Join(PermissionValues(missing), ", ")
  }

  /** Returns `Success(true)` or the exception the guard throws; the guard
      never answers `false`. */
  function CanActivate(required: Option<seq<Permission>>, user: Option<Principal>): (r: Result<bool, HttpException>)
    ensures r != Success(false)
    ensures required.None? ==> r == Success(true)
    ensures required.Some? && user.None? ==> r == Failure(Forbidden(NotAuthenticated))
    ensures required.Some? && user.Some? ==>
      (r.Success? <==> forall p :: p in required.value ==> p in Held(user.value))
    ensures required.Some? && user.Some? && r.Failure? ==>
      var missing := Missing(required.value, Held(user.value));
      && missing != []
      && (forall p :: p in missing <==> p in required.value && p !in Held(user.value))
      && r.error == Forbidden(DenialMessage(missing))
  {
    if required.None? then Success(true)
    else if user.None? then Failure(Forbidden(NotAuthenticated))
    else
      var held := Held(user.value);
      EveryIsInclusion(required.value, held);
      MissingEmptyIffEvery(required.value, held);
      MissingMembers(required.value, held);
      if Every(required.value, held) then Success(true)
      else Failure(Forbidden(DenialMessage(Missing(required.value, held))))
  }

  /** Granting more permissions never turns an allowed request away. */
  lemma Monotonic(required: seq<Permission>, u: Principal, v: Principal)
    requires CanActivate(Some(required), Some(u)).Success?
    requires forall p :: p in Held(u) ==> p in Held(v)
    ensures CanActivate(Some(required), Some(v)).Success?
  {
  }

  /** An empty requirement lets any present principal through, but still
      turns away a missing one; an absent requirement lets everybody through. */
  lemma EmptyRequirementIsNotAbsent(u: Principal)
    ensures CanActivate(None, None) == Success(true)
    ensures CanActivate(Some([]), Some(u)) == Success(true)
    ensures CanActivate(Some([]), None) == Failure(Forbidden("User not authenticated"))
  {
  }

  /** The guard's unit-test scenarios, with their exact messages. */
  lemma MissingOneOfTwo(u: Principal)
    requires Held(u) == [READ_USERS]
    ensures CanActivate(Some([READ_USERS, WRITE_USERS]), Some(u)) ==
      Failure(Forbidden("Access denied. Missing permissions: write:users"))
  {
    assert Missing([READ_USERS, WRITE_USERS], Held(u)) == [WRITE_USERS];
    assert PermissionValues([WRITE_USERS]) == ["write:users"];
    assert DenialMessage([WRITE_USERS]) == "Access denied. Missing permissions: write:users";
  }

  lemma MissingAllThree(u: Principal)
    requires Held(u) == [READ_PROFILE]
    ensures CanActivate(Some([READ_USERS, WRITE_USERS, DELETE_USERS]), Some(u)) ==
      Failure(Forbidden("Access denied. Missing permissions: read:users, write:users, delete:users"))
  {
    assert Missing([READ_USERS, WRITE_USERS, DELETE_USERS], Held(u)) == [READ_USERS, WRITE_USERS, DELETE_USERS];
    ThreeMissingText();
  }

  lemma ThreeMissingText()
    ensures DenialMessage([READ_USERS, WRITE_USERS, DELETE_USERS]) ==
      "Access denied. Missing permissions: read:users, write:users, delete:users"
  {
    ThreeMissingValues();
  }

  lemma ThreeMissingValues()
    ensures Join(PermissionValues([READ_USERS, WRITE_USERS, DELETE_USERS]), ", ") ==
      "read:users, write:users, delete:users"
  {
    assert PermissionValues([READ_USERS, WRITE_USERS, DELETE_USERS]) ==
      ["read:users", "write:users", "delete:users"];
    JoinTriple("read:users", "write:users", "delete:users", ", ");
  }

  /** A principal without a permission list is treated as holding none,
      whatever the route requires. */
  lemma UndefinedPermissionsHoldNothing(u: Principal, required: Option<seq<Permission>>)
    requires u.permissions == None
    ensures CanActivate(required, Some(u)) ==
      CanActivate(required, Some(u.(permissions := Some([]))))
    ensures CanActivate(Some([READ_USERS]), Some(u)) ==
      Failure(Forbidden("Access denied. Missing permissions: read:users"))
  {
    assert Missing([READ_USERS], []) == [READ_USERS];
    assert PermissionValues([READ_USERS]) == ["read:users"];
    assert DenialMessage([READ_USERS]) == "Access denied. Missing permissions: read:users";
  }
}
