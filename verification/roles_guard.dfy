/** `RolesGuard.canActivate`: ANY-of-roles access control. The requirement
    is `None` when the route declares no `@Roles`, and `Some(rs)` otherwise
    (`Some([])` for a bare `@Roles()`, which is not a skip). */
module RolesGuard {
  import opened Wrappers
  import opened Exceptions
  import opened Strings
  import opened UserTypes

  function DenialMessage(required: seq<Role>, actual: Role): string {
    "Access denied. Required roles: " + Join(RoleValues(required), ", ")
      + ". Your role: " + RoleValue(actual)
  }

  /** `requiredRoles.some((role) => user.role === role)` */
  function AnyMatches(required: seq<Role>, actual: Role): bool
    decreases |required|
  {
    |required| > 0 && (required[0] == actual || AnyMatches(required[1..], actual))
  }

  lemma {:induction false} AnyMatchesIsMembership(required: seq<Role>, actual: Role)
    ensures AnyMatches(required, actual) <==> actual in required
    decreases |required|
  {
    if |required| > 0 {
      AnyMatchesIsMembership(required[1..], actual);
      assert required == [required[0]] + required[1..];
    }
  }

  /** Returns `Success(true)` or the exception the guard throws; the guard
      never answers `false`. */
  function CanActivate(required: Option<seq<Role>>, user: Option<Principal>): (r: Result<bool, HttpException>)
    ensures r != Success(false)
    ensures required.None? ==> r == Success(true)
    ensures required.Some? && user.None? ==> r == Failure(Forbidden(NotAuthenticated))
    ensures required.Some? && user.Some? ==>
      (r.Success? <==> user.value.role in required.value)
    ensures required.Some? && user.Some? && r.Failure? ==>
      r.error == Forbidden(DenialMessage(required.value, user.value.role))
  {
    if required.None? then Success(true)
    else if user.None? then Failure(Forbidden(NotAuthenticated))
    else
      AnyMatchesIsMembership(required.value, user.value.role);
      if AnyMatches(required.value, user.value.role) then Success(true)
      else Failure(Forbidden(DenialMessage(required.value, user.value.role)))
  }

  /** An absent requirement and an empty one are different: the first lets
      everybody through, even without a principal; the second turns away
      every principal with an empty role list in the message. */
  lemma EmptyRequirementIsNotAbsent(u: Principal)
    ensures CanActivate(None, None) == Success(true)
    ensures CanActivate(None, Some(u)) == Success(true)
    ensures CanActivate(Some([]), Some(u)) ==
      Failure(Forbidden("Access denied. Required roles: . Your role: " + RoleValue(u.role)))
    ensures CanActivate(Some([]), None) == Failure(Forbidden("User not authenticated"))
  {
    assert Join(RoleValues([]), ", ") == "";
    assert DenialMessage([], u.role) == "Access denied. Required roles: . Your role: " + RoleValue(u.role);
  }

  /** The guard's unit-test scenarios, with their exact messages. */
  lemma UserDeniedAdminRoute(u: Principal)
    requires u.role == USER
    ensures CanActivate(Some([ADMIN]), Some(u)) ==
      Failure(Forbidden("Access denied. Required roles: admin. Your role: user"))
  {
    assert RoleValues([ADMIN]) == ["admin"];
    assert Join(["admin"], ", ") == "admin";
    assert DenialMessage([ADMIN], USER) == "Access denied. Required roles: admin. Your role: user";
  }

  lemma GuestDeniedStaffRoute(u: Principal)
    requires u.role == GUEST
    ensures CanActivate(Some([ADMIN, MANAGER]), Some(u)) ==
      Failure(Forbidden("Access denied. Required roles: admin, manager. Your role: guest"))
  {
    StaffDenialText();
  }

  lemma StaffDenialText()
    ensures DenialMessage([ADMIN, MANAGER], GUEST) ==
      "Access denied. Required roles: admin, manager. Your role: guest"
  {
    assert RoleValues([ADMIN, MANAGER]) == ["admin", "manager"];
    JoinPair("admin", "manager", ", ");
  }
}
