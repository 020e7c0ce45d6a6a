# Authentication and authorization core of the NestJS users API, in Dafny

This project models the access-control and account logic of a NestJS
service that keeps a table of users with roles and fine-grained
permissions:

- the `UserRole` / `Permission` enumerations and the `User`, `PublicUser`
  and `JwtPayload` shapes (`user_types.dfy`);
- `RolesGuard`, which admits a principal holding ANY of a route's roles, and
  `PermissionsGuard`, which admits one holding ALL of its permissions and
  names only the missing ones (`roles_guard.dfy`, `permissions_guard.dfy`);
- `UsersService` over the user table, modelled as a map from id to record
  (`users_service.dfy`);
- `AuthService`: the role→permissions policy, `validateUser`, `login` and
  `register` (`auth_service.dfy`);
- the `UsersController` route table, the class-level guard chain
  JwtAuth → Roles → Permissions and the dispatch to the service
  (`users_controller.dfy`);
- `SeedService.seed` (`seed_service.dfy`);
- the message/errors construction and `extractFieldFromError` of
  `ValidationExceptionFilter` (`validation_filter.dfy`).

Everything is a pure function over immutable values. A thrown Nest
exception is a `Failure(HttpException)` carrying the exact message text.
Operations that write the table return the new table next to their result.
bcrypt is a value `Bcrypt(hash, compare)` and the JWT service a value
`Jwt(sign, verify)`. Theorems that need them to behave take that as a
hypothesis: `Sound` says `compare(p, hash(p, 10))`, and `Faithful` says that
`verify` recovers what `sign` embedded. The database's fresh UUID is a
parameter `freshId` that is not yet a key.

The model follows the code, including where an empty requirement or a missing principal behaves unexpectedly:

- An empty role requirement (`@Roles()` with no arguments) is not a skip.
  The guard tests `!requiredRoles`, and `[]` is truthy, so every present
  principal is refused with "Access denied. Required roles: . Your role: …".
  `None` and `Some([])` are kept apart throughout.
- An empty permission requirement admits every present principal. It still
  refuses a missing one.
- A missing principal inside either guard is a `Forbidden("User not
  authenticated")`, not an unauthenticated (401) error. In the full guard
  chain the JWT guard runs first and answers 401, so that message cannot
  occur there (`UsersController.Authorize`).
- `UsersService.create` stores `permissions || []`. It does not apply the
  role policy; only `register` and the seeder do that.

The user table's invariant `UsersService.Valid` has two parts: each row is
stored under its own id, and no two rows share an email. The user entity
file is not part of this model; its unique email column is assumed, both in
`Valid` and in `update`'s refusal (`UniqueViolation`) of an email already held
by another row. The invariant is what lets
`findOne({ where: { email } })` denote one row. It is proved to be preserved
by `create`, `update`, `remove`, `register`, `seed` and every controller
route.

## Model

| member | source | states |
|---|---|---|
| UserTypes.RoleValueRoundTrip | src/common/types/user.types.ts:1-6 | the role strings are `admin`, `manager`, `user`, `guest`; they are pairwise distinct and each reads back as its role |
| UserTypes.PermissionValueRoundTrip | src/common/types/user.types.ts:8-15 | the six permission strings are pairwise distinct and each reads back as its permission |
| UserTypes.ParseRole | src/auth/dto/register.dto.ts:26-28 | a role string is accepted only when it is one of the enum values, and then it names that role |
| UserTypes.ParsePermission | src/users/dto/create-user.dto.ts:35-38 | a permission string is accepted only when it is one of the enum values, and then it names that permission |
| UserTypes.EnumerationsComplete | src/common/types/user.types.ts:1-15 | `Object.values` of each enum lists every member exactly once, in declaration order, with the wire strings in that order |
| UserTypes.PublicViewRoundTrip | src/common/types/user.types.ts:17-38 | `PublicUser` is `User` minus `password`: strip-then-restore and restore-then-strip are identities, and the password never shows in the view |
| RolesGuard.AnyMatchesIsMembership | src/common/guards/roles.guard.ts:30 | `requiredRoles.some(role => user.role === role)` holds exactly when the role is in the list |
| RolesGuard.CanActivate | src/common/guards/roles.guard.ts:14-39 | absent requirement: allow, even with no principal; present requirement and no principal: Forbidden "User not authenticated"; otherwise allow iff the role is listed, else Forbidden with the required roles joined by ", " and the actual role; never `false` |
| Strings.JoinShape | src/common/guards/roles.guard.ts:34 | `Array.prototype.join`, as used in both guards' denial messages: the result starts with the first part, ends with the last, and its length is the parts' total plus one separator per gap |
| RolesGuard.EmptyRequirementIsNotAbsent | src/common/guards/roles.guard.ts:20-35 | `None` admits everybody; `Some([])` refuses every present principal with "Required roles: . Your role: x" and a missing one with "User not authenticated" |
| RolesGuard.UserDeniedAdminRoute | src/common/guards/roles.guard.ts:32-35 | a USER facing `[ADMIN]` gets "Access denied. Required roles: admin. Your role: user" |
| RolesGuard.GuestDeniedStaffRoute | src/common/guards/roles.guard.ts:32-35 | a GUEST facing `[ADMIN, MANAGER]` gets "Access denied. Required roles: admin, manager. Your role: guest" |
| PermissionsGuard.EveryIsInclusion | src/common/guards/permissions.guard.ts:30-32 | `every(p => held.includes(p))` holds exactly when every required permission is held |
| PermissionsGuard.MissingMembers | src/common/guards/permissions.guard.ts:35-37 | the missing list holds exactly the required permissions that are not held, and is no longer than the requirement |
| PermissionsGuard.MissingKeepsOrder | src/common/guards/permissions.guard.ts:35-37 | the missing list of a concatenation is the concatenation of the missing lists, so it keeps the requirement's declared order |
| PermissionsGuard.MissingEmptyIffEvery | src/common/guards/permissions.guard.ts:30-37 | nothing is missing exactly when the `every` test passes |
| PermissionsGuard.CanActivate | src/common/guards/permissions.guard.ts:14-45 | absent requirement: allow; present requirement and no principal: Forbidden "User not authenticated"; otherwise allow iff every required permission is held; on refusal the missing list is non-empty, holds exactly the unheld requirements, and the message is "Access denied. Missing permissions: " and that list joined; never `false` |
| PermissionsGuard.Monotonic | src/common/guards/permissions.guard.ts:30-32 | a principal holding a superset of an admitted principal's permissions is admitted too |
| PermissionsGuard.EmptyRequirementIsNotAbsent | src/common/guards/permissions.guard.ts:20-28 | `Some([])` admits any present principal but still refuses a missing one; `None` admits everybody |
| PermissionsGuard.MissingOneOfTwo | src/common/guards/permissions.guard.ts:39-41 | holding `read:users` against `[read:users, write:users]` gives "Access denied. Missing permissions: write:users" |
| PermissionsGuard.MissingAllThree | src/common/guards/permissions.guard.ts:39-41 | holding only `read:profile` against three user permissions lists all three, in declared order |
| PermissionsGuard.UndefinedPermissionsHoldNothing | src/common/guards/permissions.guard.ts:31-36 | for every requirement, a principal whose `permissions` is undefined gets the same verdict and message as one with an empty list; e.g. `read:users` is refused as missing |
| UsersService.FindByEmail | src/users/users.service.ts:49-51 | returns the stored row with that email, password included, and `None` exactly when no row has it |
| UsersService.Create | src/users/users.service.ts:16-30 | Conflict "User with this email already exists" exactly when the email is taken; otherwise adds one row under the fresh id with `isActive` true and the given permissions or `[]`, leaves every other row as it was, keeps the table valid, and returns the stored row's public view |
| UsersService.FindAllListsEveryRow | src/users/users.service.ts:32-38 | `findAll` returns the public view of every row and nothing else, one entry per row |
| UsersService.FindById | src/users/users.service.ts:40-47 | NotFound "User with ID {id} not found" exactly when the id is unknown; otherwise the row's view, equal to the row once its password is restored |
| UsersService.Update | src/users/users.service.ts:53-68 | unknown id: NotFound; email taken by another row: the unique-column violation; otherwise each patched field is replaced, every other field (permissions after a role change included) and every other row are unchanged, the table stays valid, and the new view is returned |
| UsersService.Remove | src/users/users.service.ts:70-76 | NotFound exactly when the id is unknown; otherwise that one row is gone, every other row is unchanged, and the table stays valid |
| UsersService.Deactivate | src/users/users.service.ts:78-80 | NotFound exactly when the id is unknown; otherwise only that row's `isActive` becomes false, and the returned view is that updated row's public view |
| UsersService.Activate | src/users/users.service.ts:82-84 | NotFound exactly when the id is unknown; otherwise only that row's `isActive` becomes true, and the returned view is that updated row's public view |
| UsersService.RoleChangeKeepsPermissions | src/users/users.service.ts:60-67 | patching the role leaves the stored permissions as they were |
| UsersService.RemoveThenFind | src/users/users.service.ts:70-76 | after `remove(id)`, `findById(id)` is NotFound and `findById` of any other id answers as before |
| UsersService.ToggleIdempotent | src/users/users.service.ts:78-84 | deactivating (activating) a row twice is the same as once, and the second call is not an error |
| UsersService.CreateThenFind | src/users/users.service.ts:16-51 | after `create`, `findByEmail` finds the new row and `findById` returns the view `create` returned |
| AuthService.DefaultPermissions | src/auth/auth.service.ts:74-95 | ADMIN gets every permission; MANAGER exactly those other than `delete:users` and `manage:system`; USER exactly the two profile permissions; GUEST nothing; every list follows the enum's declaration order, so none repeats an entry |
| AuthService.PolicyGrants | src/auth/auth.service.ts:74-95 | each role's default permissions contain those of the role below it (GUEST ⊆ USER ⊆ MANAGER ⊆ ADMIN), and ADMIN's list is `Object.values(Permission)` in declaration order |
| AuthService.ValidateUser | src/auth/auth.service.ts:14-30 | returns a user iff some row has the email and `compare` accepts the password against its hash; the result is that row's public view; an unknown email and a wrong password both give `None`; `isActive` is not consulted |
| AuthService.UnknownEmailSkipsCompare | src/auth/auth.service.ts:17-19 | for an unknown email the result is `None` whatever `compare` would answer |
| AuthService.ValidateIgnoresIsActive | src/auth/auth.service.ts:14-30 | flipping any row's `isActive` does not change whether credentials validate |
| AuthService.Login | src/auth/auth.service.ts:32-55 | no user: Unauthorized "Invalid user"; otherwise the summary carries id, email, username, role and permissions and nothing else, and the token, once verified, yields those same five claims (`sub` for id) |
| AuthService.Register | src/auth/auth.service.ts:57-72 | Conflict exactly when the email is taken; otherwise one new row with the password hashed at cost 10, the role (default USER), that role's policy permissions and `isActive` true, every other row unchanged, the table valid, and the login summary of the new row returned |
| AuthService.RegisterThenLogin | src/auth/auth.service.ts:57-72 | with a sound hasher, the registered email and password then validate to the new row, and logging in with them gives the summary registration returned |
| AuthService.RegisteredTokenAuthorizes | src/auth/auth.service.ts:37-46 | the registration token's principal passes a role requirement iff it names the role, and passes a permission requirement iff the requirement lies within the role's policy |
| AuthService.ManagerRegistration | src/auth/auth.service.ts:78-84 | registering a MANAGER stores `[read:users, write:users, read:profile, write:profile]`, and an ADMIN-only requirement then refuses it with "Access denied. Required roles: admin. Your role: manager" |
| UsersController.DescriptorOf | src/users/users.controller.ts:33-116 | every route declares exactly one permission: `read:users` on `GET /users` and `GET /users/:id`, `read:profile` on `GET /users/profile`, `write:profile` on `PATCH /users/profile`, `delete:users` on `DELETE /users/:id`, `write:users` on create, update, deactivate and activate; `manage:system` guards no route; only the profile routes declare no roles; every role list is `[admin]`, or `[admin, manager]` exactly on the two reads by id/list and on deactivate |
| UsersController.RunGuard | src/users/users.controller.ts:28 | each guard of the chain answers true or throws, never false |
| UsersController.RunGuards | src/users/users.controller.ts:28 | the chain passes iff every guard passes; otherwise its exception is that of the first guard that throws, after all earlier ones passed |
| UsersController.Authorize | src/users/users.controller.ts:28-116 | no principal: 401; otherwise admitted iff the route's roles admit the role and the principal holds all its permissions; a role refusal is reported before a permission refusal, with the respective messages; "User not authenticated" never escapes the chain |
| UsersController.Handle | src/users/users.controller.ts:39-121 | each route calls its service operation on its target row, `req.id` for the `:id` routes and the principal's own id for the profile routes: create answers Conflict exactly on a taken email and otherwise adds only the fresh row, holding the body's fields unchanged, `permissions || []` and `isActive` true; the reads answer NotFound on an unknown id and otherwise that row's public view, leaving the table unchanged; update patches only the target row (NotFound, or the unique-email refusal); remove deletes exactly the target key and leaves every other row as it was; deactivate/activate set only its `isActive`; every handler keeps the table valid |
| UsersController.Serve | src/users/users.controller.ts:28-121 | a request the guards refuse reports the guard's exception and runs no handler; an admitted one gets exactly the handler's outcome for the authenticated principal, and keeps the table valid |
| UsersController.AccessMatrix | src/users/users.controller.ts:33-116 | with default permissions: ADMIN reaches every route; MANAGER the two list/read routes, both profile routes and deactivate; USER only the profile routes; GUEST none |
| UsersController.NoPermissionsNoAccess | src/users/users.controller.ts:33-116 | every route declares a permission, so a principal holding none is refused on every route |
| UsersController.ProfileActsOnOwnRow | src/users/users.controller.ts:70-79 | PATCH /users/profile updates the principal's own row and ignores the path id |
| UsersController.DeactivateActivateAsymmetry | src/users/users.controller.ts:105-116 | a MANAGER may deactivate but is refused activation with the ADMIN-only role message |
| UsersController.RegisteredAccess | src/users/users.controller.ts:33-116 | a user who registers with a role and presents the returned token reaches exactly the routes the matrix grants that role |
| SeedService.InsertIfAbsent | src/database/seed.service.ts:17-34 | a seeded record is inserted exactly when its email is absent, and the email is present afterwards |
| SeedService.Seed | src/database/seed.service.ts:15-62 | inserts the admin (ADMIN, all permissions, active) and the manager (MANAGER, four permissions, active) each only when its email is absent; existing rows untouched; nothing else added; the table stays valid |
| SeedService.SeedIdempotent | src/database/seed.service.ts:17-59 | seeding a seeded table changes nothing |
| SeedService.SeededPermissionsFollowPolicy | src/database/seed.service.ts:28-53 | the seeded accounts carry exactly their role's default permissions |
| ValidationFilter.MatchUnique | src/common/filters/validation-exception.filter.ts:55 | `/^(\w+)\s/` matches at most one way: the whole leading word run, followed by whitespace |
| ValidationFilter.ExtractFieldFromError | src/common/filters/validation-exception.filter.ts:53-57 | returns the leading word run when it is non-empty and followed by a JavaScript whitespace character, and `unknown` when there is no such match |
| ValidationFilter.FieldErrors | src/common/filters/validation-exception.filter.ts:30-35 | one entry per validation message, in order, each keeping the original message and the field extracted from it |
| ValidationFilter.Body | src/common/filters/validation-exception.filter.ts:22-48 | a string response becomes the message with no errors; an array message passes through, and when non-empty the errors are exactly `FieldErrors` of it (each entry's extracted field and message, in order); a non-empty string message passes through; an absent or empty-string message becomes "Validation failed" with no errors; `errors` is present only when non-empty |
| ValidationFilter.FieldExamples | src/common/filters/validation-exception.filter.ts:55-56 | "email must be an email" names `email`; an empty message, a lone word, or a leading non-word character gives `unknown` |

## Left out

- Password hashing and token signing are modelled as the `Bcrypt` and `Jwt`
  values. bcrypt's random salt is not modelled: `hash` is a function of
  password and cost. Token expiry and signature checking are not modelled either.
- The bearer-token guard and the Passport strategies (`jwt-auth.guard.ts`,
  the JWT and local strategies) are not part of this model. Two assumptions
  stand in for them:
  - A request without a verified principal gets Passport's default
    `Unauthorized("Unauthorized")`.
  - A verified token's principal is `PrincipalOfClaims`: the id is `sub`, and
    the other claims are copied over.
- Reflector metadata lookup and handler-over-class precedence are replaced by
  the explicit route table `UsersController.DescriptorOf`.
- The entity and its defaults (`user.entity.ts`) and `update-user.dto.ts` are
  not part of this model. The patch is modelled with each `CreateUserDto`
  field optional, plus `isActive`. Two things stand in for the table's
  behaviour:
  - `isActive` is true on insert.
  - A duplicate email on update is refused as a unique-column violation.
- Timestamps (`createdAt`, `updatedAt`), UUID generation and the `:id`
  format check of `ParseUUIDPipe` are left out. Ids are opaque strings.
- TypeORM's refusal of an update with no fields is left out.
- UsersService.FindAll: returns a set, not an array, because the table's row
  order is unspecified.
- RolesGuard.CanActivate: the principal always has a role. The guard's
  behaviour for a `request.user` without a `role` field ("Your role:
  undefined") is not modelled.
- The check-then-insert race on email uniqueness is out of scope, because
  the model is sequential.
- Username uniqueness is not enforced by the code, and the model does not
  add it.
- DTO validation rules (email format, minimum lengths) are enforced by
  class-validator and are not modelled.
- The seeder's console output is not modelled.
- The filter's HTTP write and the `statusCode`, `timestamp`, `path` and
  `method` fields are not modelled.
- Rate limiting, security headers, CORS, bootstrapping and the
  database-setup scripts are outside the core.
- Asynchrony is left out: every call is treated as sequential.
