/** `SeedService.seed`: inserts the demo admin and manager accounts when
    their emails are not yet in the table. */
module SeedService {
  import opened UserTypes
  import opened UsersService
  import opened AuthService

  const AdminEmail: string := "admin@example.com"
  const ManagerEmail: string := "manager@example.com"

  function AdminRecord(b: Bcrypt, id: string): User {
    User(id, AdminEmail, "admin", b.hash("admin123", SaltRounds), ADMIN, AllPermissions, true)
  }

  function ManagerRecord(b: Bcrypt, id: string): User {
    User(id, ManagerEmail, "manager", b.hash("manager123", SaltRounds), MANAGER,
         [READ_USERS, WRITE_USERS, READ_PROFILE, WRITE_PROFILE], true)
  }

  /** Inserts `record` under `id` unless its email is already present. */
  function InsertIfAbsent(s: Store, record: User, id: string): (s': Store)
    requires Valid(s) && id !in s && record.id == id
    ensures Valid(s')
    ensures EmailTaken(s', record.email)
    ensures EmailTaken(s, record.email) ==> s' == s
    ensures !EmailTaken(s, record.email) ==> s' == s[id := record]
  {
    if FindByEmail(s, record.email).Some? then s
    else
      var s' := s[id := record];
      assert s'[id].email == record.email;
      s'
  }

  /** Inserting a record leaves the other emails' presence as it was. */
  lemma InsertKeepsOtherEmails(s: Store, record: User, id: string, email: string)
    requires Valid(s) && id !in s && record.id == id && email != record.email
    ensures EmailTaken(InsertIfAbsent(s, record, id), email) <==> EmailTaken(s, email)
  {
    var s' := InsertIfAbsent(s, record, id);
    if EmailTaken(s, email) {
      var w :| w in s && s[w].email == email;
      assert w in s' && s'[w].email == email;
    }
  }

  /** `seed`: the admin first, then the manager, each only when its email
      is absent. The ids are the ones the database would assign. */
  function Seed(s: Store, b: Bcrypt, adminId: string, managerId: string): (s': Store)
    requires Valid(s)
    requires adminId !in s && managerId !in s && adminId != managerId
    ensures Valid(s')
    ensures forall id :: id in s ==> id in s' && s'[id] == s[id]
    ensures s'.Keys <= s.Keys + {adminId, managerId}
    ensures EmailTaken(s', AdminEmail) && EmailTaken(s', ManagerEmail)
    ensures !EmailTaken(s, AdminEmail) ==> adminId in s' && s'[adminId] == AdminRecord(b, adminId)
    ensures EmailTaken(s, AdminEmail) ==> adminId !in s'
    ensures !EmailTaken(s, ManagerEmail) ==> managerId in s' && s'[managerId] == ManagerRecord(b, managerId)
    ensures EmailTaken(s, ManagerEmail) ==> managerId !in s'
  {
    var s1 := InsertIfAbsent(s, AdminRecord(b, adminId), adminId);
    InsertKeepsOtherEmails(s, AdminRecord(b, adminId), adminId, ManagerEmail);
    var s2 := InsertIfAbsent(s1, ManagerRecord(b, managerId), managerId);
    InsertKeepsOtherEmails(s1, ManagerRecord(b, managerId), managerId, AdminEmail);
    s2
  }

  /** Seeding twice leaves the table as seeding once, whatever ids the
      second run would have used. */
  lemma SeedIdempotent(s: Store, b: Bcrypt, adminId: string, managerId: string, adminId2: string, managerId2: string)
    requires Valid(s)
    requires adminId !in s && managerId !in s && adminId != managerId
    requires var once := Seed(s, b, adminId, managerId);
      adminId2 !in once && managerId2 !in once && adminId2 != managerId2
    ensures Seed(Seed(s, b, adminId, managerId), b, adminId2, managerId2) == Seed(s, b, adminId, managerId)
  {
  }

  /** The seeded accounts carry exactly their role's default permissions. */
  lemma SeededPermissionsFollowPolicy(b: Bcrypt, adminId: string, managerId: string)
    ensures AdminRecord(b, adminId).permissions == DefaultPermissions(AdminRecord(b, adminId).role)
    ensures ManagerRecord(b, managerId).permissions == DefaultPermissions(ManagerRecord(b, managerId).role)
  {
  }
}
