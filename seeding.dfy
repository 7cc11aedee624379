/**
 * The seeding at the end of `init_db` (backend/app/initialization.py): the
 * bootstrap admin user and the default departments, each inserted only when
 * its lookup finds nothing, so that running it again inserts nothing.
 *
 * Password hashing is a library call; the hash is handed in by the caller.
 */
module Seeding {
  import opened Config

  datatype UserRow = UserRow(username: string, passwordHash: string, role: string)

  const DefaultDepartments: seq<string> := ["AV", "LV", "IT"]

  predicate HasUser(users: seq<UserRow>, username: string) {
    exists i :: 0 <= i < |users| && users[i].username == username
  }

  /** The users table after the bootstrap step. */
  function SeededUsers(users: seq<UserRow>, s: SettingsValues, passwordHash: string): (r: seq<UserRow>)
    ensures !s.bootstrapAdminEnabled || HasUser(users, s.bootstrapAdminUsername) ==> r == users
    ensures s.bootstrapAdminEnabled && !HasUser(users, s.bootstrapAdminUsername) ==>
      r == users + [UserRow(s.bootstrapAdminUsername, passwordHash, "admin")]
  {
    if s.bootstrapAdminEnabled && !HasUser(users, s.bootstrapAdminUsername)
    then users + [UserRow(s.bootstrapAdminUsername, passwordHash, "admin")]
    else users
  }

  /** The departments table after inserting each of `names`, in order, when absent. */
  function WithDepartments(departments: seq<string>, names: seq<string>): seq<string> {
    if |names| == 0 then departments
    else
      var before := WithDepartments(departments, names[..|names| - 1]);
      if names[|names| - 1] in before then before else before + [names[|names| - 1]]
  }

  /** Seeding only adds rows: the old departments stay, in place, and every name is then present. */
  lemma {:induction false} WithDepartmentsAdds(departments: seq<string>, names: seq<string>)
    ensures |departments| <= |WithDepartments(departments, names)|
    ensures WithDepartments(departments, names)[..|departments|] == departments
    ensures forall n :: n in names ==> n in WithDepartments(departments, names)
    ensures forall d :: d in WithDepartments(departments, names) ==> d in departments || d in names
  {
    if |names| > 0 {
      var init := names[..|names| - 1];
      WithDepartmentsAdds(departments, init);
      var before := WithDepartments(departments, init);
      assert forall n :: n in names ==> n in init || n == names[|names| - 1];
      if names[|names| - 1] !in before {
        assert (before + [names[|names| - 1]])[..|departments|] == before[..|departments|];
      }
    }
  }

  /** A table already holding every name is left as it is. */
  lemma {:induction false} WithDepartmentsPresent(departments: seq<string>, names: seq<string>)
    requires forall n :: n in names ==> n in departments
    ensures WithDepartments(departments, names) == departments
  {
    if |names| > 0 {
      WithDepartmentsPresent(departments, names[..|names| - 1]);
    }
  }

  /**
   * With bootstrap enabled the admin's username is taken after seeding, and
   * the only row seeding can add carries the role "admin"; with bootstrap
   * disabled no user is added.
   */
  lemma BootstrapAdminSeeded(users: seq<UserRow>, s: SettingsValues, passwordHash: string)
    ensures s.bootstrapAdminEnabled ==> HasUser(SeededUsers(users, s, passwordHash), s.bootstrapAdminUsername)
    ensures !s.bootstrapAdminEnabled ==> SeededUsers(users, s, passwordHash) == users
    ensures var r := SeededUsers(users, s, passwordHash);
      r[..|users|] == users && forall i :: |users| <= i < |r| ==> r[i].role == "admin"
  {
    var r := SeededUsers(users, s, passwordHash);
    if s.bootstrapAdminEnabled && !HasUser(users, s.bootstrapAdminUsername) {
      assert r[|users|].username == s.bootstrapAdminUsername;
    }
  }

  /** Seeding twice is seeding once. */
  lemma SeedingIdempotent(users: seq<UserRow>, departments: seq<string>, s: SettingsValues, hash1: string, hash2: string)
    ensures var users1 := SeededUsers(users, s, hash1);
      SeededUsers(users1, s, hash2) == users1
    ensures var departments1 := WithDepartments(departments, DefaultDepartments);
      WithDepartments(departments1, DefaultDepartments) == departments1
  {
    var users1 := SeededUsers(users, s, hash1);
    if s.bootstrapAdminEnabled && !HasUser(users, s.bootstrapAdminUsername) {
      assert users1[|users|].username == s.bootstrapAdminUsername;
    }
    WithDepartmentsAdds(departments, DefaultDepartments);
    WithDepartmentsPresent(WithDepartments(departments, DefaultDepartments), DefaultDepartments);
  }

  /** On an empty database, seeding creates exactly AV, LV and IT, in that order. */
  lemma SeedEmptyDatabase()
    ensures WithDepartments([], DefaultDepartments) == ["AV", "LV", "IT"]
  {
    assert DefaultDepartments[..2] == ["AV", "LV"];
    assert DefaultDepartments[..2][..1] == ["AV"];
    assert DefaultDepartments[..1][..0] == [];
    assert "LV" != "AV" && "IT" != "AV" && "IT" != "LV";
    assert WithDepartments([], ["AV"]) == ["AV"];
    assert WithDepartments([], ["AV", "LV"]) == ["AV", "LV"];
  }

  /** The users and departments tables. */
  class Database {
    var users: seq<UserRow>
    var departments: seq<string>

    constructor(users: seq<UserRow>, departments: seq<string>)
      ensures this.users == users && this.departments == departments
    {
      this.users := users;
      this.departments := departments;
    }

    /** Looks up a user by name, as the SELECT does. */
    method FindUser(username: string) returns (found: bool)
      ensures found <==> HasUser(users, username)
    {
      found := false;
      var i := 0;
      while i < |users|
        invariant 0 <= i <= |users|
        invariant found <==> exists j :: 0 <= j < i && users[j].username == username
      {
        if users[i].username == username {
          found := true;
        }
        i := i + 1;
      }
    }

    /**
     * The seeding step of `init_db`: the bootstrap admin when enabled and
     * absent, then each default department when absent.
     */
    method SeedDefaults(s: SettingsValues, passwordHash: string)
      modifies this
      ensures users == SeededUsers(old(users), s, passwordHash)
      ensures departments == WithDepartments(old(departments), DefaultDepartments)
    {
      if s.bootstrapAdminEnabled {
        var userExists := FindUser(s.bootstrapAdminUsername);
        if !userExists {
          users := users + [UserRow(s.bootstrapAdminUsername, passwordHash, "admin")];
        }
      }
      var i := 0;
      while i < |DefaultDepartments|
        invariant 0 <= i <= |DefaultDepartments|
        invariant users == SeededUsers(old(users), s, passwordHash)
        invariant departments == WithDepartments(old(departments), DefaultDepartments[..i])
      {
        var name := DefaultDepartments[i];
        assert DefaultDepartments[..i + 1][..i] == DefaultDepartments[..i];
        if name !in departments {
          departments := departments + [name];
        }
        i := i + 1;
      }
      assert DefaultDepartments[..i] == DefaultDepartments;
    }
  }
}
