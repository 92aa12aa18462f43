/**
 * Users and the repository that keeps them. The repository's JSON file holds
 * {"users": [...]}; here the list of user objects is the `users` field, and each operation
 * reads, changes and writes it back as the Python code does with the file.
 */
module UserRepositories {
  import opened Wrappers

  datatype User = User(username: string, password: string, role: string)

  /** A user object as stored in the file's "users" list; "role" may be absent. */
  datatype UserRecord = UserRecord(username: string, password: string, role: Option<string>)

  const DefaultRole: string := "user"

  /** User.to_dict: the record from_dict turns back into the same user. */
  function ToDict(u: User): (d: UserRecord)
    ensures d.username == u.username && d.role.Some?
    ensures FromDict(d) == u
  {
    UserRecord(u.username, u.password, Some(u.role))
  }

  /** User.from_dict: the role defaults to "user" when the record has none. */
  function FromDict(d: UserRecord): (u: User)
    ensures u.username == d.username && u.password == d.password
    ensures d.role.Some? ==> u.role == d.role.value
    ensures d.role.None? ==> u.role == "user"
  {
    User(d.username, d.password, if d.role.Some? then d.role.value else DefaultRole)
  }

  /** `any(u["username"] == name for u in users)`. */
  predicate HasUsername(users: seq<UserRecord>, name: string) {
    exists i :: 0 <= i < |users| && users[i].username == name
  }

  /** No two records share a username. */
  predicate UniqueUsernames(users: seq<UserRecord>) {
    forall i, j :: 0 <= i < j < |users| ==> users[i].username != users[j].username
  }

  /** The index of the first record with this username, if any. */
  function FirstIndexOf(users: seq<UserRecord>, name: string): (r: Option<nat>)
    ensures r.Some? ==> r.value < |users| && users[r.value].username == name
                        && forall j :: 0 <= j < r.value ==> users[j].username != name
    ensures r.None? <==> !HasUsername(users, name)
    decreases |users|
  {
    if users == [] then None
    else if users[0].username == name then Some(0)
    else match FirstIndexOf(users[1..], name)
      case None => None
      case Some(k) => Some(k + 1)
  }

  /** What find_by_username returns: the user of the first matching record, or None. */
  function UserNamed(users: seq<UserRecord>, name: string): (r: Option<User>)
    ensures r.None? <==> !HasUsername(users, name)
    ensures r.Some? ==> r.value.username == name
  {
    match FirstIndexOf(users, name)
    case None => None
    case Some(i) => Some(FromDict(users[i]))
  }

  /** With unique usernames, the user found is the one whose record has that name. */
  lemma UserNamedWhenUnique(users: seq<UserRecord>, i: nat)
    requires UniqueUsernames(users) && i < |users|
    ensures UserNamed(users, users[i].username) == Some(FromDict(users[i]))
  {
    assert HasUsername(users, users[i].username);
  }

  /** `[u for u in users if u["username"] != name]`. */
  function Without(users: seq<UserRecord>, name: string): (r: seq<UserRecord>)
    ensures |r| <= |users|
    ensures forall x :: x in r ==> x in users && x.username != name
    decreases |users|
  {
    if users == [] then []
    else if users[0].username == name then Without(users[1..], name)
    else [users[0]] + Without(users[1..], name)
  }

  /** Filtering distributes over concatenation, so the kept records stay in their order. */
  lemma {:induction false} WithoutAppend(a: seq<UserRecord>, b: seq<UserRecord>, name: string)
    ensures Without(a + b, name) == Without(a, name) + Without(b, name)
    decreases |a|
  {
    if a == [] {
      assert a + b == b;
    } else {
      assert (a + b)[0] == a[0];
      assert (a + b)[1..] == a[1..] + b;
      WithoutAppend(a[1..], b, name);
    }
  }

  /** Filtering removes records exactly when one has that username. */
  lemma {:induction false} WithoutShrinks(users: seq<UserRecord>, name: string)
    ensures |Without(users, name)| < |users| <==> HasUsername(users, name)
    decreases |users|
  {
    if users != [] {
      WithoutShrinks(users[1..], name);
      if users[0].username != name && HasUsername(users, name) {
        var i :| 0 <= i < |users| && users[i].username == name;
        assert users[1..][i - 1].username == name;
      }
      if HasUsername(users[1..], name) {
        var i :| 0 <= i < |users[1..]| && users[1..][i].username == name;
        assert users[i + 1].username == name;
      }
    }
  }

  /** Filtering keeps the usernames of the rest unique. */
  lemma {:induction false} WithoutKeepsUnique(users: seq<UserRecord>, name: string)
    requires UniqueUsernames(users)
    ensures UniqueUsernames(Without(users, name))
    decreases |users|
  {
    if users != [] {
      WithoutKeepsUnique(users[1..], name);
      var rest := Without(users[1..], name);
      if users[0].username != name {
        forall x | x in rest ensures x.username != users[0].username {
          var k :| 0 <= k < |users[1..]| && users[1..][k] == x;
          assert users[k + 1] == x;
        }
        var r := [users[0]] + rest;
        forall i, j | 0 <= i < j < |r| ensures r[i].username != r[j].username {
          if i == 0 {
            assert r[j] in rest;
          } else {
            assert r[i] == rest[i - 1] && r[j] == rest[j - 1];
          }
        }
      }
    }
  }

  class UserRepository {
    var users: seq<UserRecord>

    /**
     * __init__ with _ensure_file_exists: the existing file's list, or an empty list when there
     * is no file yet.
     */
    constructor (existing: Option<seq<UserRecord>>)
      ensures users == if existing.Some? then existing.value else []
    {
      users := if existing.Some? then existing.value else [];
    }

    /** add_user: rejected if the username is taken, otherwise appended at the end. */
    method AddUser(user: User) returns (added: bool)
      modifies this
      ensures added <==> !HasUsername(old(users), user.username)
      ensures users == if added then old(users) + [ToDict(user)] else old(users)
      ensures UniqueUsernames(old(users)) ==> UniqueUsernames(users)
    {
      if HasUsername(users, user.username) {
        return false;
      }
      users := users + [ToDict(user)];
      added := true;
    }

    /** find_by_username: the first record with that username, as a user. */
    method FindByUsername(name: string) returns (found: Option<User>)
      ensures found == UserNamed(users, name)
    {
      var i := 0;
      while i < |users|
        invariant 0 <= i <= |users|
        invariant forall j :: 0 <= j < i ==> users[j].username != name
      {
        if users[i].username == name {
          return Some(FromDict(users[i]));
        }
        i := i + 1;
      }
      return None;
    }

    /** get_all_users: every record as a user, in file order. */
    method GetAllUsers() returns (all: seq<User>)
      ensures |all| == |users|
      ensures forall i :: 0 <= i < |users| ==> all[i] == FromDict(users[i])
    {
      all := seq(|users|, i requires 0 <= i < |users| reads this => FromDict(users[i]));
    }

    /** update_user: the first record with the user's username is replaced; nothing else moves. */
    method UpdateUser(user: User) returns (updated: bool)
      modifies this
      ensures updated <==> HasUsername(old(users), user.username)
      ensures |users| == |old(users)|
      ensures users == match FirstIndexOf(old(users), user.username)
                       case None => old(users)
                       case Some(i) => old(users)[i := ToDict(user)]
      ensures UniqueUsernames(old(users)) ==> UniqueUsernames(users)
    {
      var i := 0;
      while i < |users|
        invariant 0 <= i <= |users|
        invariant forall j :: 0 <= j < i ==> users[j].username != user.username
      {
        if users[i].username == user.username {
          users := users[i := ToDict(user)];
          return true;
        }
        i := i + 1;
      }
      return false;
    }

    /** delete_user: every record with the username goes; True exactly when the list shrank. */
    method DeleteUser(name: string) returns (deleted: bool)
      modifies this
      ensures users == Without(old(users), name)
      ensures deleted <==> |users| < |old(users)|
      ensures deleted <==> HasUsername(old(users), name)
      ensures UniqueUsernames(old(users)) ==> UniqueUsernames(users)
    {
      var originalCount := |users|;
      WithoutShrinks(users, name);
      if UniqueUsernames(users) {
        WithoutKeepsUnique(users, name);
      }
      users := Without(users, name);
      deleted := |users| < originalCount;
    }
  }
}
