/** The admin's account handlers. Deleting a user compacts the ids of the
    users that remain, so a user id is a position, not a stable handle. */
module AdminControl {
  import opened Lists
  import opened Records
  import opened Store

  /** `addUser`: the password is replaced by its digest (the hashing
      collaborator is the parameter `hash`); the user gets id
      `|users| + 1` and the requested role and is appended. No field is
      validated. */
  method AddUser(db: Database, username: string, email: string, password: string, role: string,
                 hash: string -> string)
    returns (user: User)
    modifies db`users
    ensures user == User(|old(db.users)| + 1, username, email, hash(password), role)
    ensures db.users == old(db.users) + [user]
  {
    user := User(|db.users| + 1, username, email, hash(password), role);
    db.users := db.users + [user];
  }

  /** The users that survive deleting `id`, before renumbering. */
  function Survivors(users: seq<User>, id: int): (r: seq<User>)
    ensures forall i :: 0 <= i < |r| ==> r[i] in users && r[i].id != id
    ensures forall i :: 0 <= i < |users| && users[i].id != id ==> users[i] in r
    ensures forall i :: 0 <= i < |users| && users[i].id != id ==>
      multiset(r)[users[i]] == multiset(users)[users[i]]
    ensures IsSubsequence(r, users)
  {
    Filter(users, (u: User) => u.id != id)
  }

  /** Identifier compaction: each user's id becomes its position plus one. */
  function CompactedUsers(users: seq<User>): (r: seq<User>)
    ensures |r| == |users|
    ensures forall i :: 0 <= i < |r| ==> r[i].id == i + 1
    ensures forall i :: 0 <= i < |r| ==> r[i] == users[i].(id := r[i].id)
  {
    seq(|users|, i requires 0 <= i < |users| => users[i].(id := i + 1))
  }

  /** The user list after `deleteUser(id)`. */
  function WithoutUser(users: seq<User>, id: int): (r: seq<User>)
    ensures |r| == |Survivors(users, id)|
    ensures forall i :: 0 <= i < |r| ==> r[i].id == i + 1
    ensures forall i :: 0 <= i < |r| ==> r[i] == Survivors(users, id)[i].(id := i + 1)
  {
    CompactedUsers(Survivors(users, id))
  }

  /** Deleting an id nobody has still renumbers the list. */
  lemma DeleteUnknownOnlyRenumbers(users: seq<User>, id: int)
    requires forall i :: 0 <= i < |users| ==> users[i].id != id
    ensures WithoutUser(users, id) == CompactedUsers(users)
  {
    FilterKeepsAll(users, (u: User) => u.id != id);
  }

  /** Deleting the second of three users numbered 1, 2, 3 leaves the first
      and the third, numbered 1 and 2. */
  lemma DeleteMiddleOfThree(a: User, b: User, c: User)
    requires a.id == 1 && b.id == 2 && c.id == 3
    ensures WithoutUser([a, b, c], 2) == [a, c.(id := 2)]
  {
    assert [c][1..] == [];
    assert Survivors([c], 2) == [c];
    assert [b, c][1..] == [c];
    assert Survivors([b, c], 2) == [c];
    assert [a, b, c][1..] == [b, c];
    assert Survivors([a, b, c], 2) == [a, c];
  }

  /** In a compacted list the user numbered `k` is found at position
      `k - 1`: ids are positions. */
  lemma CompactedIdIsPosition(users: seq<User>, k: int)
    requires forall i :: 0 <= i < |users| ==> users[i].id == i + 1
    requires 1 <= k <= |users|
    ensures UserIndex(users, k) == Some(k - 1)
  {
    assert users[k - 1].id == k;
  }

  /** `deleteUser`: every user with that id is removed and the rest are
      renumbered 1..n in their order. It answers success even when nobody
      had the id. */
  method DeleteUser(db: Database, id: int) returns (r: Result<()>)
    modifies db`users
    ensures r == Ok(())
    ensures db.users == WithoutUser(old(db.users), id)
  {
    var users := Survivors(db.users, id);
    users := CompactedUsers(users);
    db.users := users;
    r := Ok(());
  }

  /** `getUsers`: every user whose role is not admin, in stored order. */
  function NonAdminUsers(users: seq<User>): (r: seq<User>)
    ensures forall i :: 0 <= i < |r| ==> r[i] in users && r[i].role != AdminRole
    ensures forall i :: 0 <= i < |users| && users[i].role != AdminRole ==> users[i] in r
    ensures forall i :: 0 <= i < |users| && users[i].role != AdminRole ==>
      multiset(r)[users[i]] == multiset(users)[users[i]]
    ensures IsSubsequence(r, users)
  {
    Filter(users, (u: User) => u.role != AdminRole)
  }

  /** The fields an admin may send to `editUser`; `None` means not sent. */
  datatype UserPatch = UserPatch(username: Option<string>, email: Option<string>, role: Option<string>)

  /** A user after an edit: only username, email and role can change, each
      only to a truthy value. */
  function Edited(u: User, patch: UserPatch): (r: User)
    ensures r.id == u.id && r.password == u.password
    ensures Truthy(patch.username) ==> r.username == patch.username.value
    ensures !Truthy(patch.username) ==> r.username == u.username
    ensures Truthy(patch.email) ==> r.email == patch.email.value
    ensures !Truthy(patch.email) ==> r.email == u.email
    ensures Truthy(patch.role) ==> r.role == patch.role.value
    ensures !Truthy(patch.role) ==> r.role == u.role
  {
    u.(username := OrElse(patch.username, u.username),
       email := OrElse(patch.email, u.email),
       role := OrElse(patch.role, u.role))
  }

  /** `editUser`: NotFound when no user has the id; otherwise the first such
      user is edited in place and every other position is unchanged. */
  method EditUser(db: Database, id: int, patch: UserPatch) returns (r: Result<User>)
    modifies db`users
    ensures UserIndex(old(db.users), id).None? ==> r == Err(NotFound) && db.users == old(db.users)
    ensures UserIndex(old(db.users), id).Some? ==>
      var i := UserIndex(old(db.users), id).value;
      && r == Ok(Edited(old(db.users)[i], patch))
      && |db.users| == |old(db.users)|
      && db.users[i] == r.value
      && forall j :: 0 <= j < |db.users| && j != i ==> db.users[j] == old(db.users)[j]
  {
    var i := UserIndex(db.users, id);
    if i.None? {
      return Err(NotFound);
    }
    var edited := Edited(db.users[i.value], patch);
    db.users := db.users[i.value := edited];
    r := Ok(edited);
  }
}
