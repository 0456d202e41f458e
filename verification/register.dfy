/** Self-service registration: validates the three fields, refuses an email
    already in use, and appends a shopper whose id exceeds every id in use. */
module Register {
  import opened Lists
  import opened Records
  import opened Store

  /** The largest id in a non-empty user list (`Math.max(...ids)`). */
  function MaxId(users: seq<User>): (m: int)
    requires |users| > 0
    ensures forall i :: 0 <= i < |users| ==> users[i].id <= m
    ensures exists i :: 0 <= i < |users| && users[i].id == m
  {
    if |users| == 1 then users[0].id
    else
      var rest := MaxId(users[1..]);
      assert forall i :: 1 <= i < |users| ==> users[i] == users[1..][i - 1];
      if users[0].id >= rest then users[0].id else rest
  }

  /** The id a new registration gets: 1 for an empty list, otherwise one
      more than the largest id, hence larger than every id in use. */
  function NextId(users: seq<User>): (r: int)
    ensures users == [] ==> r == 1
    ensures forall i :: 0 <= i < |users| ==> users[i].id < r
    ensures users != [] ==> exists i :: 0 <= i < |users| && r == users[i].id + 1
  {
    if |users| > 0 then MaxId(users) + 1 else 1
  }

  /** Some user already has this email (`users.find(u => u.email === email)`). */
  predicate EmailInUse(users: seq<User>, email: string)
  {
    exists i :: 0 <= i < |users| && users[i].email == email
  }

  predicate DistinctEmails(users: seq<User>)
  {
    forall i, j :: 0 <= i < j < |users| ==> users[i].email != users[j].email
  }

  predicate DistinctIds(users: seq<User>)
  {
    forall i, j :: 0 <= i < j < |users| ==> users[i].id != users[j].id
  }

  /** Appending a user whose email is not in use keeps emails pairwise
      distinct. */
  lemma FreshEmailKeepsDistinct(users: seq<User>, user: User)
    requires DistinctEmails(users) && !EmailInUse(users, user.email)
    ensures DistinctEmails(users + [user])
  {
    var all := users + [user];
    forall i, j | 0 <= i < j < |all| ensures all[i].email != all[j].email {
      assert all[i] == users[i];
      if j < |users| {
        assert all[j] == users[j];
      }
    }
  }

  /** Appending a user numbered `NextId` keeps ids pairwise distinct. */
  lemma NextIdKeepsDistinct(users: seq<User>, user: User)
    requires DistinctIds(users) && user.id == NextId(users)
    ensures DistinctIds(users + [user])
  {
    var all := users + [user];
    forall i, j | 0 <= i < j < |all| ensures all[i].id != all[j].id {
      assert all[i] == users[i];
      if j < |users| {
        assert all[j] == users[j];
      }
    }
  }

  /** `register`: username, password and email must be truthy; an email in
      use is refused; otherwise one shopper with id `NextId` and the
      password's digest is appended. Users is written only on success. */
  method Register(db: Database, username: Option<string>, password: Option<string>, email: Option<string>,
                  hash: string -> string)
    returns (r: Result<()>)
    modifies db`users
    ensures !(Truthy(username) && Truthy(password) && Truthy(email)) ==>
      r == Err(InvalidInput) && db.users == old(db.users)
    ensures Truthy(username) && Truthy(password) && Truthy(email) && EmailInUse(old(db.users), email.value) ==>
      r == Err(EmailTaken) && db.users == old(db.users)
    ensures Truthy(username) && Truthy(password) && Truthy(email) && !EmailInUse(old(db.users), email.value) ==>
      && r == Ok(())
      && db.users == old(db.users) + [User(NextId(old(db.users)), username.value, email.value,
                                           hash(password.value), ShopperRole)]
    ensures DistinctEmails(old(db.users)) ==> DistinctEmails(db.users)
    ensures DistinctIds(old(db.users)) ==> DistinctIds(db.users)
  {
    if !Truthy(username) || !Truthy(password) || !Truthy(email) {
      return Err(InvalidInput);
    }
    if exists i :: 0 <= i < |db.users| && db.users[i].email == email.value {
      return Err(EmailTaken);
    }
    var user := User(NextId(db.users), username.value, email.value, hash(password.value), ShopperRole);
    if DistinctEmails(db.users) {
      FreshEmailKeepsDistinct(db.users, user);
    }
    if DistinctIds(db.users) {
      NextIdKeepsDistinct(db.users, user);
    }
    db.users := db.users + [user];
    r := Ok(());
  }
}
