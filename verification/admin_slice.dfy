/** The browser's admin store: the user list as last fetched, a request
    status and an error message, updated in place by the reducers of the
    four admin requests. */
module AdminSlice {
  import opened Lists
  import opened Records

  function AccountIndex(users: seq<Account>, id: int): (r: Option<nat>)
    ensures r.Some? ==> r.value < |users| && users[r.value].id == id
    ensures r.Some? ==> forall j :: 0 <= j < r.value ==> users[j].id != id
    ensures r.None? <==> forall j :: 0 <= j < |users| ==> users[j].id != id
  {
    FindIndex(users, (u: Account) => u.id == id)
  }

  /** The users without those whose id is `id`, the others in order. */
  function WithoutAccount(users: seq<Account>, id: int): (r: seq<Account>)
    ensures forall i :: 0 <= i < |r| ==> r[i] in users && r[i].id != id
    ensures forall i :: 0 <= i < |users| && users[i].id != id ==> users[i] in r
    ensures forall i :: 0 <= i < |users| && users[i].id != id ==>
      multiset(r)[users[i]] == multiset(users)[users[i]]
    ensures IsSubsequence(r, users)
  {
    Filter(users, (u: Account) => u.id != id)
  }

  /** The list with the first user whose id is `edited.id` replaced by
      `edited`; unchanged when no user has that id. */
  function ReplacedAccount(users: seq<Account>, edited: Account): (r: seq<Account>)
    ensures |r| == |users|
    ensures AccountIndex(users, edited.id).None? ==> r == users
    ensures AccountIndex(users, edited.id).Some? ==>
      var k := AccountIndex(users, edited.id).value;
      r[k] == edited && forall j :: 0 <= j < |r| && j != k ==> r[j] == users[j]
  {
    match AccountIndex(users, edited.id)
    case None => users
    case Some(k) => users[k := edited]
  }

  class AdminState {
    var users: seq<Account>
    var status: Status
    var error: Option<string>

    constructor ()
      ensures users == [] && status == Idle && error == None
    {
      users, status, error := [], Idle, None;
    }

    /** Every `.pending` case: only the status changes. */
    method Pending()
      modifies this`status
      ensures status == Loading
    {
      status := Loading;
    }

    /** Every `.rejected` case: the status fails and the message is kept. */
    method Rejected(message: Option<string>)
      modifies this`status, this`error
      ensures status == Failed && error == OrNull(message)
    {
      status := Failed;
      error := OrNull(message);
    }

    method AddUserFulfilled(user: Account)
      modifies this`status, this`users
      ensures status == Succeeded && users == old(users) + [user]
    {
      status := Succeeded;
      users := users + [user];
    }

    /** `deleteUser.fulfilled`: filters on the id the request was made with;
        the server's renumbering is not mirrored. */
    method DeleteUserFulfilled(arg: int)
      modifies this`status, this`users
      ensures status == Succeeded && users == WithoutAccount(old(users), arg)
    {
      status := Succeeded;
      users := WithoutAccount(users, arg);
    }

    method GetUsersFulfilled(payload: seq<Account>)
      modifies this`status, this`users
      ensures status == Succeeded && users == payload
    {
      status := Succeeded;
      users := payload;
    }

    method EditUserFulfilled(payload: Account)
      modifies this`status, this`users
      ensures status == Succeeded && users == ReplacedAccount(old(users), payload)
    {
      status := Succeeded;
      var k := AccountIndex(users, payload.id);
      if k.Some? {
        users := users[k.value := payload];
      }
    }
  }
}
