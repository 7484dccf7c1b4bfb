/** The user slice of the application state: the signed-in user, the team
    roster and the authentication flag. */
module UserSlice {
  import opened Types
  import opened Seqs
  import SampleData

  /** The demo roster the application starts with. */
  function InitialUsers(): (r: seq<User>)
    ensures |r| == 4 && r[0] == SampleData.You
    ensures [r[0].id, r[1].id, r[2].id, r[3].id] == ["1", "2", "3", "4"]
  {
    [SampleData.You, SampleData.Sarah, SampleData.Mike, SampleData.Emma]
  }

  /** The roster after `updateUserStatus`: only the first user with that id gets
      the new status; an unknown id changes nothing. */
  function WithStatus(users: seq<User>, userId: string, status: Status): (r: seq<User>)
    ensures |r| == |users|
    ensures (forall i :: 0 <= i < |users| ==> users[i].id != userId) ==> r == users
    ensures forall k :: 0 <= k < |users| && users[k].id == userId &&
                        (forall j :: 0 <= j < k ==> users[j].id != userId) ==>
              r == users[k := users[k].(status := status)]
  {
    match FindIndex(users, (u: User) => u.id == userId)
    case None => users
    case Some(k) => users[k := users[k].(status := status)]
  }

  /** A status update keeps every user's id, so it cannot make an id appear or vanish. */
  lemma WithStatusKeepsIds(users: seq<User>, userId: string, status: Status)
    ensures forall i :: 0 <= i < |users| ==> WithStatus(users, userId, status)[i].id == users[i].id
  {
    match FindIndex(users, (u: User) => u.id == userId)
    case None =>
    case Some(k) =>
  }

  class UserState {
    var currentUser: Option<User>
    var users: seq<User>
    var isAuthenticated: bool
    var isLoading: bool
    var error: Option<string>

    /** Signed in exactly when there is a current user. */
    ghost predicate Valid()
      reads this
    {
      isAuthenticated <==> currentUser.Some?
    }

    /** The initial state: signed in as user '1', who is on the roster. */
    constructor ()
      ensures Valid()
      ensures currentUser == Some(SampleData.You) && users == InitialUsers() && isAuthenticated
      ensures currentUser.value.id == users[0].id
      ensures !isLoading && error == None
    {
      currentUser := Some(SampleData.You);
      users := InitialUsers();
      isAuthenticated := true;
      isLoading := false;
      error := None;
    }

    /** Signs `user` in; the roster is untouched. */
    method SetCurrentUser(user: User)
      modifies this
      ensures currentUser == Some(user) && isAuthenticated && Valid()
      ensures users == old(users) && isLoading == old(isLoading) && error == old(error)
    {
      currentUser := Some(user);
      isAuthenticated := true;
    }

    /** Sets the status of the first roster entry with id `userId`, and of the
        current user when that is the one with this id. */
    method UpdateUserStatus(userId: string, status: Status)
      modifies this
      ensures users == WithStatus(old(users), userId, status)
      ensures currentUser == if old(currentUser).Some? && old(currentUser).value.id == userId
                             then Some(old(currentUser).value.(status := status))
                             else old(currentUser)
      ensures isAuthenticated == old(isAuthenticated) && Valid() == old(Valid())
      ensures isLoading == old(isLoading) && error == old(error)
    {
      var found := FindIndex(users, (u: User) => u.id == userId);
      if found.Some? {
        var k := found.value;
        users := users[k := users[k].(status := status)];
      }
      if currentUser.Some? && currentUser.value.id == userId {
        currentUser := Some(currentUser.value.(status := status));
      }
    }

    /** Appends a user to the roster, without checking for a duplicate id. */
    method AddUser(user: User)
      modifies this
      ensures users == old(users) + [user]
      ensures currentUser == old(currentUser) && isAuthenticated == old(isAuthenticated)
      ensures isLoading == old(isLoading) && error == old(error) && Valid() == old(Valid())
    {
      users := users + [user];
    }

    /** Replaces the roster wholesale. */
    method SetUsers(newUsers: seq<User>)
      modifies this
      ensures users == newUsers
      ensures currentUser == old(currentUser) && isAuthenticated == old(isAuthenticated)
      ensures isLoading == old(isLoading) && error == old(error) && Valid() == old(Valid())
    {
      users := newUsers;
    }

    /** Signs out; the roster is untouched. */
    method Logout()
      modifies this
      ensures currentUser == None && !isAuthenticated && Valid()
      ensures users == old(users) && isLoading == old(isLoading) && error == old(error)
    {
      currentUser := None;
      isAuthenticated := false;
    }
  }
}
