/** The user store and the session: users live in a list under the `laundry_users` key of
    local storage, seeded with four accounts the first time it is read, and the logged-in user
    is a copy kept under `currentUser` in session storage. */
module AuthService {
  import opened Seqs
  import opened Text
  import opened Records

  /** The accounts an empty store is seeded with. */
  const InitialUsers: seq<User> := [
    User("1", "admin1", "admin1", Admin, AllPermissions),
    User("2", "admin2", "admin2", Admin, AllPermissions),
    User("3", "admin3", "admin3", Admin, AllPermissions),
    User("4", "staff1", "staff1", Staff, [TicketsView, TicketsCreate])
  ]

  /** The fields of a user to add, everything but the id. */
  datatype NewUser = NewUser(username: string, password: string, role: Role, permissions: seq<Permission>)

  /** `users.find(...)` for a login: the first user with both the username and the password. */
  function FindUser(users: seq<User>, username: string, password: string): (r: Option<User>)
    ensures r.Some? ==> r.value in users && r.value.username == username && r.value.password == password
    ensures r.None? ==> forall u :: u in users ==> !(u.username == username && u.password == password)
    decreases |users|
  {
    if users == [] then None
    else if users[0].username == username && users[0].password == password then Some(users[0])
    else FindUser(users[1..], username, password)
  }

  /** Position `i` holds the first user with the credentials. */
  predicate FirstWithCredentials(users: seq<User>, i: int, username: string, password: string)
  {
    0 <= i < |users| && users[i].username == username && users[i].password == password &&
    forall j :: 0 <= j < i ==> !(users[j].username == username && users[j].password == password)
  }

  /** The user found is the first in the list with those credentials. */
  lemma {:induction false} FindUserIsFirst(users: seq<User>, username: string, password: string)
    requires FindUser(users, username, password).Some?
    ensures exists i :: FirstWithCredentials(users, i, username, password) && users[i] == FindUser(users, username, password).value
    decreases |users|
  {
    if !(users[0].username == username && users[0].password == password) {
      var rest := users[1..];
      FindUserIsFirst(rest, username, password);
      var i :| FirstWithCredentials(rest, i, username, password) && rest[i] == FindUser(rest, username, password).value;
      assert users[i + 1] == rest[i];
      forall j | 0 <= j < i + 1
        ensures !(users[j].username == username && users[j].password == password)
      {
        if j > 0 {
          assert users[j] == rest[j - 1];
        }
      }
      assert FirstWithCredentials(users, i + 1, username, password);
    } else {
      assert FirstWithCredentials(users, 0, username, password);
    }
  }

  /** `users.findIndex(u => u.id === userId)`. */
  function IndexOfUser(users: seq<User>, id: string): (r: Option<nat>)
    ensures r.Some? ==> r.value < |users| && users[r.value].id == id
    ensures r.Some? ==> forall j :: 0 <= j < r.value ==> users[j].id != id
    ensures r.None? ==> forall j :: 0 <= j < |users| ==> users[j].id != id
  {
    FindIndex(users, (u: User) => u.id == id)
  }

  /** The user at position `i` has the id `i + 1`: true of the seed, kept by every operation
      since users are only appended (with id count + 1) and never deleted. */
  predicate IdsArePositions(users: seq<User>)
  {
    forall i :: 0 <= i < |users| ==> users[i].id == ToDecimal(i + 1)
  }

  lemma {:induction false} InitialUsersShape()
    ensures |InitialUsers| == 4 && IdsArePositions(InitialUsers)
    ensures forall i :: 0 <= i < 3 ==> InitialUsers[i].role == Admin && InitialUsers[i].permissions == AllPermissions
    ensures InitialUsers[3].username == "staff1" && InitialUsers[3].role == Staff
    ensures InitialUsers[3].permissions == [TicketsView, TicketsCreate]
  {
    assert ToDecimal(1) == "1" && ToDecimal(2) == "2" && ToDecimal(3) == "3" && ToDecimal(4) == "4";
  }

  /** On the seeded store the staff account logs in as user "4", which may view and create
      tickets and do nothing else. */
  lemma {:induction false} StaffLogin(p: Permission)
    ensures FindUser(InitialUsers, "staff1", "staff1") == Some(InitialUsers[3])
    ensures InitialUsers[3].id == "4"
    ensures p in InitialUsers[3].permissions <==> p == TicketsView || p == TicketsCreate
  {
    assert InitialUsers[1..][1..][1..] == [InitialUsers[3]];
  }

  /** Ids that are positions are unique. */
  lemma {:induction false} IdsAreUnique(users: seq<User>)
    requires IdsArePositions(users)
    ensures forall i, j :: 0 <= i < |users| && 0 <= j < |users| && users[i].id == users[j].id ==> i == j
  {
    forall i, j | 0 <= i < |users| && 0 <= j < |users| && users[i].id == users[j].id
      ensures i == j
    {
      ToDecimalInjective(i + 1, j + 1);
    }
  }

  class UserStore {
    var laundryUsers: Option<seq<User>>
    var currentUser: Option<User>

    constructor()
      ensures laundryUsers == None && currentUser == None
    {
      laundryUsers := None;
      currentUser := None;
    }

    /** The users a read yields: the stored list, or the seed. */
    function Users(): seq<User>
      reads this
    {
      if laundryUsers.Some? then laundryUsers.value else InitialUsers
    }

    /** `getUsers`: an empty store is seeded with the initial users, which are saved. */
    method GetUsers() returns (users: seq<User>)
      modifies this
      ensures users == old(Users()) && laundryUsers == Some(users) && currentUser == old(currentUser)
    {
      if laundryUsers.None? {
        laundryUsers := Some(InitialUsers);
      }
      users := laundryUsers.value;
    }

    /** `login`: the first user with the credentials becomes the session user and is returned;
        with no such user the session is untouched and nothing is returned. */
    method Login(username: string, password: string) returns (r: Option<User>)
      modifies this
      ensures r == FindUser(old(Users()), username, password)
      ensures r.Some? ==> currentUser == r && forall p :: HasPermission(p) <==> p in r.value.permissions
      ensures r.None? ==> currentUser == old(currentUser)
      ensures laundryUsers == Some(old(Users()))
    {
      var users := GetUsers();
      r := FindUser(users, username, password);
      if r.Some? {
        currentUser := r;
      }
    }

    /** `logout`: no session user remains, so no permission is held. */
    method Logout()
      modifies this
      ensures currentUser == None && laundryUsers == old(laundryUsers)
      ensures forall p :: !HasPermission(p)
    {
      currentUser := None;
    }

    /** `hasPermission`: there is a session user and the permission is in their list. */
    function HasPermission(p: Permission): bool
      reads this
    {
      currentUser.Some? && p in currentUser.value.permissions
    }

    /** `addUser`: the new user gets the id count + 1 and is appended; the others are kept. */
    method AddUser(newUser: NewUser) returns (user: User)
      modifies this
      ensures user == User(ToDecimal(|old(Users())| + 1), newUser.username, newUser.password, newUser.role, newUser.permissions)
      ensures laundryUsers == Some(old(Users()) + [user]) && currentUser == old(currentUser)
      ensures IdsArePositions(old(Users())) ==> IdsArePositions(Users())
    {
      var users := GetUsers();
      var id := ToDecimal(|users| + 1);
      user := User(id, newUser.username, newUser.password, newUser.role, newUser.permissions);
      users := users + [user];
      laundryUsers := Some(users);
    }

    /** `updateUserPermissions`: an unknown id changes nothing (beyond seeding) and returns
        nothing; otherwise only that user's permissions are replaced, the user is returned, and
        when it is the session user the session copy is refreshed from the store. */
    method UpdateUserPermissions(userId: string, permissions: seq<Permission>) returns (r: Option<User>)
      modifies this
      ensures IndexOfUser(old(Users()), userId).None? ==>
        r == None && laundryUsers == Some(old(Users())) && currentUser == old(currentUser)
      ensures IndexOfUser(old(Users()), userId).Some? ==>
        var i := IndexOfUser(old(Users()), userId).value;
        r == Some(old(Users())[i].(permissions := permissions)) &&
        laundryUsers == Some(old(Users())[i := r.value]) &&
        currentUser == (if old(currentUser).Some? && old(currentUser).value.id == userId then r else old(currentUser))
      ensures IdsArePositions(old(Users())) ==> IdsArePositions(Users())
    {
      var users := GetUsers();
      var userIndex := IndexOfUser(users, userId);
      if userIndex.None? {
        return None;
      }
      var i := userIndex.value;
      users := users[i := users[i].(permissions := permissions)];
      laundryUsers := Some(users);
      if currentUser.Some? && currentUser.value.id == userId {
        currentUser := Some(users[i]);
      }
      r := Some(users[i]);
    }
  }
}
