/** The user administration screen: the list of users as last read from the store, the user
    whose permissions are being edited, and the form for a new user. Every change goes through
    the user store and is then mirrored in the screen's own list. */
module UserManagement {
  import opened Seqs
  import opened Records
  import opened AuthService
  import opened Text

  /** The permission checklist: each permission with its label. */
  const PermissionOptions: seq<(Permission, string)> := [
    (TicketsView, "Ver tickets"),
    (TicketsCreate, "Crear tickets"),
    (TicketsEdit, "Editar tickets"),
    (MetricsView, "Ver métricas"),
    (InventoryView, "Ver inventario"),
    (InventoryEdit, "Editar inventario"),
    (OrdersView, "Ver pedidos a retirar"),
    (UsersManage, "Gestionar usuarios")
  ]

  /** The checklist offers every permission exactly once. */
  lemma {:induction false} PermissionOptionsComplete(p: Permission)
    ensures |PermissionOptions| == 8
    ensures forall i :: 0 <= i < 8 ==> PermissionOptions[i].0 == AllPermissions[i]
    ensures exists i :: 0 <= i < 8 && PermissionOptions[i].0 == p
    ensures forall i, j :: 0 <= i < j < 8 ==> PermissionOptions[i].0 != PermissionOptions[j].0
  {
    AllPermissionsComplete(p);
    var i :| 0 <= i < 8 && AllPermissions[i] == p;
    assert PermissionOptions[i].0 == p;
  }

  /** The empty new-user form: no name, no password, the staff role and no permissions. */
  const EmptyNewUser := NewUser("", "", Staff, [])

  function IsNot(permission: Permission): Permission -> bool
  {
    (q: Permission) => q != permission
  }

  /** The permission list a checkbox produces from the selected user's: a tick appends the
      permission, an untick removes every occurrence of it. */
  function ToggledPermissions(permissions: seq<Permission>, permission: Permission, checked: bool): seq<Permission>
  {
    if checked then permissions + [permission] else Filter(permissions, IsNot(permission))
  }

  /** Ticking keeps the list and adds the permission at the end; unticking keeps the other
      permissions, in order, and no copy of this one. */
  lemma {:induction false} ToggledPermissionsSpec(permissions: seq<Permission>, permission: Permission, checked: bool, q: Permission)
    ensures checked ==> ToggledPermissions(permissions, permission, checked)[..|permissions|] == permissions
    ensures checked ==> |ToggledPermissions(permissions, permission, checked)| == |permissions| + 1
    ensures checked ==> ToggledPermissions(permissions, permission, checked)[|permissions|] == permission
    ensures !checked ==> IsSubsequence(ToggledPermissions(permissions, permission, checked), permissions)
    ensures !checked ==> (q in ToggledPermissions(permissions, permission, checked) <==> q in permissions && q != permission)
  {
    if !checked {
      FilterIsSubsequence(permissions, IsNot(permission));
      FilterMembership(permissions, IsNot(permission), q);
    } else {
      assert (permissions + [permission])[..|permissions|] == permissions;
    }
  }

  /** `users.map(u => u.id === userId ? updatedUser : u)`. */
  function ReplaceById(users: seq<User>, id: string, updated: User): (r: seq<User>)
    ensures |r| == |users|
    decreases |users|
  {
    if users == [] then []
    else [if users[0].id == id then updated else users[0]] + ReplaceById(users[1..], id, updated)
  }

  /** Each entry with the id is replaced, every other entry is kept. */
  lemma {:induction false} ReplaceByIdAt(users: seq<User>, id: string, updated: User)
    ensures forall i :: 0 <= i < |users| ==> ReplaceById(users, id, updated)[i] == if users[i].id == id then updated else users[i]
    decreases |users|
  {
    if users != [] {
      ReplaceByIdAt(users[1..], id, updated);
      forall i | 1 <= i < |users|
        ensures ReplaceById(users, id, updated)[i] == if users[i].id == id then updated else users[i]
      {
        assert users[i] == users[1..][i - 1];
      }
    }
  }

  /** With ids unique, replacing by id is the store's replacement at the one position holding
      the id, and changes nothing when no position holds it. */
  lemma {:induction false} ReplaceByIdUnique(users: seq<User>, id: string, updated: User)
    requires IdsArePositions(users)
    ensures IndexOfUser(users, id).Some? ==> ReplaceById(users, id, updated) == users[IndexOfUser(users, id).value := updated]
    ensures IndexOfUser(users, id).None? ==> ReplaceById(users, id, updated) == users
  {
    ReplaceByIdAt(users, id, updated);
    IdsAreUnique(users);
  }

  class Screen {
    const store: UserStore
    var users: seq<User>
    var newUser: NewUser
    var selectedUser: Option<User>

    /** The form never sets permissions, so a new user's list stays empty. */
    predicate Valid()
      reads this
    {
      newUser.permissions == []
    }

    /** The screen's list is the stored list, whose ids are positions. */
    predicate Synced()
      reads this, store
    {
      store.laundryUsers == Some(users) && IdsArePositions(users)
    }

    /** The screen opens on an empty list, an empty form and no selection. */
    constructor(store: UserStore)
      ensures this.store == store && Valid()
      ensures users == [] && newUser == EmptyNewUser && selectedUser == None
    {
      this.store := store;
      users := [];
      newUser := EmptyNewUser;
      selectedUser := None;
    }

    /** The mount effect: the list is whatever the store holds, if it holds anything. */
    method Load()
      modifies this
      ensures store.laundryUsers.Some? ==> users == store.laundryUsers.value
      ensures store.laundryUsers.None? ==> users == old(users)
      ensures newUser == old(newUser) && selectedUser == old(selectedUser)
    {
      if store.laundryUsers.Some? {
        users := store.laundryUsers.value;
      }
    }

    /** Clicking a user selects it for editing. */
    method SelectUser(user: User)
      modifies this
      ensures selectedUser == Some(user) && users == old(users) && newUser == old(newUser)
    {
      selectedUser := Some(user);
    }

    /** The name, password and role inputs of the new-user form. */
    method EditNewUser(username: string, password: string, role: Role)
      requires Valid()
      modifies this
      ensures Valid()
      ensures newUser == NewUser(username, password, role, [])
      ensures users == old(users) && selectedUser == old(selectedUser)
    {
      newUser := newUser.(username := username, password := password, role := role);
    }

    /** `handleAddUser`: the store adds the user, the screen appends it to its list, and the form
        is emptied. A user created here holds no permission. */
    method HandleAddUser() returns (user: User)
      requires Valid()
      modifies this, store
      ensures Valid()
      ensures user.username == old(newUser.username) && user.password == old(newUser.password)
      ensures user.role == old(newUser.role) && user.permissions == []
      ensures users == old(users) + [user] && newUser == EmptyNewUser && selectedUser == old(selectedUser)
      ensures user.id == ToDecimal(|old(store.Users())| + 1)
      ensures store.laundryUsers == Some(old(store.Users()) + [user]) && store.currentUser == old(store.currentUser)
      ensures old(Synced()) ==> Synced()
    {
      user := store.AddUser(newUser);
      users := users + [user];
      newUser := EmptyNewUser;
    }

    /** `handleUpdatePermissions`: without a selected user nothing happens; otherwise the
        checkbox's list is sent to the store and, when the store finds the user, the user
        becomes the selection and replaces the list entries with its id. */
    method HandleUpdatePermissions(userId: string, permission: Permission, checked: bool)
      requires Valid()
      modifies this, store
      ensures Valid() && newUser == old(newUser)
      ensures old(selectedUser).None? ==>
        users == old(users) && selectedUser == None && store.laundryUsers == old(store.laundryUsers)
        && store.currentUser == old(store.currentUser)
      ensures old(selectedUser).Some? && IndexOfUser(old(store.Users()), userId).None? ==>
        users == old(users) && selectedUser == old(selectedUser)
        && store.laundryUsers == Some(old(store.Users())) && store.currentUser == old(store.currentUser)
      ensures old(selectedUser).Some? && IndexOfUser(old(store.Users()), userId).Some? ==>
        var i := IndexOfUser(old(store.Users()), userId).value;
        var updated := old(store.Users())[i].(permissions := ToggledPermissions(old(selectedUser).value.permissions, permission, checked));
        selectedUser == Some(updated) && users == ReplaceById(old(users), userId, updated)
        && store.laundryUsers == Some(old(store.Users())[i := updated])
        && store.currentUser ==
             (if old(store.currentUser).Some? && old(store.currentUser).value.id == userId then Some(updated)
              else old(store.currentUser))
      ensures old(Synced()) ==> Synced()
    {
      if selectedUser.None? {
        return;
      }
      var newPermissions := ToggledPermissions(selectedUser.value.permissions, permission, checked);
      ghost var wasSynced := Synced();
      var updatedUser := store.UpdateUserPermissions(userId, newPermissions);
      if updatedUser.Some? {
        if wasSynced {
          ReplaceByIdUnique(users, userId, updatedUser.value);
        }
        selectedUser := updatedUser;
        users := ReplaceById(users, userId, updatedUser.value);
      }
    }
  }
}
