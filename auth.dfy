/**
 * The identity gate: PIN login for waiters and kitchen staff, name and
 * password login for the administrator, logout, and the session kept in
 * the browser's storage across restarts. The storage entry is modelled by
 * what reading it yields; its JSON encoding is not modelled.
 */
module Auth {
  import opened Types
  import opened Seqs
  import opened Routes

  /** The one password the administrator login accepts. */
  const AdminPassword := "admin"

  /** The built-in staff directory logins are checked against. */
  const MockUsers: seq<User> := [
    User("1", "Admin User", None, Admin),
    User("2", "Juan Camarero", Some("1234"), Waiter),
    User("3", "María Camarera", Some("5678"), Waiter),
    User("4", "Chef Carlos", None, Kitchen)
  ]

  /** What reading the stored session yields: nothing, a user, or data that does not parse. */
  datatype Slot = Vacant | Saved(user: User) | Unreadable

  predicate IsUpper(c: char) {
    'A' <= c <= 'Z'
  }

  function LowerChar(c: char): char {
    if IsUpper(c) then (c as int + 32) as char else c
  }

  /** Lower-casing of the ASCII letters A to Z; every other character is kept. */
  function Lower(s: string): (r: string)
    ensures |r| == |s|
    ensures forall i :: 0 <= i < |r| ==> !IsUpper(r[i])
    ensures forall i :: 0 <= i < |s| && !IsUpper(s[i]) ==> r[i] == s[i]
    ensures forall i :: 0 <= i < |s| && IsUpper(s[i]) ==> r[i] as int == s[i] as int + 32
  {
    seq(|s|, i requires 0 <= i < |s| => LowerChar(s[i]))
  }

  /** Lower-casing twice is lower-casing once. */
  lemma LowerIdempotent(s: string)
    ensures Lower(Lower(s)) == Lower(s)
  {
  }

  function PinMatcher(code: string): User -> bool {
    (u: User) => u.code == Some(code) && (u.role == Waiter || u.role == Kitchen)
  }

  /**
   * The user a PIN logs in: the first waiter or kitchen user with that
   * code. An administrator is never found this way.
   */
  function PinUser(users: seq<User>, code: string): (r: Option<User>)
    ensures r.None? <==> forall i :: 0 <= i < |users| ==>
              !(users[i].code == Some(code) && users[i].role in {Waiter, Kitchen})
    ensures r.Some? ==> r.value in users && r.value.code == Some(code) && r.value.role != Admin
    ensures r.Some? ==> exists i :: FirstAt(users, PinMatcher(code), i) && users[i] == r.value
  {
    Find(users, PinMatcher(code))
  }

  function AdminMatcher(key: string): User -> bool {
    (u: User) => Lower(u.name) == key && u.role == Admin
  }

  /** The first administrator whose name equals `username`, ignoring case. */
  function AdminUser(users: seq<User>, username: string): (r: Option<User>)
    ensures r.None? <==> forall i :: 0 <= i < |users| ==>
              !(Lower(users[i].name) == Lower(username) && users[i].role == Admin)
    ensures r.Some? ==> r.value in users && r.value.role == Admin && Lower(r.value.name) == Lower(username)
    ensures r.Some? ==> exists i :: FirstAt(users, AdminMatcher(Lower(username)), i) && users[i] == r.value
  {
    Find(users, AdminMatcher(Lower(username)))
  }

  /** Two spellings of a name that differ only in case find the same administrator. */
  lemma AdminUserIgnoresCase(users: seq<User>, username: string)
    ensures AdminUser(users, Lower(username)) == AdminUser(users, username)
  {
    LowerIdempotent(username);
  }

  /** Where a successful PIN login goes: the waiter view or the kitchen view. */
  function PinLanding(role: UserRole): (r: Option<Route>)
    ensures r.Some? <==> role != Admin
    ensures r.Some? ==> r.value == RouteOfRole(role) && ViewRole(r.value) == Some(role)
  {
    match role
    case Waiter => Some(WaiterView)
    case Kitchen => Some(KitchenView)
    case Admin => None
  }

  /** A PIN login always lands on a view, and that view's role check lets the user stay. */
  lemma PinLoginLandsOnOwnView(users: seq<User>, code: string)
    requires PinUser(users, code).Some?
    ensures var u := PinUser(users, code).value;
            PinLanding(u.role).Some? &&
            ViewRole(PinLanding(u.role).value) == Some(u.role) &&
            Redirect(Some(u), u.role).None?
  {
  }

  /** With the built-in directory, the two waiter PINs log in their waiters. */
  lemma MockWaiterPins()
    ensures PinUser(MockUsers, "1234") == Some(MockUsers[1])
    ensures PinUser(MockUsers, "5678") == Some(MockUsers[2])
  {
    assert PinMatcher("1234")(MockUsers[1]);
    assert PinMatcher("5678")(MockUsers[2]);
  }

  /** The built-in kitchen user has no PIN, so no PIN logs anyone into the kitchen view. */
  lemma MockKitchenHasNoPin(code: string)
    ensures PinUser(MockUsers, code).Some? ==> PinUser(MockUsers, code).value.role == Waiter
  {
  }

  /** With the built-in directory, the lower-case spelling of the administrator's name finds them. */
  lemma MockAdminLowerName()
    ensures AdminUser(MockUsers, "admin user") == Some(MockUsers[0])
  {
    assert Lower("Admin User") == "admin user";
    assert Lower("admin user") == "admin user";
    assert AdminMatcher("admin user")(MockUsers[0]);
  }

  /** With the built-in directory, "admin user" spelled in any mix of cases finds the administrator. */
  lemma MockAdminByName(username: string)
    requires Lower(username) == "admin user"
    ensures AdminUser(MockUsers, username) == Some(MockUsers[0])
  {
    MockAdminLowerName();
    AdminUserIgnoresCase(MockUsers, username);
  }

  /** The signed-in user, the loading flag and the stored session entry. */
  class Session {
    const users: seq<User>
    var user: Option<User>
    var isLoading: bool
    var storage: Slot

    /** Before the session is restored nobody is signed in and the gate is loading. */
    constructor(users: seq<User>, storage: Slot)
      ensures this.users == users && this.storage == storage
      ensures user == None && isLoading
    {
      this.users := users;
      this.storage := storage;
      user := None;
      isLoading := true;
    }

    /**
     * Reads the stored session: a stored user becomes the signed-in user,
     * data that does not parse is removed, and loading ends either way.
     */
    method RestoreSession()
      modifies this
      ensures !isLoading
      ensures old(storage).Saved? ==> user == Some(old(storage).user) && storage == old(storage)
      ensures old(storage).Unreadable? ==> user == old(user) && storage == Vacant
      ensures old(storage).Vacant? ==> user == old(user) && storage == Vacant
    {
      match storage {
        case Saved(u) =>
          user := Some(u);
        case Unreadable =>
          storage := Vacant;
        case Vacant =>
      }
      isLoading := false;
    }

    /**
     * PIN login. On success the first matching user is signed in and
     * stored, and the route is that user's view; on failure nothing
     * changes. Loading is over afterwards.
     */
    method Login(code: string) returns (route: Option<Route>)
      modifies this
      ensures !isLoading
      ensures PinUser(users, code).Some? ==>
                var u := PinUser(users, code).value;
                user == Some(u) && storage == Saved(u) &&
                (u.role == Waiter ==> route == Some(WaiterView)) &&
                (u.role == Kitchen ==> route == Some(KitchenView))
      ensures PinUser(users, code).None? ==> user == old(user) && storage == old(storage) && route == None
    {
      isLoading := true;
      route := None;
      var found := PinUser(users, code);
      if found.Some? {
        var u := found.value;
        user := Some(u);
        storage := Saved(u);
        if u.role == Waiter {
          route := Some(WaiterView);
        } else if u.role == Kitchen {
          route := Some(KitchenView);
        }
      }
      isLoading := false;
    }

    /**
     * Administrator login: succeeds exactly when an administrator has this
     * name, ignoring case, and the password is the fixed one. On success
     * the user is signed in and stored and the route is the admin view; on
     * failure nothing changes. Loading is over afterwards.
     */
    method AdminLogin(username: string, password: string) returns (route: Option<Route>)
      modifies this
      ensures !isLoading
      ensures route.Some? <==> AdminUser(users, username).Some? && password == AdminPassword
      ensures route.Some? ==>
                route == Some(AdminView) &&
                user == AdminUser(users, username) && storage == Saved(AdminUser(users, username).value)
      ensures route.None? ==> user == old(user) && storage == old(storage)
    {
      isLoading := true;
      route := None;
      var found := AdminUser(users, username);
      if found.Some? && password == AdminPassword {
        user := found;
        storage := Saved(found.value);
        route := Some(AdminView);
      }
      isLoading := false;
    }

    /** Signs out, forgets the stored session and goes home. */
    method Logout() returns (route: Route)
      modifies this
      ensures user == None && storage == Vacant && route == Home
      ensures isLoading == old(isLoading)
    {
      user := None;
      storage := Vacant;
      route := Home;
    }
  }

  /**
   * A session outlives a restart: after a successful PIN login, a new
   * session restored from the same storage has the same user signed in;
   * after a logout it has nobody.
   */
  method RestartKeepsSession(users: seq<User>, code: string) returns (loggedIn: Option<User>, restored: Option<User>, afterLogout: Option<User>)
    ensures loggedIn == PinUser(users, code)
    ensures loggedIn.Some? ==> restored == loggedIn
    ensures afterLogout == None
  {
    var first := new Session(users, Vacant);
    first.RestoreSession();
    var _ := first.Login(code);
    loggedIn := first.user;
    var second := new Session(users, first.storage);
    second.RestoreSession();
    restored := second.user;
    var _ := second.Logout();
    var third := new Session(users, second.storage);
    third.RestoreSession();
    afterLogout := third.user;
  }
}
