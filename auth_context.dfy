/**
 * The login session: the `users` and `currentUser` entries of local storage,
 * the session's `user` and `isAuthenticated` flag, and the operations that
 * seed, log in, log out, check a permission and change a password.
 */
module AuthContext {
  import opened Wrappers
  import opened UserTypes

  /** The administrator seeded into an empty store. */
  function DefaultAdmin(now: string): (u: User)
    ensures u.id == "admin-001" && u.username == "admin" && u.password == "123"
    ensures u.role == Admin && u.isActive && u.permissions == AllPermissions
    ensures u.permissions == RolePermissions(Admin)
    ensures u.createdAt == now && u.lastLogin.None?
  {
    User("admin-001", "admin", "123", Admin, AllPermissions, now, None, true)
  }

  /** The account a login attempt opens: matching name and password, and active. */
  predicate OpensSession(u: User, username: string, password: string) {
    u.username == username && u.password == password && u.isActive
  }

  /** `users.find(...)` of `login`: the first account the credentials open. */
  function FindLogin(users: seq<User>, username: string, password: string): (r: Option<User>)
    ensures r.None? <==> forall i :: 0 <= i < |users| ==> !OpensSession(users[i], username, password)
    ensures r.Some? ==> r.value in users && OpensSession(r.value, username, password)
    ensures r.Some? ==> exists i :: 0 <= i < |users| && users[i] == r.value &&
                          forall j :: 0 <= j < i ==> !OpensSession(users[j], username, password)
  {
    if users == [] then None
    else if OpensSession(users[0], username, password) then Some(users[0])
    else
      var r := FindLogin(users[1..], username, password);
      assert forall i :: 1 <= i < |users| ==> users[i] == users[1..][i - 1];
      r
  }

  /** `users.map(u => u.id === id ? updated : u)`. */
  function ReplaceById(users: seq<User>, id: string, updated: User): (r: seq<User>)
    ensures |r| == |users|
    ensures forall i :: 0 <= i < |users| ==> r[i] == if users[i].id == id then updated else users[i]
  {
    if users == [] then []
    else [if users[0].id == id then updated else users[0]] + ReplaceById(users[1..], id, updated)
  }

  /**
   * Replacing a stored account by a copy of itself with some fields changed:
   * among distinct ids, only that account changes, and only as the copy says.
   */
  lemma ReplaceOwnRecord(users: seq<User>, u: User, updated: User)
    requires UniqueUserIds(users) && u in users && updated.id == u.id
    ensures forall i :: 0 <= i < |users| ==>
      ReplaceById(users, u.id, updated)[i] == if users[i] == u then updated else users[i]
  {
    var k :| 0 <= k < |users| && users[k] == u;
    forall i | 0 <= i < |users|
      ensures ReplaceById(users, u.id, updated)[i] == if users[i] == u then updated else users[i]
    {
      if users[i].id == u.id && i != k {
        assert false;
      }
    }
  }

  /** A successful login changes nothing in the stored accounts but that account's `lastLogin`. */
  lemma LoginTouchesOnlyLastLogin(users: seq<User>, username: string, password: string, now: string)
    requires UniqueUserIds(users) && FindLogin(users, username, password).Some?
    ensures var f := FindLogin(users, username, password).value;
      forall i :: 0 <= i < |users| ==>
        ReplaceById(users, f.id, f.(lastLogin := Some(now)))[i] ==
          if users[i] == f then users[i].(lastLogin := Some(now)) else users[i]
  {
    var f := FindLogin(users, username, password).value;
    ReplaceOwnRecord(users, f, f.(lastLogin := Some(now)));
  }

  /**
   * When the session copy equals its stored account, changing the password
   * changes nothing in the stored accounts but that account's password.
   */
  lemma ChangePasswordTouchesOnlyPassword(users: seq<User>, session: User, newPassword: string)
    requires UniqueUserIds(users) && session in users
    ensures forall i :: 0 <= i < |users| ==>
      ReplaceById(users, session.id, session.(password := newPassword))[i] ==
        if users[i] == session then users[i].(password := newPassword) else users[i]
  {
    ReplaceOwnRecord(users, session, session.(password := newPassword));
  }

  /**
   * When the stored account moved on since login (here its role was changed),
   * changing the password writes the session's stale copy back over it.
   */
  lemma ChangePasswordWritesBackSession()
    ensures var session := User("u-1", "li", "abc", Operator, RolePermissions(Operator), "t0", None, true);
      var stored := [session.(role := Manager, permissions := RolePermissions(Manager))];
      ReplaceById(stored, session.id, session.(password := "xyz"))[0].role == Operator
  {
    var session := User("u-1", "li", "abc", Operator, RolePermissions(Operator), "t0", None, true);
    var stored := [session.(role := Manager, permissions := RolePermissions(Manager))];
    assert ReplaceById(stored, session.id, session.(password := "xyz"))[0] == session.(password := "xyz");
  }

  /** `permissions.some(p => p.id === permissionId)`. */
  function HoldsId(ps: seq<Permission>, permissionId: string): (b: bool)
    ensures b <==> exists i :: 0 <= i < |ps| && ps[i].id == permissionId
  {
    if ps == [] then false
    else ps[0].id == permissionId || HoldsId(ps[1..], permissionId)
  }

  /** `hasPermission`: no session grants nothing; otherwise the session's list decides. */
  function HasPermission(user: Option<User>, permissionId: string): (b: bool)
    ensures user.None? ==> !b
    ensures user.Some? ==> (b <==> permissionId in Ids(user.value.permissions))
  {
    if user.None? then false
    else
      var ps := user.value.permissions;
      assert HoldsId(ps, permissionId) ==> permissionId in Ids(ps) by {
        if HoldsId(ps, permissionId) {
          var i :| 0 <= i < |ps| && ps[i].id == permissionId;
          assert ps[i] in ps;
        }
      }
      HoldsId(ps, permissionId)
  }

  /** For an account whose permissions are its role's, account management is open exactly to admins. */
  lemma AccountManagementOnlyForAdmins(u: User)
    requires u.permissions == RolePermissions(u.role)
    ensures HasPermission(Some(u), AccountManagement.id) <==> u.role == Admin
  {
    OnlyAdminManagesAccounts(u.role);
  }

  /** The seeded administrator holds every permission. */
  lemma DefaultAdminHoldsEverything(now: string)
    ensures forall p :: p in AllPermissions ==> HasPermission(Some(DefaultAdmin(now)), p.id)
  {
  }

  /** Why the password dialog refuses a new password before asking the store. */
  datatype PasswordError = Mismatch | TooShort

  /** The two checks of the password dialog, in order. */
  function ValidateNewPassword(newPassword: string, confirmPassword: string): (r: Option<PasswordError>)
    ensures r == Some(Mismatch) <==> newPassword != confirmPassword
    ensures r == Some(TooShort) <==> newPassword == confirmPassword && |newPassword| < 3
    ensures r.None? ==> newPassword == confirmPassword && |newPassword| >= 3
  {
    if newPassword != confirmPassword then Some(Mismatch)
    else if |newPassword| < 3 then Some(TooShort)
    else None
  }

  /** The session and its two storage entries. */
  class AuthStore {
    var storedUsers: Option<seq<User>>   // the `users` entry
    var storedCurrentUser: Option<User>  // the `currentUser` entry
    var user: Option<User>
    var isAuthenticated: bool

    /**
     * Mount: seed the default administrator when no accounts are stored, and
     * resume a saved session.
     */
    constructor(stored: Option<seq<User>>, savedUser: Option<User>, now: string)
      ensures storedUsers == (if stored.None? then Some([DefaultAdmin(now)]) else stored)
      ensures storedCurrentUser == savedUser && user == savedUser
      ensures isAuthenticated <==> savedUser.Some?
    {
      storedUsers := if stored.None? then Some([DefaultAdmin(now)]) else stored;
      storedCurrentUser := savedUser;
      user := savedUser;
      isAuthenticated := savedUser.Some?;
    }

    /**
     * `login`: succeed exactly when a stored account is opened by the
     * credentials; then stamp its `lastLogin` and start the session.
     */
    method Login(username: string, password: string, now: string) returns (ok: bool)
      modifies this
      ensures ok <==> old(storedUsers).Some? && FindLogin(old(storedUsers).value, username, password).Some?
      ensures ok ==>
        var f := FindLogin(old(storedUsers).value, username, password).value;
        var updated := f.(lastLogin := Some(now));
        storedUsers == Some(ReplaceById(old(storedUsers).value, f.id, updated)) &&
        storedCurrentUser == Some(updated) && user == Some(updated) && isAuthenticated
      ensures !ok ==> (storedUsers == old(storedUsers) && storedCurrentUser == old(storedCurrentUser) &&
        user == old(user) && isAuthenticated == old(isAuthenticated))
    {
      if storedUsers.None? {
        return false;
      }
      var users := storedUsers.value;
      var found := FindLogin(users, username, password);
      if found.None? {
        return false;
      }
      var updated := found.value.(lastLogin := Some(now));
      storedUsers := Some(ReplaceById(users, found.value.id, updated));
      storedCurrentUser := Some(updated);
      user := Some(updated);
      isAuthenticated := true;
      ok := true;
    }

    /** `logout`: forget the saved session and end the current one. */
    method Logout()
      modifies this
      ensures storedUsers == old(storedUsers)
      ensures storedCurrentUser.None? && user.None? && !isAuthenticated
    {
      storedCurrentUser := None;
      user := None;
      isAuthenticated := false;
    }

    /**
     * `changePassword`: refuse without a session, with a wrong old password or
     * with no stored accounts; otherwise store the session copy with the new
     * password over the account with its id.
     */
    method ChangePassword(oldPassword: string, newPassword: string) returns (ok: bool)
      modifies this
      ensures ok <==> old(user).Some? && old(user).value.password == oldPassword && old(storedUsers).Some?
      ensures ok ==>
        var updated := old(user).value.(password := newPassword);
        storedUsers == Some(ReplaceById(old(storedUsers).value, updated.id, updated)) &&
        storedCurrentUser == Some(updated) && user == Some(updated) && isAuthenticated == old(isAuthenticated)
      ensures !ok ==> (storedUsers == old(storedUsers) && storedCurrentUser == old(storedCurrentUser) &&
        user == old(user) && isAuthenticated == old(isAuthenticated))
    {
      if user.None? || user.value.password != oldPassword {
        return false;
      }
      if storedUsers.None? {
        return false;
      }
      var updated := user.value.(password := newPassword);
      storedUsers := Some(ReplaceById(storedUsers.value, updated.id, updated));
      storedCurrentUser := Some(updated);
      user := Some(updated);
      ok := true;
    }
  }
}
