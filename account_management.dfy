/**
 * The account page: the user list with its add/edit form, deletion, the
 * active switch, the search and role filters and the per-role counts.
 *
 * The list operations are pure functions over `seq<User>`; the page is a class
 * whose `users`, `editingUser` and `formData` fields the handlers replace. The
 * logged-in account is passed to the guarded handlers as `currentUser`.
 */
module AccountManagement {
  import opened Wrappers
  import opened UserTypes
  import opened Text

  /** The add/edit form. */
  datatype AccountForm = AccountForm(username: string, password: string, role: Role, isActive: bool)

  const EmptyForm := AccountForm("", "", Operator, true)

  /** Why a submission was refused. */
  datatype AccountError = BlankUsername | BlankPassword | DuplicateUsername

  /**
   * `users.find(u => u.username === username && u.id !== editingUser?.id)`
   * succeeds: another account already has that name. When adding, every
   * account counts as another.
   */
  predicate UsernameTaken(users: seq<User>, username: string, editingId: Option<string>) {
    exists i :: 0 <= i < |users| && users[i].username == username && (editingId.None? || users[i].id != editingId.value)
  }

  /** The three guards of `handleSubmit`, in order. */
  function Validate(users: seq<User>, form: AccountForm, editingId: Option<string>): (r: Option<AccountError>)
    ensures r == Some(BlankUsername) <==> IsBlank(form.username)
    ensures r == Some(BlankPassword) <==> !IsBlank(form.username) && IsBlank(form.password)
    ensures r == Some(DuplicateUsername) <==>
      !IsBlank(form.username) && !IsBlank(form.password) && UsernameTaken(users, form.username, editingId)
    ensures r.None? ==> !UsernameTaken(users, form.username, editingId)
  {
    TrimEmptyIffBlank(form.username);
    TrimEmptyIffBlank(form.password);
    if Trim(form.username) == "" then Some(BlankUsername)
    else if Trim(form.password) == "" then Some(BlankPassword)
    else if UsernameTaken(users, form.username, editingId) then Some(DuplicateUsername)
    else None
  }

  /** The edited account: the form's fields and its role's permissions, the rest kept. */
  function EditedUser(u: User, form: AccountForm): (r: User)
    ensures r.id == u.id && r.createdAt == u.createdAt && r.lastLogin == u.lastLogin
    ensures r.username == form.username && r.password == form.password && r.role == form.role
    ensures r.permissions == RolePermissions(form.role) && r.isActive == form.isActive
  {
    u.(username := form.username, password := form.password, role := form.role,
       permissions := RolePermissions(form.role), isActive := form.isActive)
  }

  /** The added account: a generated id, the creation time, no login yet. */
  function NewUser(form: AccountForm, id: string, now: string): (r: User)
    ensures r.id == id && r.createdAt == now && r.lastLogin.None?
    ensures r.username == form.username && r.password == form.password && r.role == form.role
    ensures r.permissions == RolePermissions(form.role) && r.isActive == form.isActive
  {
    User(id, form.username, form.password, form.role, RolePermissions(form.role), now, None, form.isActive)
  }

  /** `users.map(user => user.id === id ? edited : user)`. */
  function EditById(users: seq<User>, id: string, form: AccountForm): (r: seq<User>)
    ensures |r| == |users|
    ensures forall i :: 0 <= i < |users| ==> r[i] == if users[i].id == id then EditedUser(users[i], form) else users[i]
  {
    if users == [] then []
    else [if users[0].id == id then EditedUser(users[0], form) else users[0]] + EditById(users[1..], id, form)
  }

  /** `users.filter(user => user.id !== id)`. */
  function WithoutUser(users: seq<User>, id: string): (r: seq<User>)
    ensures |r| <= |users|
    ensures forall u :: u in r <==> u in users && u.id != id
  {
    if users == [] then []
    else if users[0].id == id then WithoutUser(users[1..], id)
    else [users[0]] + WithoutUser(users[1..], id)
  }

  /** Deleting keeps the remaining accounts in their order: it distributes over concatenation. */
  lemma {:induction false} WithoutUserKeepsOrder(a: seq<User>, b: seq<User>, id: string)
    ensures WithoutUser(a + b, id) == WithoutUser(a, id) + WithoutUser(b, id)
  {
    if a != [] {
      assert (a + b)[1..] == a[1..] + b;
      WithoutUserKeepsOrder(a[1..], b, id);
    } else {
      assert a + b == b;
    }
  }

  /** `users.map(user => user.id === id ? {...user, isActive: !user.isActive} : user)`. */
  function ToggleById(users: seq<User>, id: string): (r: seq<User>)
    ensures |r| == |users|
    ensures forall i :: 0 <= i < |users| ==>
      r[i] == if users[i].id == id then users[i].(isActive := !users[i].isActive) else users[i]
  {
    if users == [] then []
    else [if users[0].id == id then users[0].(isActive := !users[0].isActive) else users[0]] + ToggleById(users[1..], id)
  }

  predicate UniqueUsernames(users: seq<User>) {
    forall i, j :: 0 <= i < j < |users| ==> users[i].username != users[j].username
  }

  /** Every account holds exactly its role's permissions. */
  predicate RoleConsistent(users: seq<User>) {
    forall i :: 0 <= i < |users| ==> users[i].permissions == RolePermissions(users[i].role)
  }

  /** An accepted edit keeps usernames distinct: no other account had the new name. */
  lemma EditKeepsUsernamesUnique(users: seq<User>, form: AccountForm, id: string)
    requires UniqueUsernames(users) && UniqueUserIds(users)
    requires !UsernameTaken(users, form.username, Some(id))
    ensures UniqueUsernames(EditById(users, id, form))
  {
    var r := EditById(users, id, form);
    forall i, j | 0 <= i < j < |r| ensures r[i].username != r[j].username {
      if users[i].id == id {
        assert users[j].id != id;
      } else if users[j].id == id {
        assert r[j].username == form.username;
      }
    }
  }

  /** An accepted addition keeps usernames distinct: no account had the new name. */
  lemma AddKeepsUsernamesUnique(users: seq<User>, form: AccountForm, id: string, now: string)
    requires UniqueUsernames(users)
    requires !UsernameTaken(users, form.username, None)
    ensures UniqueUsernames([NewUser(form, id, now)] + users)
  {
    var r := [NewUser(form, id, now)] + users;
    forall i, j | 0 <= i < j < |r| ensures r[i].username != r[j].username {
      assert r[j] == users[j - 1];
      if i > 0 {
        assert r[i] == users[i - 1];
      }
    }
  }

  /** Every list change of the page keeps each account's permissions those of its role. */
  lemma OperationsKeepRoleConsistent(users: seq<User>, form: AccountForm, id: string, now: string)
    requires RoleConsistent(users)
    ensures RoleConsistent(EditById(users, id, form))
    ensures RoleConsistent([NewUser(form, id, now)] + users)
    ensures RoleConsistent(WithoutUser(users, id))
    ensures RoleConsistent(ToggleById(users, id))
  {
    var added := [NewUser(form, id, now)] + users;
    forall i | 0 <= i < |added| ensures added[i].permissions == RolePermissions(added[i].role) {
      if i > 0 {
        assert added[i] == users[i - 1];
      }
    }
    var w := WithoutUser(users, id);
    forall i | 0 <= i < |w| ensures w[i].permissions == RolePermissions(w[i].role) {
      assert w[i] in users;
    }
  }

  /** `users.filter(pred).length` for the role and active counts of `stats`. */
  function CountRole(users: seq<User>, role: Role): (n: nat)
    ensures n <= |users|
  {
    if users == [] then 0
    else (if users[0].role == role then 1 else 0) + CountRole(users[1..], role)
  }

  function CountActive(users: seq<User>): (n: nat)
    ensures n <= |users|
    ensures n == 0 <==> forall i :: 0 <= i < |users| ==> !users[i].isActive
    ensures n == |users| <==> forall i :: 0 <= i < |users| ==> users[i].isActive
  {
    if users == [] then 0
    else
      assert forall i :: 1 <= i < |users| ==> users[i] == users[1..][i - 1];
      (if users[0].isActive then 1 else 0) + CountActive(users[1..])
  }

  lemma {:induction false} ToggleAbsent(users: seq<User>, id: string)
    requires forall j :: 0 <= j < |users| ==> users[j].id != id
    ensures ToggleById(users, id) == users
  {
    if users != [] {
      ToggleAbsent(users[1..], id);
    }
  }

  /** With distinct ids, switching one account moves it into or out of the active count. */
  lemma {:induction false} ToggleMovesActiveCount(users: seq<User>, i: nat)
    requires i < |users|
    requires forall j :: 0 <= j < |users| && j != i ==> users[j].id != users[i].id
    ensures CountActive(ToggleById(users, users[i].id)) ==
      if users[i].isActive then CountActive(users) - 1 else CountActive(users) + 1
  {
    var id := users[i].id;
    var r := ToggleById(users, id);
    assert r[0] == if users[0].id == id then users[0].(isActive := !users[0].isActive) else users[0];
    if i == 0 {
      assert ToggleById(users[1..], id) == users[1..] by {
        ToggleAbsent(users[1..], id);
      }
    } else {
      assert users[1..][i - 1] == users[i];
      ToggleMovesActiveCount(users[1..], i - 1);
    }
  }

  /** The four role counts of `stats` add up to the total. */
  lemma {:induction false} RoleCountsSumToTotal(users: seq<User>)
    ensures CountRole(users, Admin) + CountRole(users, Manager)
          + CountRole(users, Operator) + CountRole(users, CustomerRole) == |users|
  {
    if users != [] {
      RoleCountsSumToTotal(users[1..]);
    }
  }

  /** The role filter of the page: all roles, or one. */
  datatype RoleFilter = AllRoles | OnlyRole(role: Role)

  /** `filteredUsers`: the accounts whose name contains the term, ignoring letter case, and whose role passes. */
  function FilteredUsers(users: seq<User>, term: string, filter: RoleFilter): (r: seq<User>)
    ensures forall u :: u in r <==>
      u in users && Contains(Lower(u.username), Lower(term)) && (filter.AllRoles? || u.role == filter.role)
  {
    if users == [] then []
    else
      var rest := FilteredUsers(users[1..], term, filter);
      if Contains(Lower(users[0].username), Lower(term)) && (filter.AllRoles? || users[0].role == filter.role)
      then [users[0]] + rest else rest
  }

  /** The filter keeps the order of the accounts it shows: it distributes over concatenation. */
  lemma {:induction false} FilteredUsersKeepsOrder(a: seq<User>, b: seq<User>, term: string, filter: RoleFilter)
    ensures FilteredUsers(a + b, term, filter) == FilteredUsers(a, term, filter) + FilteredUsers(b, term, filter)
  {
    if a != [] {
      assert (a + b)[1..] == a[1..] + b;
      FilteredUsersKeepsOrder(a[1..], b, term, filter);
    } else {
      assert a + b == b;
    }
  }

  /** The guard of `handleDelete` and `toggleUserStatus`: the logged-in account is off limits. */
  predicate IsCurrentUser(id: string, currentUser: Option<User>) {
    currentUser.Some? && currentUser.value.id == id
  }

  /** The page state. */
  class AccountManagementPage {
    var users: seq<User>
    var editingUser: Option<User>
    var formData: AccountForm

    /** Mount: the stored accounts when there are any, otherwise none. */
    constructor(stored: Option<seq<User>>)
      ensures users == (if stored.Some? then stored.value else [])
      ensures editingUser.None? && formData == EmptyForm
    {
      users := if stored.Some? then stored.value else [];
      editingUser := None;
      formData := EmptyForm;
    }

    /** `handleEdit`: remember the account and fill the form with its values. */
    method HandleEdit(u: User)
      modifies this
      ensures users == old(users) && editingUser == Some(u)
      ensures formData == AccountForm(u.username, u.password, u.role, u.isActive)
    {
      editingUser := Some(u);
      formData := AccountForm(u.username, u.password, u.role, u.isActive);
    }

    /**
     * `handleSubmit`: refuse a blank name or password, or a name another account
     * holds; otherwise edit the account being edited or prepend a new one, then
     * reset the form.
     */
    method HandleSubmit(newId: string, now: string) returns (r: Option<AccountError>)
      modifies this
      ensures r == Validate(old(users), old(formData), if old(editingUser).Some? then Some(old(editingUser).value.id) else None)
      ensures r.Some? ==> users == old(users) && editingUser == old(editingUser) && formData == old(formData)
      ensures r.None? && old(editingUser).Some? ==> users == EditById(old(users), old(editingUser).value.id, old(formData))
      ensures r.None? && old(editingUser).None? ==> users == [NewUser(old(formData), newId, now)] + old(users)
      ensures r.None? ==> editingUser.None? && formData == EmptyForm
      ensures r.None? && UniqueUsernames(old(users)) && UniqueUserIds(old(users)) ==> UniqueUsernames(users)
    {
      var editingId := if editingUser.Some? then Some(editingUser.value.id) else None;
      r := Validate(users, formData, editingId);
      if r.Some? {
        return;
      }
      if editingUser.Some? {
        if UniqueUsernames(users) && UniqueUserIds(users) {
          EditKeepsUsernamesUnique(users, formData, editingUser.value.id);
        }
        users := EditById(users, editingUser.value.id, formData);
        editingUser := None;
      } else {
        if UniqueUsernames(users) {
          AddKeepsUsernamesUnique(users, formData, newId, now);
        }
        users := [NewUser(formData, newId, now)] + users;
      }
      formData := EmptyForm;
    }

    /** `handleDelete`: never the logged-in account; otherwise, after confirmation, drop the id. */
    method HandleDelete(id: string, currentUser: Option<User>, confirmed: bool)
      modifies this
      ensures users == if !IsCurrentUser(id, currentUser) && confirmed then WithoutUser(old(users), id) else old(users)
      ensures editingUser == old(editingUser) && formData == old(formData)
    {
      if IsCurrentUser(id, currentUser) {
        return;
      }
      if confirmed {
        users := WithoutUser(users, id);
      }
    }

    /** `toggleUserStatus`: never the logged-in account; otherwise flip the active flag of the id. */
    method ToggleUserStatus(id: string, currentUser: Option<User>)
      modifies this
      ensures users == if IsCurrentUser(id, currentUser) then old(users) else ToggleById(old(users), id)
      ensures editingUser == old(editingUser) && formData == old(formData)
    {
      if IsCurrentUser(id, currentUser) {
        return;
      }
      users := ToggleById(users, id);
    }
  }
}
