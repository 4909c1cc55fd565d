/** The user page (app/dashboard/users/page.tsx): the search/role filter, the role label and colour,
    and the add, edit and delete list updates. */
module Users {
  import opened Text
  import opened Lists

  /** A user as the backend returns it; the join date is formatted outside the model. */
  datatype User = User(id: int, name: string, email: string, phone: string, role: string, createdAt: string, password: string)

  /** The "Add User" form, the body of the POST. */
  datatype UserForm = UserForm(name: string, email: string, phone: string, password: string)

  const EmptyForm: UserForm := UserForm("", "", "", "")

  /** Name and email are searched case-insensitively, the phone number as typed. */
  predicate MatchesSearch(user: User, searchTerm: string) {
    || Includes(ToLower(user.name), ToLower(searchTerm))
    || Includes(ToLower(user.email), ToLower(searchTerm))
    || Includes(user.phone, searchTerm)
  }

  /** The role filter offers "all", "MEMBER" and "ADMIN", compared exactly. */
  predicate MatchesRole(user: User, statusFilter: string) {
    statusFilter == "all" || user.role == statusFilter
  }

  predicate Shown(user: User, searchTerm: string, statusFilter: string) {
    MatchesSearch(user, searchTerm) && MatchesRole(user, statusFilter)
  }

  function ShownUnder(searchTerm: string, statusFilter: string): User -> bool {
    (user: User) => Shown(user, searchTerm, statusFilter)
  }

  /** `filteredUsers`: the users the table lists, in their original order. */
  function FilteredUsers(users: seq<User>, searchTerm: string, statusFilter: string): (r: seq<User>)
    ensures IsSubsequence(r, users)
    ensures forall u :: u in r ==>
      || Includes(ToLower(u.name), ToLower(searchTerm))
      || Includes(ToLower(u.email), ToLower(searchTerm))
      || Includes(u.phone, searchTerm)
    ensures forall u :: u in r ==> statusFilter == "all" || u.role == statusFilter
    ensures forall u :: u in users && Shown(u, searchTerm, statusFilter) ==> u in r
    ensures forall u :: multiset(r)[u] == if Shown(u, searchTerm, statusFilter) then multiset(users)[u] else 0
  {
    FilterIsSubsequence(users, ShownUnder(searchTerm, statusFilter));
    FilterCounts(users, ShownUnder(searchTerm, statusFilter));
    Filter(users, ShownUnder(searchTerm, statusFilter))
  }

  /** With an empty search and role "all", every user is listed, in order. */
  lemma DefaultViewShowsAll(users: seq<User>)
    ensures FilteredUsers(users, "", "all") == users
  {
    forall u | u in users ensures Shown(u, "", "all") {
      IncludesEmpty(ToLower(u.name));
    }
    FilterKeepsAll(users, ShownUnder("", "all"));
  }

  /** The name and email part of the search gives the same answer for a term and its lower-cased form. */
  lemma NameAndEmailSearchIgnoresCase(user: User, searchTerm: string)
    ensures Includes(ToLower(user.name), ToLower(searchTerm)) == Includes(ToLower(user.name), ToLower(ToLower(searchTerm)))
    ensures Includes(ToLower(user.email), ToLower(searchTerm)) == Includes(ToLower(user.email), ToLower(ToLower(searchTerm)))
  {
    ToLowerIdempotent(searchTerm);
  }

  /** The phone part does not: a user whose only match is the phone "A1" is found by "A1" and not by "a1". */
  lemma PhoneSearchIsCaseSensitive()
    ensures Shown(User(1, "", "", "A1", "MEMBER", "", ""), "A1", "all")
    ensures !Shown(User(1, "", "", "A1", "MEMBER", "", ""), "a1", "all")
  {
    var u := User(1, "", "", "A1", "MEMBER", "", "");
    assert StartsWith(u.phone, "A1");
    assert u.phone[..2] != "a1";
    assert !Includes(u.phone[1..], "a1");
  }

  /** The role filter is exact: a user stored with role "admin" is not listed under "ADMIN". */
  lemma RoleFilterIsCaseSensitive(users: seq<User>, searchTerm: string, i: int)
    requires 0 <= i < |users| && users[i].role == "admin"
    ensures users[i] !in FilteredUsers(users, searchTerm, "ADMIN")
  {
  }

  /** The role label is the role capitalised. The roles the backend uses are upper-case and keep their
      spelling; a lower-case one gets a capital. */
  lemma RoleLabels()
    ensures Capitalize("ADMIN") == "ADMIN" && Capitalize("MEMBER") == "MEMBER"
    ensures Capitalize("member") == "Member"
  {
    CapitalizeFixedIff("ADMIN");
    CapitalizeFixedIff("MEMBER");
    assert UpperChar('m') == 'M';
  }

  datatype Colour = Green | Red

  /** The role pill is green exactly for "ADMIN" and red for every other role, "admin" included. */
  function RoleColour(role: string): (r: Colour)
    ensures r == Green <==> role == "ADMIN"
  {
    if role == "ADMIN" then Green else Red
  }

  function IdIsNot(id: int): User -> bool {
    (user: User) => user.id != id
  }

  /** The list update after a successful DELETE: every user with the id goes, the rest stay in order. */
  function RemoveUser(users: seq<User>, id: int): (r: seq<User>)
    ensures IsSubsequence(r, users)
    ensures forall u :: u in r ==> u.id != id
    ensures forall u :: u in users && u.id != id ==> u in r
  {
    FilterIsSubsequence(users, IdIsNot(id));
    Filter(users, IdIsNot(id))
  }

  /** Deleting keeps every copy of a user with another id: duplicates survive as duplicates. */
  lemma RemoveUserKeepsCopies(users: seq<User>, id: int)
    ensures forall u :: multiset(RemoveUser(users, id))[u] == if u.id != id then multiset(users)[u] else 0
  {
    FilterCounts(users, IdIsNot(id));
  }

  /** Deleting an id no user has leaves the list as it was. */
  lemma RemoveAbsentUser(users: seq<User>, id: int)
    requires forall u :: u in users ==> u.id != id
    ensures RemoveUser(users, id) == users
  {
    FilterKeepsAll(users, IdIsNot(id));
  }

  /** Deleting the same id twice is deleting it once. */
  lemma RemoveUserIdempotent(users: seq<User>, id: int)
    ensures RemoveUser(RemoveUser(users, id), id) == RemoveUser(users, id)
  {
    FilterIdempotent(users, IdIsNot(id));
  }

  /** Deleting drops exactly the users with the id: together with them the survivors make up the list. */
  lemma {:induction false} RemoveUserCount(users: seq<User>, id: int)
    ensures |RemoveUser(users, id)| + |Filter(users, IdIs(id))| == |users|
  {
    if users != [] {
      RemoveUserCount(users[1..], id);
    }
  }

  function IdIs(id: int): User -> bool {
    (user: User) => user.id == id
  }

  function Always(user: User): User -> User {
    (_: User) => user
  }

  /** The list update after a successful PUT: every user with the id becomes the returned record. */
  function ReplaceUser(users: seq<User>, id: int, updated: User): (r: seq<User>)
    ensures |r| == |users|
    ensures forall i :: 0 <= i < |users| && users[i].id == id ==> r[i] == updated
    ensures forall i :: 0 <= i < |users| && users[i].id != id ==> r[i] == users[i]
  {
    ReplaceWhere(users, IdIs(id), Always(updated))
  }

  /** Editing an id no user has leaves the list as it was. */
  lemma ReplaceAbsentUser(users: seq<User>, id: int, updated: User)
    requires forall i :: 0 <= i < |users| ==> users[i].id != id
    ensures ReplaceUser(users, id, updated) == users
  {
    ReplaceWhereNoMatch(users, IdIs(id), Always(updated));
  }

  /** The page's own state: the list, the filter inputs, the selection, the dialog flags and the forms.
      `editedUser` is None until an edit dialog is opened: the initial edit form holds no id. */
  class UsersPage {
    var users: seq<User>
    var searchTerm: string
    var statusFilter: string
    var isAddUserOpen: bool
    var isEditUserOpen: bool
    var isDeleteDialogOpen: bool
    var selectedUser: Option<int>
    var loading: bool
    var newUser: UserForm
    var editedUser: Option<User>

    constructor ()
      ensures users == [] && searchTerm == "" && statusFilter == "all"
      ensures !isAddUserOpen && !isEditUserOpen && !isDeleteDialogOpen && selectedUser == None
      ensures loading && newUser == EmptyForm && editedUser == None
    {
      users, searchTerm, statusFilter := [], "", "all";
      isAddUserOpen, isEditUserOpen, isDeleteDialogOpen := false, false, false;
      selectedUser := None;
      loading := true;
      newUser, editedUser := EmptyForm, None;
    }

    /** The end of `fetchUsers`: on success the list is the fetched one; either way loading ends. */
    method Loaded(fetched: Option<seq<User>>)
      modifies this
      ensures users == if fetched.Some? then fetched.value else old(users)
      ensures !loading
      ensures searchTerm == old(searchTerm) && statusFilter == old(statusFilter)
      ensures isAddUserOpen == old(isAddUserOpen) && isEditUserOpen == old(isEditUserOpen)
      ensures isDeleteDialogOpen == old(isDeleteDialogOpen) && selectedUser == old(selectedUser)
      ensures newUser == old(newUser) && editedUser == old(editedUser)
    {
      if fetched.Some? {
        users := fetched.value;
      }
      loading := false;
    }

    /** `handleAddUser`. It returns the POST body; `response` is the created user, or None when the request failed. */
    method HandleAddUser(response: Option<User>) returns (request: UserForm)
      modifies this
      ensures request == old(newUser)
      ensures response.None? ==> unchanged(this)
      ensures response.Some? ==>
        && users == old(users) + [response.value]
        && !isAddUserOpen && newUser == EmptyForm
        && searchTerm == old(searchTerm) && statusFilter == old(statusFilter)
        && isEditUserOpen == old(isEditUserOpen) && isDeleteDialogOpen == old(isDeleteDialogOpen)
        && selectedUser == old(selectedUser) && loading == old(loading) && editedUser == old(editedUser)
    {
      request := newUser;
      if response.Some? {
        users := users + [response.value];
        isAddUserOpen := false;
        newUser := EmptyForm;
      }
    }

    /** The "Delete User" menu item. */
    method OpenDeleteDialog(user: User)
      modifies this
      ensures selectedUser == Some(user.id) && isDeleteDialogOpen
      ensures users == old(users) && searchTerm == old(searchTerm) && statusFilter == old(statusFilter)
      ensures isAddUserOpen == old(isAddUserOpen) && isEditUserOpen == old(isEditUserOpen)
      ensures loading == old(loading) && newUser == old(newUser) && editedUser == old(editedUser)
    {
      selectedUser := Some(user.id);
      isDeleteDialogOpen := true;
    }

    /** `handleDeleteUser`. With no selection it does nothing; otherwise it returns the id it sent the
        DELETE for, removes that id's users if the request succeeded, and closes the dialog and clears
        the selection whatever the outcome. */
    method HandleDeleteUser(deleteSucceeded: bool) returns (deleted: Option<int>)
      modifies this
      ensures old(selectedUser).None? ==> deleted == None && unchanged(this)
      ensures old(selectedUser).Some? ==>
        && deleted == old(selectedUser)
        && users == (if deleteSucceeded then RemoveUser(old(users), old(selectedUser).value) else old(users))
        && !isDeleteDialogOpen && selectedUser == None
        && searchTerm == old(searchTerm) && statusFilter == old(statusFilter)
        && isAddUserOpen == old(isAddUserOpen) && isEditUserOpen == old(isEditUserOpen)
        && loading == old(loading) && newUser == old(newUser) && editedUser == old(editedUser)
    {
      if selectedUser.None? {
        return None;
      }
      var id := selectedUser.value;
      deleted := Some(id);
      if deleteSucceeded {
        users := RemoveUser(users, id);
      }
      isDeleteDialogOpen := false;
      selectedUser := None;
    }

    /** `openEditDialog`: selects the user and copies it into the edit form. */
    method OpenEditDialog(user: User)
      modifies this
      ensures selectedUser == Some(user.id) && editedUser == Some(user) && isEditUserOpen
      ensures users == old(users) && searchTerm == old(searchTerm) && statusFilter == old(statusFilter)
      ensures isAddUserOpen == old(isAddUserOpen) && isDeleteDialogOpen == old(isDeleteDialogOpen)
      ensures loading == old(loading) && newUser == old(newUser)
    {
      selectedUser := Some(user.id);
      editedUser := Some(user);
      isEditUserOpen := true;
    }

    /** `handleEditUser(editedUser)`. It returns the PUT body it sent: the edit form, None standing for
        the initial form, which has no id. `response` is the record the PUT returned, or None when it
        failed, in which case nothing changes. A form without an id replaces no user. */
    method HandleEditUser(response: Option<User>) returns (request: Option<User>)
      modifies this
      ensures request == old(editedUser)
      ensures response.None? ==> unchanged(this)
      ensures response.Some? ==>
        && users == (if old(editedUser).Some? then ReplaceUser(old(users), old(editedUser).value.id, response.value) else old(users))
        && !isEditUserOpen && selectedUser == None
        && searchTerm == old(searchTerm) && statusFilter == old(statusFilter)
        && isAddUserOpen == old(isAddUserOpen) && isDeleteDialogOpen == old(isDeleteDialogOpen)
        && loading == old(loading) && newUser == old(newUser) && editedUser == old(editedUser)
    {
      request := editedUser;
      if response.Some? {
        if editedUser.Some? {
          users := ReplaceUser(users, editedUser.value.id, response.value);
        }
        isEditUserOpen := false;
        selectedUser := None;
      }
    }
  }
}
