/** The backoffice users page: the filter effect, the status actions offered
    in the table rows and in the detail panel, the status update and the
    detail panel's selection. */
module UsersPage {
  import opened Wrappers
  import opened Text
  import opened RecordList

  datatype UserStatus = Active | Inactive | Blocked

  function StatusName(s: UserStatus): string {
    match s
    case Active => "active"
    case Inactive => "inactive"
    case Blocked => "blocked"
  }

  datatype User = User(
    id: string,
    name: string,
    email: string,
    phone: string,
    status: UserStatus,
    joinedDate: string,
    bookingsCount: int,
    lastBookingDate: Option<string>,
    avatarUrl: Option<string>)

  function UserId(u: User): string { u.id }

  /** The filter effect's predicate: the term in name, email or phone, and the
      status when one is selected. */
  predicate Matches(u: User, searchTerm: string, statusFilter: string) {
    var t := Lower(searchTerm);
    (Contains(Lower(u.name), t) || Contains(Lower(u.email), t) || Contains(Lower(u.phone), t)) &&
    (statusFilter != "" ==> StatusName(u.status) == statusFilter)
  }

  function FilterUsers(users: seq<User>, searchTerm: string, statusFilter: string): (r: seq<User>)
    ensures forall u :: u in r <==> u in users && Matches(u, searchTerm, statusFilter)
    ensures IsSubsequence(r, users)
  {
    FilterIsSubsequence(users, (u: User) => Matches(u, searchTerm, statusFilter));
    Filter(users, (u: User) => Matches(u, searchTerm, statusFilter))
  }

  /** No search and no status selected list every user. */
  lemma EmptyFilterKeepsAll(users: seq<User>)
    ensures FilterUsers(users, "", "") == users
  {
    forall u | u in users ensures Matches(u, "", "") {
      assert Lower("") == "";
    }
    FilterKeepsAll(users, (u: User) => Matches(u, "", ""));
  }

  datatype Action = Action(caption: string, target: UserStatus)

  /** The buttons of a table row: Block or Unblock. */
  function RowActions(current: UserStatus): (r: seq<Action>)
    ensures Action("Block", Blocked) in r <==> current != Blocked
    ensures Action("Unblock", Active) in r <==> current == Blocked
    ensures |r| == 1
    ensures forall a :: a in r ==> a.target != current
  {
    (if current != Blocked then [Action("Block", Blocked)] else []) +
    (if current == Blocked then [Action("Unblock", Active)] else [])
  }

  /** The buttons of the detail panel: Block, Unblock, and Activate for an
      inactive user, who can therefore be blocked or activated. */
  function DetailActions(current: UserStatus): (r: seq<Action>)
    ensures Action("Block User", Blocked) in r <==> current != Blocked
    ensures Action("Unblock User", Active) in r <==> current == Blocked
    ensures Action("Activate User", Active) in r <==> current == Inactive
    ensures forall a :: a in r ==> a.target != current
  {
    (if current != Blocked then [Action("Block User", Blocked)] else []) +
    (if current == Blocked then [Action("Unblock User", Active)] else []) +
    (if current == Inactive then [Action("Activate User", Active)] else [])
  }

  /** The panel offers the row's targets and, for an inactive user only, one
      more. */
  lemma DetailExtendsRow(current: UserStatus)
    ensures forall a :: a in RowActions(current) ==> exists b :: b in DetailActions(current) && b.target == a.target
    ensures |DetailActions(current)| == |RowActions(current)| + (if current == Inactive then 1 else 0)
  {
    if current == Blocked {
      assert DetailActions(current)[0].target == Active;
    } else {
      assert DetailActions(current)[0].target == Blocked;
    }
  }

  /** `users.map(u => u.id === id ? { ...u, status } : u)` */
  function SetStatusById(users: seq<User>, id: string, status: UserStatus): (r: seq<User>)
    ensures |r| == |users|
    ensures forall i :: 0 <= i < |users| && users[i].id == id ==> r[i] == users[i].(status := status)
    ensures forall i :: 0 <= i < |users| && users[i].id != id ==> r[i] == users[i]
  {
    UpdateById(users, UserId, id, (u: User) => u.(status := status))
  }

  /** The page's state. The filter effect keeps `filteredUsers` in step with
      the list and the two controls. */
  class Page {
    var users: seq<User>
    var filteredUsers: seq<User>
    var searchTerm: string
    var statusFilter: string
    var selectedUser: Option<User>
    var isViewingDetails: bool

    ghost predicate Valid()
      reads this
    {
      filteredUsers == FilterUsers(users, searchTerm, statusFilter)
    }

    constructor ()
      ensures Valid() && users == [] && searchTerm == "" && statusFilter == ""
      ensures selectedUser.None? && !isViewingDetails
    {
      users := [];
      filteredUsers := [];
      searchTerm := "";
      statusFilter := "";
      selectedUser := None;
      isViewingDetails := false;
    }

    /** The filter effect. */
    method ApplyFilters()
      modifies this
      ensures Valid()
      ensures users == old(users) && searchTerm == old(searchTerm) && statusFilter == old(statusFilter)
      ensures selectedUser == old(selectedUser) && isViewingDetails == old(isViewingDetails)
    {
      filteredUsers := FilterUsers(users, searchTerm, statusFilter);
    }

    /** Typing in the search box, followed by the effect. */
    method SetSearchTerm(t: string)
      modifies this
      ensures Valid() && searchTerm == t
      ensures users == old(users) && statusFilter == old(statusFilter)
      ensures selectedUser == old(selectedUser) && isViewingDetails == old(isViewingDetails)
    {
      searchTerm := t;
      ApplyFilters();
    }

    /** Picking a status, followed by the effect. */
    method SetStatusFilter(s: string)
      modifies this
      ensures Valid() && statusFilter == s
      ensures users == old(users) && searchTerm == old(searchTerm)
      ensures selectedUser == old(selectedUser) && isViewingDetails == old(isViewingDetails)
    {
      statusFilter := s;
      ApplyFilters();
    }

    /** `handleUpdateStatus(userId, status)`, followed by the effect.
        `outcome` is what the update call ends with: `Success(true)` changes
        that user in the list and, when it is the one shown, in the panel;
        `Success(false)` and a failure (caught and logged) leave both. */
    method HandleUpdateStatus(userId: string, status: UserStatus, outcome: Result<bool>)
      requires Valid()
      modifies this
      ensures Valid()
      ensures outcome == Success(true) ==> users == SetStatusById(old(users), userId, status)
      ensures outcome != Success(true) ==> users == old(users)
      ensures outcome == Success(true) && old(selectedUser).Some? && old(selectedUser).value.id == userId ==>
                selectedUser == Some(old(selectedUser).value.(status := status))
      ensures !(outcome == Success(true) && old(selectedUser).Some? && old(selectedUser).value.id == userId) ==>
                selectedUser == old(selectedUser)
      ensures searchTerm == old(searchTerm) && statusFilter == old(statusFilter)
      ensures isViewingDetails == old(isViewingDetails)
    {
      if outcome == Success(true) {
        users := SetStatusById(users, userId, status);
        if selectedUser.Some? && selectedUser.value.id == userId {
          selectedUser := Some(selectedUser.value.(status := status));
        }
      }
      ApplyFilters();
    }

    /** `handleViewUser(user)` */
    method HandleViewUser(u: User)
      modifies this
      ensures selectedUser == Some(u) && isViewingDetails
      ensures users == old(users) && filteredUsers == old(filteredUsers)
      ensures searchTerm == old(searchTerm) && statusFilter == old(statusFilter)
    {
      selectedUser := Some(u);
      isViewingDetails := true;
    }

    /** `handleCloseDetails()` */
    method HandleCloseDetails()
      modifies this
      ensures selectedUser.None? && !isViewingDetails
      ensures users == old(users) && filteredUsers == old(filteredUsers)
      ensures searchTerm == old(searchTerm) && statusFilter == old(statusFilter)
    {
      isViewingDetails := false;
      selectedUser := None;
    }
  }
}
