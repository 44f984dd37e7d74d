/** The admin's user list: the users shown for a search term and a role
    filter, and the list after blocking or unblocking a user and after
    deleting one.  The list changes only once the server has accepted the
    request. */
module UserListPage {
  import opened Common

  /** A user as the list holds it. */
  datatype User = User(id: string, username: string, email: string, role: string, isBlocked: bool)

  const StatusUpdated := "User status updated"
  const StatusFailed := "Failed to update user status"
  const Deleting := "Deleting user..."
  const Deleted := "User deleted successfully"
  const DeleteFailed := "Failed to delete user"

  /** The search box: the term occurs in the user name or the e-mail
      address, ignoring case. */
  predicate MatchesSearch(u: User, term: string) {
    ContainsIgnoreCase(u.username, term) || ContainsIgnoreCase(u.email, term)
  }

  /** The role menu: `"all"` or the user's own role. */
  predicate MatchesRole(u: User, role: string) {
    role == "all" || u.role == role
  }

  function Shown(term: string, role: string): User -> bool {
    (u: User) => MatchesSearch(u, term) && MatchesRole(u, role)
  }

  /** `filteredUsers`. */
  function FilteredUsers(users: seq<User>, term: string, role: string): (r: seq<User>)
    ensures |r| <= |users|
  {
    Filter(users, Shown(term, role))
  }

  /** A user is shown exactly when both the search and the role match, and
      the shown users keep the list's order. */
  lemma FilteredUsersMembers(users: seq<User>, term: string, role: string)
    ensures forall u :: u in FilteredUsers(users, term, role) <==>
      u in users && MatchesSearch(u, term) && MatchesRole(u, role)
    ensures IsSubsequence(FilteredUsers(users, term, role), users)
  {
    FilterMembers(users, Shown(term, role));
    FilterIsSubsequence(users, Shown(term, role));
  }

  /** With no search term and every role, the whole list is shown as it
      is. */
  lemma NoFilterShowsAll(users: seq<User>)
    ensures FilteredUsers(users, "", "all") == users
  {
    forall u | u in users
      ensures Shown("", "all")(u)
    {
      ContainsIgnoreCaseEmpty(u.username);
    }
    FilterKeepsAll(users, Shown("", "all"));
  }

  /** `user._id === userId ? { ...user, isBlocked: !user.isBlocked } : user`. */
  function Flip(id: string): User -> User {
    (u: User) => if u.id == id then u.(isBlocked := !u.isBlocked) else u
  }

  /** The list after the block switch of user `id` has been flipped. */
  function ToggleBlocked(users: seq<User>, id: string): (r: seq<User>)
    ensures |r| == |users|
  {
    MapAll(users, Flip(id))
  }

  /** Only the users with that id change, and only in `isBlocked`. */
  lemma ToggleBlockedAt(users: seq<User>, id: string, i: nat)
    requires i < |users|
    ensures users[i].id == id ==> ToggleBlocked(users, id)[i] == users[i].(isBlocked := !users[i].isBlocked)
    ensures users[i].id != id ==> ToggleBlocked(users, id)[i] == users[i]
  {
    MapAllAt(users, Flip(id), i);
  }

  /** Flipping twice brings the list back. */
  lemma ToggleTwice(users: seq<User>, id: string)
    ensures ToggleBlocked(ToggleBlocked(users, id), id) == users
  {
    var once := ToggleBlocked(users, id);
    forall i | 0 <= i < |users|
      ensures ToggleBlocked(once, id)[i] == users[i]
    {
      ToggleBlockedAt(users, id, i);
      ToggleBlockedAt(once, id, i);
    }
  }

  /** `prev.filter(user => user._id !== userId)`. */
  function WithoutUser(users: seq<User>, id: string): (r: seq<User>)
    ensures |r| <= |users|
  {
    Filter(users, (u: User) => u.id != id)
  }

  /** Deleting drops exactly the users with that id and keeps the others in
      order. */
  lemma WithoutUserMembers(users: seq<User>, id: string)
    ensures forall u :: u in WithoutUser(users, id) <==> u in users && u.id != id
    ensures IsSubsequence(WithoutUser(users, id), users)
  {
    FilterMembers(users, (u: User) => u.id != id);
    FilterIsSubsequence(users, (u: User) => u.id != id);
  }

  class UserList {
    var users: seq<User>

    /** The list as fetched from the server. */
    constructor(fetched: seq<User>)
      ensures users == fetched
    {
      users := fetched;
    }

    /** `handleBlockToggle`; `accepted` is whether the server accepted the
        request. */
    method BlockToggle(id: string, accepted: bool) returns (toast: Toast)
      modifies this
      ensures accepted ==> users == ToggleBlocked(old(users), id) && toast == Done(StatusUpdated)
      ensures !accepted ==> users == old(users) && toast == Warning(StatusFailed)
    {
      if !accepted {
        return Warning(StatusFailed);
      }
      users := ToggleBlocked(users, id);
      toast := Done(StatusUpdated);
    }

    /** `handleDeleteUser`: an informative toast, then the outcome's. */
    method DeleteUser(id: string, accepted: bool) returns (toasts: seq<Toast>)
      modifies this
      ensures accepted ==> users == WithoutUser(old(users), id) && toasts == [Info(Deleting), Done(Deleted)]
      ensures !accepted ==> users == old(users) && toasts == [Info(Deleting), Warning(DeleteFailed)]
    {
      toasts := [Info(Deleting)];
      if !accepted {
        return toasts + [Warning(DeleteFailed)];
      }
      users := WithoutUser(users, id);
      toasts := toasts + [Done(Deleted)];
    }
  }
}
