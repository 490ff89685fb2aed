/** The administrators' user list: the search and status filter, the
    all/active toggle, and suspending, activating and deleting a user. Each
    change is first written to the system log; when that write fails the
    list is left as it was. */
module AdminUsers {
  import opened Common
  import opened Entities

  const ActiveStatus: string := "active"
  const SuspendedStatus: string := "suspended"
  const AllStatuses: string := "all"

  /** The search: the lower-cased query inside the lower-cased name or
      e-mail, or inside the id exactly as stored. */
  predicate MatchesQuery(query: string, u: User) {
    var q := ToLower(query);
    Contains(ToLower(u.fullName), q) || Contains(ToLower(u.email), q) || Contains(u.id, q)
  }

  predicate Listed(filterStatus: string, searchQuery: string, u: User) {
    (filterStatus == AllStatuses || u.status == filterStatus)
    && (!Truthy(searchQuery) || MatchesQuery(searchQuery, u))
  }

  /** `filteredUsers`. */
  function FilteredUsers(users: seq<User>, filterStatus: string, searchQuery: string): seq<User> {
    Filter(users, u => Listed(filterStatus, searchQuery, u))
  }

  /** The list shown is an order-preserving sublist holding exactly the users
      of the chosen status (any, for "all") that match a non-empty search. */
  lemma {:induction false} FilteredUsersSpec(users: seq<User>, filterStatus: string, searchQuery: string)
    ensures Sublist(FilteredUsers(users, filterStatus, searchQuery), users)
    ensures forall u :: u in FilteredUsers(users, filterStatus, searchQuery) <==>
      u in users && (filterStatus == AllStatuses || u.status == filterStatus)
      && (searchQuery == "" || MatchesQuery(searchQuery, u))
  {
    var f := u => Listed(filterStatus, searchQuery, u);
    FilterIsSublist(users, f);
    FilterMembers(users, f);
  }

  /** A text without the query's first character does not contain it. */
  lemma {:induction false} FirstCharAbsent(s: string, q: string)
    requires |q| > 0 && forall i :: 0 <= i < |s| ==> s[i] != q[0]
    ensures !Contains(s, q)
    decreases |s|
  {
    if |s| > 0 {
      if |q| <= |s| {
        assert s[..|q|][0] != q[0];
      }
      FirstCharAbsent(s[1..], q);
    }
  }

  /** The id is not lower-cased: an id with capitals is not found by typing
      it, while the same text in the name is. */
  lemma {:induction false} IdSearchIsCaseSensitive()
    ensures !MatchesQuery("U7", User("U7", "Dana", "d@x", ActiveStatus, None, "basic"))
    ensures MatchesQuery("u7", User("u7", "Dana", "d@x", ActiveStatus, None, "basic"))
    ensures MatchesQuery("U7", User("1", "U7", "d@x", ActiveStatus, None, "basic"))
  {
    var q := ToLower("U7");
    assert q == "u7";
    FirstCharAbsent("U7", q);
    FirstCharAbsent(ToLower("Dana"), q);
    FirstCharAbsent(ToLower("d@x"), q);
    ContainsAt("u7", "u7", 0);
    ContainsAt(ToLower("U7"), "u7", 0);
  }

  /** The filter button switches between all users and active ones only. */
  function ToggledFilter(filterStatus: string): (r: string)
    ensures filterStatus == AllStatuses ==> r == ActiveStatus
    ensures filterStatus != AllStatuses ==> r == AllStatuses
  {
    if filterStatus == AllStatuses then ActiveStatus else AllStatuses
  }

  lemma {:induction false} ToggleTwice(filterStatus: string)
    requires filterStatus == AllStatuses || filterStatus == ActiveStatus
    ensures ToggledFilter(ToggledFilter(filterStatus)) == filterStatus
  {
  }

  /** The list after suspending: the users with that id are suspended with
      the reason; the rest are as they were. */
  function Suspended(users: seq<User>, id: string, reason: string): (r: seq<User>)
    ensures |r| == |users|
    ensures forall i :: 0 <= i < |users| && users[i].id == id ==>
      r[i] == users[i].(status := SuspendedStatus, suspensionReason := Some(reason))
    ensures forall i :: 0 <= i < |users| && users[i].id != id ==> r[i] == users[i]
  {
    seq(|users|, i requires 0 <= i < |users| =>
      if users[i].id == id then users[i].(status := SuspendedStatus, suspensionReason := Some(reason)) else users[i])
  }

  /** The list after activating: that user becomes active with no reason. */
  function Activated(users: seq<User>, id: string): (r: seq<User>)
    ensures |r| == |users|
    ensures forall i :: 0 <= i < |users| && users[i].id == id ==>
      r[i] == users[i].(status := ActiveStatus, suspensionReason := None)
    ensures forall i :: 0 <= i < |users| && users[i].id != id ==> r[i] == users[i]
  {
    seq(|users|, i requires 0 <= i < |users| =>
      if users[i].id == id then users[i].(status := ActiveStatus, suspensionReason := None) else users[i])
  }

  /** Suspending an active user and activating it again gives back the list
      as it was, when that user had no suspension reason. */
  lemma {:induction false} SuspendThenActivate(users: seq<User>, id: string, reason: string)
    requires forall u :: u in users && u.id == id ==> u.status == ActiveStatus && u.suspensionReason == None
    ensures Activated(Suspended(users, id, reason), id) == users
  {
    var r := Activated(Suspended(users, id, reason), id);
    forall i | 0 <= i < |users| ensures r[i] == users[i] {
      assert users[i] in users;
    }
  }

  predicate Kept(id: string, u: User) { u.id != id }

  /** Deleting keeps, in order, exactly the users with another id. */
  lemma {:induction false} DeleteSpec(users: seq<User>, id: string)
    ensures Sublist(Filter(users, u => Kept(id, u)), users)
    ensures forall u :: u in Filter(users, u => Kept(id, u)) <==> u in users && u.id != id
  {
    FilterIsSublist(users, u => Kept(id, u));
    FilterMembers(users, u => Kept(id, u));
  }

  /** The row menu offers suspend for an active user and activate for any other. */
  datatype MenuItem = Suspend | Activate | ViewProfile | ViewEvents

  function MenuItems(u: User): (r: set<MenuItem>)
    ensures Suspend in r <==> u.status == ActiveStatus
    ensures Activate in r <==> u.status != ActiveStatus
    ensures ViewProfile in r && ViewEvents in r
  {
    (if u.status == ActiveStatus then {Suspend} else {Activate}) + {ViewProfile, ViewEvents}
  }

  /** A system-log entry for a user-management action. */
  datatype LogEntry = LogEntry(description: string, targetId: string, reason: Option<string>)

  class UsersPage {
    var users: seq<User>
    var filterStatus: string
    var searchQuery: string
    var logs: seq<LogEntry>
    var alerts: nat

    constructor (initial: seq<User>)
      ensures users == initial && filterStatus == AllStatuses && searchQuery == "" && logs == [] && alerts == 0
    {
      users, filterStatus, searchQuery, logs, alerts := initial, AllStatuses, "", [], 0;
    }

    method SetSearchQuery(q: string)
      modifies this
      ensures searchQuery == q && users == old(users) && filterStatus == old(filterStatus)
    {
      searchQuery := q;
    }

    method ToggleFilter()
      modifies this
      ensures filterStatus == ToggledFilter(old(filterStatus))
      ensures users == old(users) && searchQuery == old(searchQuery)
    {
      filterStatus := if filterStatus == AllStatuses then ActiveStatus else AllStatuses;
    }

    /** `handleDeleteUser`: after confirmation and a logged action, the users
        with that id are removed; a failed log write alerts and removes none. */
    method DeleteUser(user: User, confirmed: bool, logged: bool)
      modifies this
      ensures !confirmed ==> users == old(users) && logs == old(logs) && alerts == old(alerts)
      ensures confirmed && logged ==>
        users == Filter(old(users), u => Kept(user.id, u))
        && logs == old(logs) + [LogEntry("מחיקת משתמש: " + user.email, user.id, None)]
      ensures confirmed && !logged ==> users == old(users) && logs == old(logs)
      ensures confirmed ==> alerts == old(alerts) + 1
      ensures filterStatus == old(filterStatus)
    {
      if !confirmed { return; }
      if !logged {
        alerts := alerts + 1;
        return;
      }
      logs := logs + [LogEntry("מחיקת משתמש: " + user.email, user.id, None)];
      users := Filter(users, u => Kept(user.id, u));
      alerts := alerts + 1;
    }

    /** `handleSuspendUser`: a cancelled (`None`) or empty reason changes
        nothing; otherwise, once logged, only that user is suspended. */
    method SuspendUser(user: User, reason: Option<string>, logged: bool)
      modifies this
      ensures !Present(reason) || !logged ==> users == old(users)
      ensures !Present(reason) ==> logs == old(logs)
      ensures Present(reason) && logged ==>
        users == Suspended(old(users), user.id, reason.value)
        && logs == old(logs) + [LogEntry("השעיית משתמש: " + user.email, user.id, reason)]
      ensures Present(reason) && !logged ==> logs == old(logs)
      ensures filterStatus == old(filterStatus) && alerts == old(alerts)
    {
      if !Present(reason) { return; }
      if !logged { return; }
      logs := logs + [LogEntry("השעיית משתמש: " + user.email, user.id, reason)];
      users := Suspended(users, user.id, reason.value);
    }

    /** `handleActivateUser`: once logged, only that user becomes active and
        loses its suspension reason. */
    method ActivateUser(user: User, logged: bool)
      modifies this
      ensures logged ==>
        (users == Activated(old(users), user.id)
         && logs == old(logs) + [LogEntry("הפעלת משתמש: " + user.email, user.id, None)])
      ensures !logged ==> users == old(users) && logs == old(logs)
      ensures filterStatus == old(filterStatus) && alerts == old(alerts)
    {
      if !logged { return; }
      logs := logs + [LogEntry("הפעלת משתמש: " + user.email, user.id, None)];
      users := Activated(users, user.id);
    }
  }
}
