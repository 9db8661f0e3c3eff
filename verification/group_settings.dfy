/**
 * The group settings page (app/group-settings/page.tsx): the member list, the
 * admin-only controls and the three confirmation dialogs.
 */
module GroupSettings {
  import opened Common
  import opened Text

  datatype Role = Admin | Member
  datatype Status = Active | Pending

  datatype GroupMember = GroupMember(id: string, name: string, role: Role, status: Status, isCurrentUser: bool)

  /** The list the page starts with. */
  function InitialMembers(): seq<GroupMember> {
    [ GroupMember("1", "Person 1", Admin, Active, true),
      GroupMember("2", "Person 2", Member, Active, false),
      GroupMember("3", "Person 3", Member, Pending, false) ]
  }

  // ---------------------------------------------------------------- removal

  /** `members.filter(member => member.id !== id)`. */
  function RemoveById(ms: seq<GroupMember>, id: string): seq<GroupMember> {
    if ms == [] then []
    else (if ms[0].id == id then [] else [ms[0]]) + RemoveById(ms[1..], id)
  }

  /** After removal no member carries the id, and exactly the members with another id remain. */
  lemma {:induction false} RemoveByIdMembers(ms: seq<GroupMember>, id: string)
    ensures forall m | m in RemoveById(ms, id) :: m.id != id
    ensures forall m :: m in RemoveById(ms, id) <==> m in ms && m.id != id
  {
    if ms != [] {
      RemoveByIdMembers(ms[1..], id);
      assert ms == [ms[0]] + ms[1..];
    }
  }

  /** Removal works element by element, so the members kept stay in their original order. */
  lemma {:induction false} RemoveByIdAppend(a: seq<GroupMember>, b: seq<GroupMember>, id: string)
    ensures RemoveById(a + b, id) == RemoveById(a, id) + RemoveById(b, id)
  {
    if a == [] {
      assert a + b == b;
    } else {
      assert (a + b)[1..] == a[1..] + b;
      RemoveByIdAppend(a[1..], b, id);
    }
  }

  /** Removing an id nobody carries changes nothing. */
  lemma {:induction false} RemoveByIdAbsent(ms: seq<GroupMember>, id: string)
    requires forall i | 0 <= i < |ms| :: ms[i].id != id
    ensures RemoveById(ms, id) == ms
  {
    if ms != [] {
      RemoveByIdAbsent(ms[1..], id);
    }
  }

  // ------------------------------------------------------------ current user

  /** `members.find(member => member.isCurrentUser)`. */
  function CurrentUser(ms: seq<GroupMember>): (r: Option<GroupMember>)
    ensures r.None? <==> forall i | 0 <= i < |ms| :: !ms[i].isCurrentUser
  {
    if ms == [] then None
    else if ms[0].isCurrentUser then Some(ms[0])
    else CurrentUser(ms[1..])
  }

  /** The first member flagged as the current user, when there is one. */
  lemma {:induction false} CurrentUserIsFirst(ms: seq<GroupMember>)
    requires CurrentUser(ms).Some?
    ensures exists i | 0 <= i < |ms| ::
      (ms[i] == CurrentUser(ms).value && ms[i].isCurrentUser && forall j | 0 <= j < i :: !ms[j].isCurrentUser)
  {
    if !ms[0].isCurrentUser {
      CurrentUserIsFirst(ms[1..]);
      var i :| 0 <= i < |ms[1..]| && ms[1..][i] == CurrentUser(ms[1..]).value && ms[1..][i].isCurrentUser
        && forall j | 0 <= j < i :: !ms[1..][j].isCurrentUser;
      assert ms[i + 1] == ms[1..][i];
      forall j | 0 <= j < i + 1 ensures !ms[j].isCurrentUser {
        if j > 0 { assert ms[j] == ms[1..][j - 1]; }
      }
    }
  }

  /** `currentUser?.role === "admin"`. */
  predicate IsAdmin(ms: seq<GroupMember>) {
    CurrentUser(ms).Some? && CurrentUser(ms).value.role == Admin
  }

  /** The member found is the first one flagged as the current user. */
  lemma {:induction false} CurrentUserAt(ms: seq<GroupMember>, i: nat)
    requires i < |ms| && ms[i].isCurrentUser
    requires forall j | 0 <= j < i :: !ms[j].isCurrentUser
    ensures CurrentUser(ms) == Some(ms[i])
  {
    if i > 0 {
      CurrentUserAt(ms[1..], i - 1);
    }
  }

  /** `isAdmin` holds exactly when some member is flagged as the current user, and the first
      such member is an admin. */
  lemma IsAdminIff(ms: seq<GroupMember>)
    ensures IsAdmin(ms) <==> exists i | 0 <= i < |ms| ::
      (ms[i].isCurrentUser && ms[i].role == Admin && forall j | 0 <= j < i :: !ms[j].isCurrentUser)
  {
    if IsAdmin(ms) {
      CurrentUserIsFirst(ms);
    }
    if exists i | 0 <= i < |ms| ::
        (ms[i].isCurrentUser && ms[i].role == Admin && forall j | 0 <= j < i :: !ms[j].isCurrentUser) {
      var i :| 0 <= i < |ms| &&
        ms[i].isCurrentUser && ms[i].role == Admin && forall j | 0 <= j < i :: !ms[j].isCurrentUser;
      CurrentUserAt(ms, i);
    }
  }

  /** Removing members that are not the current user leaves the current user, and so the admin
      status, as it was. */
  lemma {:induction false} RemovingOthersKeepsCurrentUser(ms: seq<GroupMember>, id: string)
    requires forall i | 0 <= i < |ms| :: ms[i].id == id ==> !ms[i].isCurrentUser
    ensures CurrentUser(RemoveById(ms, id)) == CurrentUser(ms)
    ensures IsAdmin(RemoveById(ms, id)) == IsAdmin(ms)
  {
    if ms != [] {
      RemovingOthersKeepsCurrentUser(ms[1..], id);
      var r := RemoveById(ms, id);
      if ms[0].id != id {
        assert r == [ms[0]] + RemoveById(ms[1..], id);
        assert r[1..] == RemoveById(ms[1..], id);
        assert CurrentUser(r) == if ms[0].isCurrentUser then Some(ms[0]) else CurrentUser(r[1..]);
      } else {
        assert r == RemoveById(ms[1..], id);
      }
    }
  }

  // ------------------------------------------------------------------ controls

  /** The controls the page renders. */
  datatype Action = ShareCode | LeaveGroup | AddMember | DeleteGroup | RemoveMember(id: string)

  /** Everything the page offers: removal only for other members, and add and delete only to an admin. */
  function OfferedActions(ms: seq<GroupMember>): set<Action> {
    {ShareCode, LeaveGroup}
    + (if IsAdmin(ms) then {AddMember, DeleteGroup} else {})
    + set i | 0 <= i < |ms| && IsAdmin(ms) && !ms[i].isCurrentUser :: RemoveMember(ms[i].id)
  }

  lemma OfferedActionsSpec(ms: seq<GroupMember>)
    ensures ShareCode in OfferedActions(ms) && LeaveGroup in OfferedActions(ms)
    ensures AddMember in OfferedActions(ms) <==> IsAdmin(ms)
    ensures DeleteGroup in OfferedActions(ms) <==> IsAdmin(ms)
    ensures forall id | RemoveMember(id) in OfferedActions(ms) ::
      IsAdmin(ms) && exists i | 0 <= i < |ms| :: ms[i].id == id && !ms[i].isCurrentUser
    ensures forall i | 0 <= i < |ms| && IsAdmin(ms) && !ms[i].isCurrentUser ::
      RemoveMember(ms[i].id) in OfferedActions(ms)
  {
  }

  /** With distinct ids, the current user is never offered their own removal. */
  lemma NoSelfRemoval(ms: seq<GroupMember>, k: nat)
    requires forall i, j | 0 <= i < j < |ms| :: ms[i].id != ms[j].id
    requires k < |ms| && ms[k].isCurrentUser
    ensures RemoveMember(ms[k].id) !in OfferedActions(ms)
  {
    forall i | 0 <= i < |ms| && !ms[i].isCurrentUser
      ensures ms[i].id != ms[k].id
    {
      assert i != k;
    }
  }

  /** The heading above the list: `Members (${members.length})`. */
  function MembersHeading(ms: seq<GroupMember>): string {
    "Members (" + NatToString(|ms|) + ")"
  }

  /** The number in the heading reads back as the length of the list. */
  lemma MembersHeadingCount(ms: seq<GroupMember>)
    ensures var h := MembersHeading(ms);
      |h| == 10 + |NatToString(|ms|)| && ParseNat(h[9..|h| - 1]) == Some(|ms|)
  {
    var h := MembersHeading(ms);
    assert h[9..|h| - 1] == NatToString(|ms|);
    ParseNatToString(|ms|);
  }

  // ---------------------------------------------------------------- the page

  class GroupSettingsPage {
    var members: seq<GroupMember>
    /** The id whose removal awaits confirmation. */
    var removeDialog: Option<string>
    var leaveDialog: bool
    var deleteDialog: bool
    /** Where `window.location.href` was sent, if anywhere. */
    var location: Option<string>

    constructor ()
      ensures members == InitialMembers() && IsAdmin(members)
      ensures removeDialog == None && !leaveDialog && !deleteDialog && location == None
    {
      members := InitialMembers();
      removeDialog := None;
      leaveDialog := false;
      deleteDialog := false;
      location := None;
    }

    /** `{showRemoveDialog && …}`: an empty id counts as no dialog. */
    predicate RemoveDialogVisible()
      reads this
    {
      Truthy(removeDialog)
    }

    method HandleRemoveMember(id: string)
      modifies this`removeDialog
      ensures removeDialog == Some(id)
      ensures RemoveDialogVisible() <==> id != []
    {
      removeDialog := Some(id);
    }

    method ConfirmRemoveMember(id: string)
      modifies this`members, this`removeDialog
      ensures members == RemoveById(old(members), id)
      ensures forall m | m in members :: m.id != id
      ensures removeDialog == None
    {
      members := RemoveById(members, id);
      RemoveByIdMembers(old(members), id);
      removeDialog := None;
    }

    /** Cancel, or a click on the backdrop. */
    method CloseRemoveDialog()
      modifies this`removeDialog
      ensures removeDialog == None && !RemoveDialogVisible()
    {
      removeDialog := None;
    }

    method HandleLeaveGroup()
      modifies this`leaveDialog
      ensures leaveDialog
    {
      leaveDialog := true;
    }

    method ConfirmLeaveGroup()
      modifies this`leaveDialog, this`location
      ensures !leaveDialog && location == Some("/")
    {
      leaveDialog := false;
      location := Some("/");
    }

    method CloseLeaveDialog()
      modifies this`leaveDialog
      ensures !leaveDialog
    {
      leaveDialog := false;
    }

    method HandleDeleteGroup()
      modifies this`deleteDialog
      ensures deleteDialog
    {
      deleteDialog := true;
    }

    method ConfirmDeleteGroup()
      modifies this`deleteDialog, this`location
      ensures !deleteDialog && location == Some("/")
    {
      deleteDialog := false;
      location := Some("/");
    }

    method CloseDeleteDialog()
      modifies this`deleteDialog
      ensures !deleteDialog
    {
      deleteDialog := false;
    }
  }
}
