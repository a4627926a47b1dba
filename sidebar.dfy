/**
 * The conversation list: the user and group lists, group creation, presence,
 * and the selection each list entry produces and highlights.
 */
module Sidebar {
  import opened Wrappers
  import opened Trimming
  import opened Records

  /** Some membership row of `rows` joins to `g`. */
  predicate JoinedIn(rows: seq<MembershipRow>, g: Group) {
    exists i :: 0 <= i < |rows| && rows[i].group == Some(g)
  }

  /** `data.map(item => item.groups).filter(Boolean)`: the joined groups, in row order, missing joins dropped. */
  function ExtractGroups(rows: seq<MembershipRow>): (gs: seq<Group>)
    ensures |gs| <= |rows|
    ensures forall k :: 0 <= k < |gs| ==> JoinedIn(rows, gs[k])
    ensures forall i :: 0 <= i < |rows| && rows[i].group.Some? ==> rows[i].group.value in gs
  {
    if rows == [] then []
    else
      var rest := ExtractGroups(rows[1..]);
      assert forall i :: 1 <= i < |rows| ==> rows[i] == rows[1..][i - 1];
      assert forall g :: JoinedIn(rows[1..], g) ==> JoinedIn(rows, g) by {
        forall g | JoinedIn(rows[1..], g) ensures JoinedIn(rows, g) {
          var i :| 0 <= i < |rows[1..]| && rows[1..][i].group == Some(g);
          assert rows[i + 1].group == Some(g);
        }
      }
      match rows[0].group
      case None => rest
      case Some(g) => assert JoinedIn(rows, g) by { assert rows[0].group == Some(g); } [g] + rest
  }

  /** Extraction keeps row order: the groups of a prefix come before those of the rest. */
  lemma {:induction false} ExtractGroupsAppend(a: seq<MembershipRow>, b: seq<MembershipRow>)
    ensures ExtractGroups(a + b) == ExtractGroups(a) + ExtractGroups(b)
  {
    if a == [] {
      assert a + b == b;
    } else {
      assert (a + b)[1..] == a[1..] + b;
      ExtractGroupsAppend(a[1..], b);
    }
  }

  /** When every row's group was found, the list is those groups, one per row, in row order. */
  lemma {:induction false} ExtractGroupsAllJoined(rows: seq<MembershipRow>)
    requires forall i :: 0 <= i < |rows| ==> rows[i].group.Some?
    ensures |ExtractGroups(rows)| == |rows|
    ensures forall i :: 0 <= i < |rows| ==> ExtractGroups(rows)[i] == rows[i].group.value
  {
    if rows != [] {
      var rest := rows[1..];
      assert forall i :: 0 <= i < |rest| ==> rest[i] == rows[i + 1];
      ExtractGroupsAllJoined(rest);
      var gs := ExtractGroups(rows);
      assert gs == [rows[0].group.value] + ExtractGroups(rest);
      forall i | 0 <= i < |rows| ensures gs[i] == rows[i].group.value {
        if i > 0 {
          assert gs[i] == ExtractGroups(rest)[i - 1];
        }
      }
    }
  }

  /** Clicking a user in the direct-message list: a direct chat titled with the user's name. */
  function SelectUser(u: OnlineUser): (s: Selection)
    ensures s.kind == DmChat && s.id == u.id && s.name == u.username
  {
    Selection(DmChat, u.id, u.username)
  }

  /** Clicking a group in the group list: a group chat titled with the group's name. */
  function SelectGroup(g: Group): (s: Selection)
    ensures s.kind == GroupChat && s.id == g.id && s.name == g.name
  {
    Selection(GroupChat, g.id, g.name)
  }

  /** `selectedChat?.type === 'dm' && selectedChat.id === u.id`. */
  predicate UserHighlighted(selected: Option<Selection>, u: OnlineUser) {
    selected.Some? && selected.value.kind == DmChat && selected.value.id == u.id
  }

  /** `selectedChat?.type === 'group' && selectedChat.id === group.id`. */
  predicate GroupHighlighted(selected: Option<Selection>, g: Group) {
    selected.Some? && selected.value.kind == GroupChat && selected.value.id == g.id
  }

  /** A user entry and a group entry are never highlighted together, even when their ids are equal. */
  lemma HighlightExclusive(selected: Option<Selection>, u: OnlineUser, g: Group)
    ensures !(UserHighlighted(selected, u) && GroupHighlighted(selected, g))
  {
  }

  /**
   * Clicking an entry highlights exactly the entries of the same list with the
   * same id, and nothing in the other list.
   */
  lemma SelectionHighlightsItself(u: OnlineUser, v: OnlineUser, g: Group, h: Group)
    ensures UserHighlighted(Some(SelectUser(u)), v) <==> v.id == u.id
    ensures !GroupHighlighted(Some(SelectUser(u)), h)
    ensures GroupHighlighted(Some(SelectGroup(g)), h) <==> h.id == g.id
    ensures !UserHighlighted(Some(SelectGroup(g)), v)
  {
  }

  /**
   * The sidebar's state for the signed-in user: the other users, the user's
   * groups, and the create-group form. Only an admin is shown the button that
   * opens the form, so only an admin ever has it open.
   */
  class Sidebar {
    const userId: string
    const isAdmin: bool
    var onlineUsers: seq<OnlineUser>
    var groups: seq<Group>
    var showCreateGroup: bool
    var newGroupName: string

    ghost predicate Valid()
      reads this`showCreateGroup
    {
      showCreateGroup ==> isAdmin
    }

    constructor (userId: string, isAdmin: bool)
      ensures Valid()
      ensures this.userId == userId && this.isAdmin == isAdmin
      ensures onlineUsers == [] && groups == [] && !showCreateGroup && newGroupName == ""
    {
      this.userId := userId;
      this.isAdmin := isAdmin;
      onlineUsers := [];
      groups := [];
      showCreateGroup := false;
      newGroupName := "";
    }

    /** The mount effect: load both lists and mark the current user online. */
    method Mount(users: Option<seq<OnlineUser>>, memberships: Option<seq<MembershipRow>>) returns (presence: Write)
      modifies this`onlineUsers, this`groups
      ensures presence == UpdatePresence(userId, true)
      ensures onlineUsers == users.GetOr(old(onlineUsers))
      ensures groups == if memberships.Some? then ExtractGroups(memberships.value) else old(groups)
    {
      LoadUsers(users);
      LoadGroups(memberships);
      presence := UpdatePresence(userId, true);
    }

    /** The mount effect's cleanup: mark the current user offline; no state changes. */
    method Unmount() returns (presence: Write)
      ensures presence == UpdatePresence(userId, false)
    {
      presence := UpdatePresence(userId, false);
    }

    /** `loadUsers`, also run on every profile change: the query's rows replace the list. */
    method LoadUsers(data: Option<seq<OnlineUser>>)
      modifies this`onlineUsers
      ensures onlineUsers == data.GetOr(old(onlineUsers))
    {
      if data.Some? {
        onlineUsers := data.value;
      }
    }

    /** `loadGroups`, also run on every change to the user's memberships. */
    method LoadGroups(data: Option<seq<MembershipRow>>)
      modifies this`groups
      ensures data.None? ==> groups == old(groups)
      ensures data.Some? ==> groups == ExtractGroups(data.value)
    {
      if data.Some? {
        groups := ExtractGroups(data.value);
      }
    }

    /** The "Create Group" button, rendered only for an admin: it flips the form's visibility. */
    method ToggleCreateGroup()
      requires Valid()
      modifies this`showCreateGroup
      ensures Valid()
      ensures isAdmin ==> showCreateGroup == !old(showCreateGroup)
      ensures !isAdmin ==> !showCreateGroup && showCreateGroup == old(showCreateGroup)
    {
      if isAdmin {
        showCreateGroup := !showCreateGroup;
      }
    }

    /** Typing into the group-name box, which is on screen only while the form is open. */
    method EditGroupName(name: string)
      requires showCreateGroup
      modifies this`newGroupName
      ensures newGroupName == name
    {
      newGroupName := name;
    }

    /**
     * `handleCreateGroup`: the writes it issues, in order. It is reached only
     * from the open form (its Enter key and its Create button), so only an
     * admin ever creates a group. `created` is the inserted group row, None
     * when the insert failed; `reload` is the result of the group reload that
     * follows success.
     */
    method HandleCreateGroup(created: Option<Group>, reload: Option<seq<MembershipRow>>) returns (writes: seq<Write>)
      requires Valid() && showCreateGroup
      modifies this`newGroupName, this`showCreateGroup, this`groups
      ensures Valid()
      ensures writes != [] ==> isAdmin
      ensures Blank(old(newGroupName)) ==>
                && writes == []
                && newGroupName == old(newGroupName) && showCreateGroup == old(showCreateGroup)
                && groups == old(groups)
      ensures !Blank(old(newGroupName)) && created.None? ==>
                && writes == [InsertGroup(old(newGroupName), userId)]
                && newGroupName == old(newGroupName) && showCreateGroup == old(showCreateGroup)
                && groups == old(groups)
      ensures !Blank(old(newGroupName)) && created.Some? ==>
                && writes == [InsertGroup(old(newGroupName), userId), InsertMembership(created.value.id, userId)]
                && newGroupName == "" && !showCreateGroup
                && groups == if reload.Some? then ExtractGroups(reload.value) else old(groups)
    {
      if Trim(newGroupName) == "" {
        return [];
      }
      writes := [InsertGroup(newGroupName, userId)];
      if created.None? {
        return;
      }
      // the membership insert's own error is not looked at
      writes := writes + [InsertMembership(created.value.id, userId)];
      newGroupName := "";
      showCreateGroup := false;
      LoadGroups(reload);
    }
  }
}
