/** The group record of participants/GroupDataModel.java. */
module Participants {
  import opened Java

  /** `list.remove(x)` for a `java.util.List`: drop the first element equal to
      `x`, keep the rest in order; no effect when `x` is absent. */
  function RemoveFirst(s: seq<string>, x: string): seq<string>
  {
    if s == [] then []
    else if s[0] == x then s[1..]
    else [s[0]] + RemoveFirst(s[1..], x)
  }

  /** Removing an absent id leaves the list as it was. */
  lemma {:induction false} RemoveFirstAbsent(s: seq<string>, x: string)
    requires x !in s
    ensures RemoveFirst(s, x) == s
  {
    if s != [] {
      RemoveFirstAbsent(s[1..], x);
    }
  }

  /** When `k` is the first position of `x`, exactly that element goes and
      the others keep their relative order. */
  lemma {:induction false} RemoveFirstAt(s: seq<string>, x: string, k: nat)
    requires k < |s| && s[k] == x
    requires forall j :: 0 <= j < k ==> s[j] != x
    ensures RemoveFirst(s, x) == s[..k] + s[k + 1..]
  {
    if k > 0 {
      RemoveFirstAt(s[1..], x, k - 1);
      assert s[1..][..k - 1] == s[1..k];
      assert s[1..][k..] == s[k + 1..];
      assert [s[0]] + s[1..k] == s[..k];
    }
  }

  /** Removing a present id shortens the list by one and takes away exactly
      one copy of it. */
  lemma {:induction false} RemoveFirstPresent(s: seq<string>, x: string)
    requires x in s
    ensures |RemoveFirst(s, x)| == |s| - 1
    ensures multiset(RemoveFirst(s, x)) == multiset(s) - multiset{x}
  {
    if s[0] == x {
      assert s == [s[0]] + s[1..];
    } else {
      RemoveFirstPresent(s[1..], x);
      assert s == [s[0]] + s[1..];
    }
  }

  /** Adding an id that was not yet a member and removing it again restores
      the member list. */
  lemma AddThenRemoveRestores(s: seq<string>, x: string)
    requires x !in s
    ensures RemoveFirst(s + [x], x) == s
  {
    RemoveFirstAt(s + [x], x, |s|);
    assert (s + [x])[..|s|] == s;
  }

  /** Adding an id that is already a member duplicates it; removing it then
      takes the earlier copy, so the id moves to the end of the list. The
      list comes back as it was only when everything after the id's first
      copy is the id itself. */
  lemma {:induction false} AddExistingThenRemoveMovesToEnd(s: seq<string>, x: string)
    requires x in s
    ensures RemoveFirst(s + [x], x) == RemoveFirst(s, x) + [x]
  {
    assert (s + [x])[1..] == s[1..] + [x];
    if s[0] != x {
      AddExistingThenRemoveMovesToEnd(s[1..], x);
    }
  }

  /** A group: its id, its leader (possibly null) and its member ids in the
      order they were added. The fields are filled by XML deserialisation;
      the constructor stands in for that. */
  class GroupDataModel {
    var groupID: nat  // a UUID
    var leader: Option<string>
    var memberList: seq<string>

    constructor (groupID: nat, leader: Option<string>, memberList: seq<string>)
      ensures this.groupID == groupID && this.leader == leader && this.memberList == memberList
    {
      this.groupID := groupID;
      this.leader := leader;
      this.memberList := memberList;
    }

    /** `addAgentToGroup(agent)`: append the agent's id, without checking
        whether it is already a member. */
    method AddAgentToGroup(agentId: string)
      modifies this
      ensures memberList == old(memberList) + [agentId]
      ensures |memberList| == |old(memberList)| + 1
      ensures groupID == old(groupID) && leader == old(leader)
    {
      memberList := memberList + [agentId];
    }

    /** `removeAgentFromGroup(agent)`: `ArrayList.remove(Object)` on the
        agent's id; reports whether the id was a member. */
    method RemoveAgentFromGroup(agentId: string) returns (removed: bool)
      modifies this
      ensures removed <==> agentId in old(memberList)
      ensures memberList == RemoveFirst(old(memberList), agentId)
      ensures removed ==> |memberList| == |old(memberList)| - 1
      ensures !removed ==> memberList == old(memberList)
      ensures groupID == old(groupID) && leader == old(leader)
    {
      var k := 0;
      while k < |memberList| && memberList[k] != agentId
        invariant k <= |memberList|
        invariant forall j :: 0 <= j < k ==> memberList[j] != agentId
      {
        k := k + 1;
      }
      if k == |memberList| {
        RemoveFirstAbsent(memberList, agentId);
        removed := false;
      } else {
        RemoveFirstAt(memberList, agentId, k);
        RemoveFirstPresent(memberList, agentId);
        memberList := memberList[..k] + memberList[k + 1..];
        removed := true;
      }
    }

    /** `getId()`. */
    method GetId() returns (id: nat)
      ensures id == groupID
    {
      id := groupID;
    }
  }
}
