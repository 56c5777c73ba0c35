/** The decisions of agents/TestGroupableAgent.java: which food to hunt and
    which group to ask for, plus its empty reaction to a group application. */
module TestGroupableAgent {
  import opened Java
  import opened Models
  import TestAgent

  /** A kind of group agent the environment allows (a Java class object). */
  datatype GroupType = GroupType(name: string)

  /** One call the agent makes on its environment connector. */
  datatype Call =
    | QueriedGroups                                           // availableGroups()
    | QueriedGroupTypes                                       // getAllowedGroupTypes()
    | CreatedGroup(gtype: GroupType, seed: int, result: string) // createGroup(gtype, new GroupDataInitialiser(seed))

  /** An id longer than every id in `ids`, hence none of them. */
  function FreshId(ids: seq<string>): (id: string)
    ensures forall g :: g in ids ==> |g| < |id|
  {
    if ids == [] then "g"
    else
      var rest := FreshId(ids[1..]);
      assert forall g :: g in ids ==> g == ids[0] || g in ids[1..];
      if |ids[0]| < |rest| then rest else ids[0] + "'"
  }

  /** The environment connector as the agent sees it. Its internals are not
      part of this model: it answers from the groups and group types it is
      given, and records every call made on it. */
  class Connector {
    var groups: seq<string>            // availableGroups(), in iteration order
    var allowedGroupTypes: seq<GroupType>
    var calls: seq<Call>

    constructor (groups: seq<string>, allowedGroupTypes: seq<GroupType>)
      ensures this.groups == groups && this.allowedGroupTypes == allowedGroupTypes
      ensures calls == []
    {
      this.groups := groups;
      this.allowedGroupTypes := allowedGroupTypes;
      calls := [];
    }

    method AvailableGroups() returns (gs: seq<string>)
      modifies this
      ensures gs == groups
      ensures groups == old(groups) && allowedGroupTypes == old(allowedGroupTypes)
      ensures calls == old(calls) + [QueriedGroups]
    {
      gs := groups;
      calls := calls + [QueriedGroups];
    }

    method GetAllowedGroupTypes() returns (ts: seq<GroupType>)
      modifies this
      ensures ts == allowedGroupTypes
      ensures groups == old(groups) && allowedGroupTypes == old(allowedGroupTypes)
      ensures calls == old(calls) + [QueriedGroupTypes]
    {
      ts := allowedGroupTypes;
      calls := calls + [QueriedGroupTypes];
    }

    /** Creates a group and returns an id no available group has. */
    method CreateGroup(gtype: GroupType, seed: int) returns (id: string)
      modifies this
      ensures id !in groups
      ensures groups == old(groups) && allowedGroupTypes == old(allowedGroupTypes)
      ensures calls == old(calls) + [CreatedGroup(gtype, seed, id)]
    {
      id := FreshId(groups);
      calls := calls + [CreatedGroup(gtype, seed, id)];
    }
  }

  /** A TestGroupableAgent, with the two fields of its data model its
      decisions read: the group it belongs to and its team's order. */
  class Agent {
    var groupId: Option<string>
    var order: Option<Food>

    constructor (groupId: Option<string>, order: Option<Food>)
      ensures this.groupId == groupId && this.order == order
    {
      this.groupId := groupId;
      this.order := order;
    }

    /** `chooseFood()`: a team order wins outright, whatever the catalog and
        however many hunters the ordered food needs; without one the agent
        chooses exactly as a TestAgent does (the two loops are the same
        statement for statement). */
    method ChooseFood(foods: seq<Food>) returns (r: Outcome<Option<Food>>)
      ensures order.Some? ==> r == Returned(order)
      ensures order.None? ==> r == TestAgent.ExpectedFood(foods)
    {
      if order.Some? {
        return Returned(order);
      }
      r := TestAgent.ChooseFood(foods);
    }

    /** `chooseGroup()`: a grouped agent stays put (null) without asking the
        connector anything; an ungrouped one takes the first available
        group, or, when there is none, creates a group of the first allowed
        type exactly once and returns its id. `seed` is the value of
        `uniformRandLong()`. */
    method ChooseGroup(conn: Connector, seed: int) returns (r: Outcome<Option<string>>)
      modifies conn
      ensures conn.groups == old(conn.groups) && conn.allowedGroupTypes == old(conn.allowedGroupTypes)
      ensures groupId.Some? ==> r == Returned(None) && conn.calls == old(conn.calls)
      ensures groupId.None? && |conn.groups| > 0 ==>
        && r == Returned(Some(conn.groups[0]))
        && conn.calls == old(conn.calls) + [QueriedGroups]
      ensures groupId.None? && |conn.groups| == 0 && |conn.allowedGroupTypes| == 0 ==>
        && r == Threw(IndexOutOfBounds)
        && conn.calls == old(conn.calls) + [QueriedGroups, QueriedGroupTypes]
      ensures groupId.None? && |conn.groups| == 0 && |conn.allowedGroupTypes| > 0 ==>
        && r.Returned? && r.value.Some? && r.value.value !in conn.groups
        && conn.calls == old(conn.calls) + [QueriedGroups, QueriedGroupTypes,
                                            CreatedGroup(conn.allowedGroupTypes[0], seed, r.value.value)]
    {
      if groupId.Some? {
        return Returned(None);
      }
      var groups := conn.AvailableGroups();
      if |groups| == 0 {
        var types := conn.GetAllowedGroupTypes();
        if |types| == 0 {
          // `get(0)` on an empty list
          return Threw(IndexOutOfBounds);
        }
        var id := conn.CreateGroup(types[0], seed);
        return Returned(Some(id));
      }
      return Returned(Some(groups[0]));
    }

    /** `groupApplicationResponse(accepted)`: does nothing. */
    method GroupApplicationResponse(accepted: bool)
      ensures groupId == old(groupId) && order == old(order)
    {
    }
  }
}
