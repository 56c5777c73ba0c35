/** Values of the models package: the food being hunted and hunting teams. */
module Models {
  import opened Java

  /** A huntable resource. models/Food.java is not part of this model; this
      stand-in keeps what the agents read from it: an identity, a name, the
      nutrition (a Java double, only ever compared) and the number of hunters
      the food needs. */
  datatype Food = Food(id: nat, name: string, nutrition: real, huntersRequired: int)

  /** A food one hunter can catch on their own. */
  predicate Soloable(f: Food) {
    f.huntersRequired <= 1
  }

  /** A team of agent ids. The member list is fixed when the team is built and
      nothing offers a way to change it; `orderedTarget` is a private field
      nothing ever assigns a food to. */
  datatype HuntingTeam = HuntingTeam(members: seq<string>, orderedTarget: Option<Food>)
  {
    /** `getMembers()`: the (unmodifiable) member list. */
    function GetMembers(): seq<string> {
      members
    }
  }

  /** `new HuntingTeam(members)`. The constructor's second statement assigns
      `orderedTarget` to itself, so the field keeps Java's default, null. No
      check is made on the list: it may be empty, hold duplicates, or share
      members with another team. */
  function NewHuntingTeam(members: seq<string>): (t: HuntingTeam)
    ensures t.orderedTarget == None
  {
    var orderedTarget: Option<Food> := None;  // the field's default value
    HuntingTeam(members, orderedTarget)
  }

  /** What the constructor was given is what `getMembers()` returns, in the
      same order, and the team carries no target. */
  lemma GetMembersReturnsConstructorList(members: seq<string>)
    ensures NewHuntingTeam(members).GetMembers() == members
    ensures NewHuntingTeam(members).orderedTarget == None
  {
  }

  /** The constructor accepts an empty team, a team with a repeated member,
      and two teams that share an agent: "one team at a time" is left to the
      callers. */
  lemma ConstructorChecksNothing()
    ensures NewHuntingTeam([]).GetMembers() == []
    ensures |NewHuntingTeam(["a", "a"]).GetMembers()| == 2
    ensures "a" in NewHuntingTeam(["a", "b"]).GetMembers() && "a" in NewHuntingTeam(["a"]).GetMembers()
  {
  }
}
