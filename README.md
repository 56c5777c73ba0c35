# Stag-hunt agents: decisions and membership

A Dafny model of the decision and membership logic of the ISE "game of life"
stag-hunt simulation. Agents play rounds of four phases (group selection,
team selection, hunting, hunt results). The model covers five parts:

- how a `TestAgent` chooses the food to hunt;
- how a `TestGroupableAgent` chooses food, chooses a group and reacts to a
  group application;
- the member list of a group (`GroupDataModel`);
- the hunting team value (`HuntingTeam`);
- the phase enumeration (`TurnType`).

Files and modules:

- `java.dfy` (`Java`): null references (`Option`) and thrown exceptions
  (`Outcome`: `Returned` or `Threw`).
- `models.dfy` (`Models`): a `Food` stand-in and `HuntingTeam`.
- `tokens.dfy` (`Tokens`): `TurnType`, `values()`, `ordinal()`, `firstTurn`.
- `participants.dfy` (`Participants`): the `GroupDataModel` class, whose
  `seq` member list is updated in place, and `List.remove(Object)` as
  `RemoveFirst`.
- `test_agent.dfy` (`TestAgent`): the best-so-far loop as a method, proved
  against a specification function.
- `test_groupable_agent.dfy` (`TestGroupableAgent`): the agent as a class,
  with the environment connector as a class that records the calls made on it.

The food choice follows the code as written. In `TestAgent.chooseFood` the
indentation places the nutrition comparison under the soloability test, but
the code does not nest it there: the `huntersRequired <= 1` test guards only
the first pick, and nutrition is compared for every food. The code
therefore:

- returns null on an empty catalog;
- throws a `NullPointerException` when the first food needs more than one
  hunter;
- otherwise returns the earliest food of greatest nutrition in the whole
  catalog, soloable or not.

The model states and proves exactly this behaviour.

## Model

| member | source | states |
|---|---|---|
| `TestAgent.BestIndex` | src/ise/gameoflife/agents/TestAgent.java:45-48 | the index lies in the prefix, its nutrition is at least that of every food in the prefix, and every earlier food is strictly less nutritious (strict `>` keeps the first seen) |
| `TestAgent.ExpectedFood` | src/ise/gameoflife/agents/TestAgent.java:39-50 | the result is null iff the catalog is empty; an exception is thrown iff the first food is not soloable, and it is always a NullPointerException; a returned food belongs to the catalog and is at least as nutritious as every food in it |
| `TestAgent.ChooseFood` | src/ise/gameoflife/agents/TestAgent.java:36-51 | the loop returns exactly `ExpectedFood` of the catalog; its invariants say that once the best so far is non-null it stays non-null, is an already-visited food, and is the earliest maximum seen so far |
| `TestAgent.EarliestMaximumIsChosen` | src/ise/gameoflife/agents/TestAgent.java:41-49 | when the first food is soloable, the choice is the food at the earliest index of greatest nutrition (ties go to the first seen) |
| `TestAgent.MostNutritiousWinsWhateverItsHunters` | src/ise/gameoflife/agents/TestAgent.java:43-48 | once the first pick is made, a strictly most nutritious food is chosen however many hunters it needs |
| `TestAgent.StagChosenBehindRabbit` | src/ise/gameoflife/agents/TestAgent.java:43-48 | a stag needing two hunters, listed after a soloable rabbit, is returned |
| `TestAgent.TieGoesToFirstListed` | src/ise/gameoflife/agents/TestAgent.java:45-48 | of two equally nutritious foods, the one iterated first is returned, in either order |
| `TestAgent.SingleAgentChoosesChicken` | src/ise/gameoflife/simulatons/SingleAgent.java:66-73 | on the single-agent catalog (rabbit nutrition 1, chicken nutrition 2, both soloable) chicken is chosen in either iteration order |
| `TestGroupableAgent.Agent.ChooseFood` | src/ise/gameoflife/agents/TestGroupableAgent.java:33-55 | a non-null order is returned whatever the catalog; without one, the result is exactly TestAgent's (`ExpectedFood`), including null on an empty catalog and the NullPointerException |
| `TestGroupableAgent.Agent.ChooseGroup` | src/ise/gameoflife/agents/TestGroupableAgent.java:70-84 | a grouped agent gets null and makes no connector call; otherwise a non-empty available set yields its first group after one query; an empty one leads to exactly one `createGroup` with the first allowed type and the random seed, and that call's fresh id is returned; an empty allowed-type list throws IndexOutOfBounds without creating anything |
| `TestGroupableAgent.Agent.GroupApplicationResponse` | src/ise/gameoflife/agents/TestGroupableAgent.java:86-91 | changes neither the group id nor the order, whatever its argument |
| `TestGroupableAgent.Connector.AvailableGroups` | src/ise/gameoflife/agents/TestGroupableAgent.java:75 | returns the available groups in iteration order and records one query |
| `TestGroupableAgent.Connector.GetAllowedGroupTypes` | src/ise/gameoflife/agents/TestGroupableAgent.java:79 | returns the allowed group types and records one query |
| `TestGroupableAgent.Connector.CreateGroup` | src/ise/gameoflife/agents/TestGroupableAgent.java:80 | returns an id no available group has and records the call with its type, seed and result |
| `Participants.GroupDataModel.constructor` | src/ise/gameoflife/participants/GroupDataModel.java:18-32 | the group id, leader and member list are the given ones |
| `Participants.GroupDataModel.AddAgentToGroup` | src/ise/gameoflife/participants/GroupDataModel.java:34-40 | the id is appended at the end without a membership check (the length grows by one even for a member), and the id and leader are unchanged |
| `Participants.GroupDataModel.RemoveAgentFromGroup` | src/ise/gameoflife/participants/GroupDataModel.java:41-49 | returns true iff the id was a member; the new list is the old one without its first occurrence (one shorter); on false the list is unchanged; the id and leader are unchanged |
| `Participants.GroupDataModel.GetId` | src/ise/gameoflife/participants/GroupDataModel.java:51-58 | returns the group's UUID |
| `Participants.RemoveFirstAbsent` | src/ise/gameoflife/participants/GroupDataModel.java:41-49 | removing an absent id leaves the list unchanged |
| `Participants.RemoveFirstAt` | src/ise/gameoflife/participants/GroupDataModel.java:47-49 | removal takes exactly the first occurrence and keeps the other elements in order |
| `Participants.RemoveFirstPresent` | src/ise/gameoflife/participants/GroupDataModel.java:47-49 | removing a present id shortens the list by one and removes exactly one copy from its multiset |
| `Participants.AddThenRemoveRestores` | src/ise/gameoflife/participants/GroupDataModel.java:38-49 | for an id not yet a member, adding then removing restores the list |
| `Participants.AddExistingThenRemoveMovesToEnd` | src/ise/gameoflife/participants/GroupDataModel.java:38-49 | for an id already a member, adding then removing takes the earlier copy and the id moves to the end; the list comes back only when everything after the id's first copy is the id itself |
| `Participants.RemoveFirst` | src/ise/gameoflife/participants/GroupDataModel.java:48 | `ArrayList.remove(Object)` on the member list; it has no `ensures` of its own: `RemoveFirstAbsent`, `RemoveFirstAt` and `RemoveFirstPresent` state its behaviour |
| `Models.Soloable` | src/ise/gameoflife/agents/TestAgent.java:43 | the `getHuntersRequired() <= 1` test; a predicate with no `ensures` of its own: `TestAgent.ExpectedFood` and `TestAgent.MostNutritiousWinsWhateverItsHunters` state where it matters |
| `Models.HuntingTeam.GetMembers` | src/ise/gameoflife/models/HuntingTeam.java:34-37 | `getMembers()`; it has no `ensures` of its own: `Models.GetMembersReturnsConstructorList` states that it returns the constructor's list |
| `Models.NewHuntingTeam` | src/ise/gameoflife/models/HuntingTeam.java:15-27 | the self-assignment leaves `orderedTarget` null |
| `Models.GetMembersReturnsConstructorList` | src/ise/gameoflife/models/HuntingTeam.java:23-37 | `getMembers()` returns the constructor's list, in the same order, and the team has no target |
| `Models.ConstructorChecksNothing` | src/ise/gameoflife/models/HuntingTeam.java:17-27 | empty teams, repeated members and overlapping teams are all accepted |
| `Tokens.Values` | src/ise/gameoflife/tokens/TurnType.java:7-19 | exactly four phases, all distinct |
| `Tokens.Ordinal` | src/ise/gameoflife/tokens/TurnType.java:7-19 | the ordinal indexes the phase in `values()` |
| `Tokens.FirstTurnIsGroupSelect` | src/ise/gameoflife/tokens/TurnType.java:21 | `firstTurn` is GroupSelect, ordinal 0 |
| `Tokens.ValuesEnumerateAllPhases` | src/ise/gameoflife/tokens/TurnType.java:7-21 | every phase is in `values()`, and `ordinal` inverts indexing into `values()` |
| `Tokens.OrdinalsFollowDeclarationOrder` | src/ise/gameoflife/tokens/TurnType.java:9-19 | GroupSelect=0 < TeamSelect < GoHunt < HuntResults=3 |

## Left out

- The environment connector and the agent base classes (`availableFoods`,
  `availableGroups`, `getAllowedGroupTypes`, `createGroup`, `getDataModel`,
  `AbstractAgent`) are not part of this model. The food catalog is a
  parameter in iteration order. The connector is a class that answers from
  given groups and types and records the calls made on it.
  `TestGroupableAgent.Connector.CreateGroup` only promises a fresh id; it
  does not make the new group visible to later queries.
- `uniformRandLong()` is randomness and becomes the `seed` parameter of
  `ChooseGroup`.
- `models/Food.java` is not part of this model. `Models.Food` keeps only an
  id, a name, the nutrition and the hunters required.
- Nutrition is a Java `double`. It is modelled as `real`, which has no NaN
  and no rounding; the code only compares it with `>`.
- TestGroupableAgent's food loop is the same statement for statement as
  TestAgent's. It is modelled once, as `TestAgent.ChooseFood`, which the
  groupable agent calls after its order check.
- `HuntingTeam` wraps the caller's list with
  `Collections.unmodifiableList`, which is a live view: later changes to
  the caller's list would show through. The model stores an immutable
  snapshot instead.
- `GroupDataModel.memberList` has no initializer and is filled by XML
  deserialisation. It is modelled as an always-present sequence. The
  serialisation annotations are not modelled. The agent passed to
  `addAgentToGroup`/`removeAgentFromGroup` is represented by its id.
- Groups identify agents by string id. Java string equality (`equals`) is
  modelled as sequence equality.
- The lifecycle members of both agent classes are not modelled: they have
  empty bodies or only call the framework. These are `TestAgent`'s two
  constructors, `onInit` and `onActivate`, and `TestGroupableAgent`'s two
  constructors, `onActivate` and `beforeNewRound`.
- Null arguments are not modelled. Examples are a null member list given to
  `new HuntingTeam` (`Collections.unmodifiableList(null)` throws a
  NullPointerException) and null agent or group ids. Lists and ids are
  always-present sequences.
- `participants/PublicAgentDataModel.java` only forwards to
  `AgentDataModel`, which is not part of this model.
- `plugins/HuntersAlivePlugin.java` (charting and PNG output) and
  `simulatons/SingleAgent.java` (configuration writing) are presentation
  and I/O. Only SingleAgent's food catalog is used, as a scenario.
- Phase succession, team partitioning, hunt resolution, nutrition sharing,
  consumption and starvation are not in the modelled code, so they are not
  modelled.
