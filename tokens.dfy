/** The phase marker of a round (tokens/TurnType.java). */
module Tokens {

  /** The four phases, in declaration order. */
  datatype TurnType = GroupSelect | TeamSelect | GoHunt | HuntResults

  /** `TurnType.values()`: the constants in declaration order. */
  function Values(): (vs: seq<TurnType>)
    ensures |vs| == 4
    ensures forall i, j :: 0 <= i < j < |vs| ==> vs[i] != vs[j]
  {
    [GroupSelect, TeamSelect, GoHunt, HuntResults]
  }

  /** `t.ordinal()`: the position of `t` in `values()`. */
  function Ordinal(t: TurnType): (n: nat)
    ensures n < |Values()| && Values()[n] == t
  {
    match t
    case GroupSelect => 0
    case TeamSelect => 1
    case GoHunt => 2
    case HuntResults => 3
  }

  /** `TurnType.firstTurn`, defined as `values()[0]`. */
  const FirstTurn: TurnType := Values()[0]

  lemma FirstTurnIsGroupSelect()
    ensures FirstTurn == GroupSelect && Ordinal(FirstTurn) == 0
  {
  }

  /** Every phase is listed, and `values()` and `ordinal()` are inverse. */
  lemma ValuesEnumerateAllPhases()
    ensures forall t: TurnType :: t in Values()
    ensures forall i :: 0 <= i < |Values()| ==> Ordinal(Values()[i]) == i
  {
    forall t: TurnType ensures t in Values() {
      assert Values()[Ordinal(t)] == t;
    }
  }

  /** Ordinals follow declaration order. */
  lemma OrdinalsFollowDeclarationOrder()
    ensures Ordinal(GroupSelect) < Ordinal(TeamSelect) < Ordinal(GoHunt) < Ordinal(HuntResults)
    ensures Ordinal(GroupSelect) == 0 && Ordinal(HuntResults) == 3
  {
  }
}
