/** The 4-shooter rotation over (group, position) documented for
    StateMachine::advanceToNextGroup (Sender/StateMachine.h), and the
    different order in which the menus lay out the same four turns. */
module GroupRotation {
  import opened SenderConfig

  datatype GroupState = GroupState(group: GroupType, position: Position)

  const AB1 := GroupState(GroupAB, Pos1)
  const CD1 := GroupState(GroupCD, Pos1)
  const CD2 := GroupState(GroupCD, Pos2)
  const AB2 := GroupState(GroupAB, Pos2)

  /** The four (group, position) combinations. */
  const AllStates: set<GroupState> := {AB1, CD1, CD2, AB2}

  /** One documented rotation step: AB_POS1 -> CD_POS1 -> CD_POS2 -> AB_POS2 -> AB_POS1. */
  function Next(s: GroupState): (r: GroupState)
    ensures r != s
    ensures r.position == Pos1 <==> s == AB2 || s == AB1
  {
    match s
    case GroupState(GroupAB, Pos1) => CD1
    case GroupState(GroupCD, Pos1) => CD2
    case GroupState(GroupCD, Pos2) => AB2
    case GroupState(GroupAB, Pos2) => AB1
  }

  /** The order shown by the menus' group display, `{A/B -> C/D} {C/D -> A/B}`
      with the highlights AB1, CD2, CD1, AB2. */
  function MenuOrderNext(s: GroupState): (r: GroupState)
    ensures r != s
    ensures r.group != s.group <==> s == AB1 || s == CD1
  {
    match s
    case GroupState(GroupAB, Pos1) => CD2
    case GroupState(GroupCD, Pos2) => CD1
    case GroupState(GroupCD, Pos1) => AB2
    case GroupState(GroupAB, Pos2) => AB1
  }

  /** n rotation steps. */
  function Iterate(s: GroupState, n: nat): GroupState
  {
    if n == 0 then s else Next(Iterate(s, n - 1))
  }

  /** n steps of the menu order. */
  function IterateMenuOrder(s: GroupState, n: nat): GroupState
  {
    if n == 0 then s else MenuOrderNext(IterateMenuOrder(s, n - 1))
  }

  /** Four steps bring every start state back to itself, in both orders. */
  lemma CycleClosure(s: GroupState)
    ensures Iterate(s, 4) == s
    ensures IterateMenuOrder(s, 4) == s
  {
    assert Iterate(s, 4) == Next(Next(Next(Next(s))));
    assert IterateMenuOrder(s, 4) == MenuOrderNext(MenuOrderNext(MenuOrderNext(MenuOrderNext(s))));
  }

  /** No shorter positive number of steps does (the cycle has exactly four states). */
  lemma CycleIsMinimal(s: GroupState, n: nat)
    requires 0 < n < 4
    ensures Iterate(s, n) != s
  {
    assert Iterate(s, 1) == Next(s);
    assert Iterate(s, 2) == Next(Next(s));
    assert Iterate(s, 3) == Next(Next(Next(s)));
  }

  /** Only the step count modulo four matters, and rotation never leaves the four combinations. */
  lemma {:induction false} IterateModFour(s: GroupState, n: nat)
    ensures Iterate(s, n) == Iterate(s, n % 4)
    ensures Iterate(s, n) in AllStates
  {
    if n >= 4 {
      IterateModFour(s, n - 4);
      IterateAdd(s, n - 4, 4);
      CycleClosure(Iterate(s, n - 4));
      assert (n - 4) % 4 == n % 4;
    } else {
      InAllStates(Iterate(s, n));
    }
  }

  /** Every value of the type is one of the four combinations. */
  lemma InAllStates(s: GroupState)
    ensures s in AllStates
  {
    match s
    case GroupState(GroupAB, Pos1) =>
    case GroupState(GroupCD, Pos1) =>
    case GroupState(GroupCD, Pos2) =>
    case GroupState(GroupAB, Pos2) =>
  }

  /** Steps compose: m steps then k steps is m + k steps. */
  lemma {:induction false} IterateAdd(s: GroupState, m: nat, k: nat)
    ensures Iterate(Iterate(s, m), k) == Iterate(s, m + k)
  {
    if k > 0 {
      IterateAdd(s, m, k - 1);
    }
  }

  /** Starting at AB_POS1, the documented order visits the four states in one cycle. */
  lemma DocumentedSequence()
    ensures Iterate(AB1, 1) == CD1 && Iterate(AB1, 2) == CD2 && Iterate(AB1, 3) == AB2
    ensures {Iterate(AB1, 0), Iterate(AB1, 1), Iterate(AB1, 2), Iterate(AB1, 3)} == AllStates
  {
  }

  /** The two orders disagree: after AB_POS1 the header's cycle goes to CD_POS1,
      the menus' display to CD_POS2; they agree only on the step into AB_POS1. */
  lemma OrdersDisagree()
    ensures Next(AB1) == CD1 && MenuOrderNext(AB1) == CD2
    ensures forall s :: Next(s) == MenuOrderNext(s) <==> s == AB2
  {
  }
}
