/**
 The reflex vacuum agent: a stateless decision table from the world to the
 next action. It cleans the cell it is on first (the first kind of dirt
 before the second); otherwise it looks at exactly one other cell, steps
 onto it when it is dirty, and else takes its default step.

 The cell it looks at and the default step are best read against the tour
 0 -> 1 -> 3 -> 2 -> 0 round the grid: the checked cell is the one the tour
 comes from and the default step goes to the one it leads to.
 */
module Reflex {
  import opened Grid

  /** The clockwise tour of the 2x2 grid. */
  const Tour: seq<int> := [0, 1, 3, 2]

  /** Where `loc` sits on the tour. */
  function TourIndex(loc: int): (k: nat)
    requires 0 <= loc < NumCells
    ensures k < |Tour| && Tour[k] == loc
  {
    if loc == 0 then 0 else if loc == 1 then 1 else if loc == 3 then 2 else 3
  }

  /** The cell after `loc` on the tour: where the default step goes. */
  function Next(loc: int): int
    requires 0 <= loc < NumCells
  {
    Tour[(TourIndex(loc) + 1) % |Tour|]
  }

  /** The cell before `loc` on the tour: the one cell the policy checks. */
  function Prev(loc: int): int
    requires 0 <= loc < NumCells
  {
    Tour[(TourIndex(loc) + |Tour| - 1) % |Tour|]
  }

  /** The action the reflex agent picks in world `w`. */
  function Policy(w: World): (r: Action)
    requires Valid(w)
    ensures r == Suck <==> w.floors[w.location].dirty
    ensures r == Suck2 <==> !w.floors[w.location].dirty && w.floors[w.location].dirty2
    ensures r.IsMove() <==> !HasDirt(w.floors[w.location])
    ensures r.IsMove() ==>
      Move(w.location, r) == (if HasDirt(w.floors[Prev(w.location)]) then Prev(w.location) else Next(w.location))
  {
    var here := w.floors[w.location];
    if here.dirty then Suck
    else if here.dirty2 then Suck2
    else if w.location == 0 then
      (if w.floors[2].dirty || w.floors[2].dirty2 then Down else Right)
    else if w.location == 1 then
      (if w.floors[0].dirty || w.floors[0].dirty2 then Left else Down)
    else if w.location == 2 then
      (if w.floors[3].dirty || w.floors[3].dirty2 then Right else Up)
    else
      (if w.floors[1].dirty || w.floors[1].dirty2 then Up else Left)
  }

  /** The policy reads only the location, the agent's own cell and the one checked cell:
      two worlds that agree on those get the same action. */
  lemma PolicyReadsOnlyTwoCells(w: World, v: World)
    requires Valid(w) && Valid(v)
    requires w.location == v.location
    requires w.floors[w.location] == v.floors[v.location]
    requires w.floors[Prev(w.location)] == v.floors[Prev(v.location)]
    ensures Policy(w) == Policy(v)
  {
  }

  /** The tour runs through all four cells, and `Next` and `Prev` walk it in opposite directions. */
  lemma TourNeighbours(loc: int)
    requires 0 <= loc < NumCells
    ensures Next(loc) != loc && Prev(loc) != loc && Next(loc) != Prev(loc)
    ensures 0 <= Next(loc) < NumCells && 0 <= Prev(loc) < NumCells
    ensures Prev(Next(loc)) == loc && Next(Prev(loc)) == loc
    ensures Next(Next(loc)) != loc && Next(Next(Next(loc))) == Prev(loc)
    ensures {loc, Next(loc), Next(Next(loc)), Prev(loc)} == {0, 1, 2, 3}
  {
    if loc == 0 {
      assert Next(0) == 1 && Next(1) == 3 && Next(3) == 2 && Prev(0) == 2 && Prev(1) == 0 && Next(2) == 0;
    } else if loc == 1 {
      assert Next(1) == 3 && Next(3) == 2 && Next(2) == 0 && Prev(1) == 0 && Prev(3) == 1 && Next(0) == 1;
    } else if loc == 2 {
      assert Next(2) == 0 && Next(0) == 1 && Next(1) == 3 && Prev(2) == 3 && Prev(0) == 2 && Next(3) == 2;
    } else {
      assert Next(3) == 2 && Next(2) == 0 && Next(0) == 1 && Prev(3) == 1 && Prev(2) == 3 && Next(1) == 3;
    }
  }

  /** Every move the policy picks changes the location when simulated, and
      leaves every cell as it was: the agent never chooses a move that does nothing.
      When the checked cell is dirty the move lands on it. */
  lemma PolicyMovesAlwaysMove(w: World)
    requires Valid(w)
    ensures var a := Policy(w); var r := Simulate(w, a).0;
      a.IsMove() ==> r.location != w.location && r.floors == w.floors
    ensures var a := Policy(w);
      a.IsMove() && HasDirt(w.floors[Prev(w.location)]) ==> Simulate(w, a).0.location == Prev(w.location)
  {
    TourNeighbours(w.location);
  }
}
