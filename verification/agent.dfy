/**
 The agent-controlled loop: each tick the reflex policy picks an action and
 the world simulates it. With no new dirt injected between ticks, the agent
 removes one kind of dirt from one cell at least every three ticks, so every
 world is clean after three ticks per dirt flag.
 */
module Agent {
  import opened Grid
  import opened Reflex

  /** One tick: the policy decides and the world applies the decision. */
  function Step(w: World): (r: World)
    requires Valid(w)
    ensures Valid(r)
    ensures HasDirt(w.floors[w.location]) ==> r.location == w.location && DirtCount(r) == DirtCount(w) - 1
    ensures var here := w.floors[w.location];
      HasDirt(here) ==>
      r.floors == w.floors[w.location := if here.dirty then Cell(false, here.dirty2) else Cell(false, false)]
    ensures !HasDirt(w.floors[w.location]) ==> r.floors == w.floors && r.location != w.location
    ensures !HasDirt(w.floors[w.location]) ==>
      r.location == (if HasDirt(w.floors[Prev(w.location)]) then Prev(w.location) else Next(w.location))
  {
    var a := Policy(w);
    PolicyMovesAlwaysMove(w);
    ClearingRemovesOneFlag(w, a);
    Simulate(w, a).0
  }

  /** Cleaning removes exactly the flag it clears, if it was set, and no other. */
  lemma ClearingRemovesOneFlag(w: World, a: Action)
    requires Valid(w)
    ensures var here := w.floors[w.location];
      (a == Suck || a == Suck2) ==>
      DirtCount(Simulate(w, a).0) + (if (a == Suck && here.dirty) || (a == Suck2 && here.dirty2) then 1 else 0)
        == DirtCount(w)
  {
    var r := Simulate(w, a).0;
    var c := r.floors[w.location];
    if a == Suck || a == Suck2 {
      assert r.floors == w.floors[w.location := c];
      UpdateFlags(w.floors, w.location, c);
    }
  }

  /** How many dirt flags a cell carries. */
  function Flags(c: Cell): (n: nat)
    ensures n == 0 <==> !HasDirt(c)
  {
    (if c.dirty then 1 else 0) + (if c.dirty2 then 1 else 0)
  }

  /** How many dirt flags a row of cells carries. */
  function CountFlags(cells: seq<Cell>): nat {
    if |cells| == 0 then 0 else Flags(cells[0]) + CountFlags(cells[1..])
  }

  /** How many dirt flags the whole grid carries. */
  function DirtCount(w: World): nat {
    CountFlags(w.floors)
  }

  /** No cell carries any dirt. */
  predicate Clean(w: World) {
    forall i :: 0 <= i < |w.floors| ==> !HasDirt(w.floors[i])
  }

  /** Replacing one cell changes the count by the difference of the two cells' flags. */
  lemma {:induction false} UpdateFlags(cells: seq<Cell>, i: int, c: Cell)
    requires 0 <= i < |cells|
    ensures CountFlags(cells[i := c]) + Flags(cells[i]) == CountFlags(cells) + Flags(c)
    decreases |cells|
  {
    if i > 0 {
      UpdateFlags(cells[1..], i - 1, c);
      assert cells[i := c][1..] == cells[1..][i - 1 := c];
    }
  }

  /** A row of cells carries no flag exactly when no cell in it is dirty. */
  lemma {:induction false} NoFlagsIffClean(cells: seq<Cell>)
    ensures CountFlags(cells) == 0 <==> forall i :: 0 <= i < |cells| ==> !HasDirt(cells[i])
    decreases |cells|
  {
    if |cells| > 0 {
      NoFlagsIffClean(cells[1..]);
      assert forall i :: 0 < i < |cells| ==> cells[i] == cells[1..][i - 1];
    }
  }

  /** One tick of the driver on any world: worlds of another shape are out of
      contract and are left as they are. */
  function Tick(w: World): (r: World)
    ensures Valid(w) ==> r == Step(w)
    ensures !Valid(w) ==> r == w
  {
    if Valid(w) then Step(w) else w
  }

  /** `n` applications of `f`, starting from `w`. */
  function Iterate(f: World -> World, w: World, n: nat): World
    decreases n
  {
    if n == 0 then w else Iterate(f, f(w), n - 1)
  }

  /** Iterating `m` times and then `n` more is iterating `m + n` times. */
  lemma {:induction false} IterateAdd(f: World -> World, w: World, m: nat, n: nat)
    ensures Iterate(f, w, m + n) == Iterate(f, Iterate(f, w, m), n)
    decreases m
  {
    if m > 0 {
      IterateAdd(f, f(w), m - 1, n);
    }
  }

  /** Ticking keeps the world's shape and never adds dirt. */
  lemma {:induction false} TicksKeepShape(w: World, n: nat)
    requires Valid(w)
    ensures Valid(Iterate(Tick, w, n)) && DirtCount(Iterate(Tick, w, n)) <= DirtCount(w)
    decreases n
  {
    if n > 0 {
      TicksKeepShape(Tick(w), n - 1);
    }
  }

  /** The world after `n` ticks. Ticks never add dirt. */
  function Run(w: World, n: nat): (r: World)
    requires Valid(w)
    ensures Valid(r)
    ensures DirtCount(r) <= DirtCount(w)
  {
    TicksKeepShape(w, n);
    Iterate(Tick, w, n)
  }

  /** Running `m` ticks and then `n` more is running `m + n` ticks. */
  lemma RunAdd(w: World, m: nat, n: nat)
    requires Valid(w)
    ensures Run(w, m + n) == Run(Run(w, m), n)
  {
    IterateAdd(Tick, w, m, n);
  }

  /** In a clean world every tick is the default step along the tour. */
  lemma CleanWorldFollowsTour(w: World)
    requires Valid(w) && Clean(w)
    ensures Step(w) == w.(location := Next(w.location))
  {
    assert !HasDirt(w.floors[Prev(w.location)]);
  }

  /** One more tick is one more step. */
  lemma RunSucc(w: World, k: nat)
    requires Valid(w)
    ensures Run(w, k + 1) == Step(Run(w, k))
  {
    RunAdd(w, k, 1);
  }

  /** The most ticks the agent needs to remove some flag, when there is one. */
  const TicksPerFlag: nat := 3

  /** Whatever dirt there is, some flag is removed within three ticks. */
  lemma ProgressWithinThree(w: World)
    requires Valid(w) && DirtCount(w) > 0
    ensures DirtCount(Step(Step(Step(w)))) < DirtCount(w)
  {
    var loc := w.location;
    TourNeighbours(loc);
    var w1 := Step(w);
    var w2 := Step(w1);
    if HasDirt(w.floors[loc]) || HasDirt(w.floors[Prev(loc)]) {
      return;
    }
    // The agent has left a clean cell whose checked cell is clean too: it is on the
    // next cell of the tour, and if that is clean it walks on once more.
    assert w1 == w.(location := Next(loc));
    if HasDirt(w.floors[Next(loc)]) {
      return;
    }
    assert w2 == w.(location := Next(Next(loc)));
    NoFlagsIffClean(w.floors);
    var i :| 0 <= i < NumCells && HasDirt(w.floors[i]);
    assert i in {loc, Prev(loc), Next(loc), Next(Next(loc))};
    assert HasDirt(w2.floors[w2.location]);
  }

  /** A clean world stays clean, however long it runs. */
  lemma StaysClean(w: World, n: nat)
    requires Valid(w) && Clean(w)
    ensures Clean(Run(w, n))
  {
    NoFlagsIffClean(w.floors);
    NoFlagsIffClean(Run(w, n).floors);
  }

  /** Some flag is removed within any run of at least three ticks. */
  lemma ProgressWithin(w: World, k: nat)
    requires Valid(w) && DirtCount(w) > 0 && k >= TicksPerFlag
    ensures DirtCount(Run(w, k)) < DirtCount(w)
  {
    ProgressWithinThree(w);
    assert Run(w, TicksPerFlag) == Step(Step(Step(w)));
    RunAdd(w, TicksPerFlag, k - TicksPerFlag);
  }

  /** Any run at least three ticks per dirt flag long leaves the grid clean. */
  lemma {:induction false} CleanAfter(w: World, n: nat)
    requires Valid(w) && n >= TicksPerFlag * DirtCount(w)
    ensures Clean(Run(w, n))
    decreases DirtCount(w)
  {
    var c := DirtCount(w);
    if c == 0 {
      NoFlagsIffClean(w.floors);
      StaysClean(w, n);
    } else {
      var m := n - TicksPerFlag * (c - 1);
      ProgressWithin(w, m);
      var wm := Run(w, m);
      RunAdd(w, m, n - m);
      CleanAfter(wm, n - m);
    }
  }

  /** With no new dirt, the reflex agent cleans the whole grid: after three
      ticks per dirt flag every cell is clean, from any location. (The
      agent can leave dirt behind only when new dirt keeps arriving.) */
  lemma CleansEverything(w: World)
    requires Valid(w)
    ensures Clean(Run(w, TicksPerFlag * DirtCount(w)))
  {
    CleanAfter(w, TicksPerFlag * DirtCount(w));
  }

  /** From a clean world with the agent on cell 0 (such as the freshly built
      one) the agent walks the tour 0, 1, 3, 2 and is back where it started
      after four ticks, touching nothing. */
  lemma CleanWorldTour(w: World)
    requires Valid(w) && Clean(w) && w.location == 0
    ensures Run(w, 1).location == 1
    ensures Run(w, 2).location == 3
    ensures Run(w, 3).location == 2
    ensures Run(w, 4) == w
  {
    assert Next(0) == 1 && Next(1) == 3 && Next(3) == 2 && Next(2) == 0;
    var w1 := w.(location := 1);
    var w2 := w.(location := 3);
    var w3 := w.(location := 2);
    assert Run(w, 1) == w1 by {
      RunSucc(w, 0);
      CleanWorldFollowsTour(w);
    }
    assert Run(w, 2) == w2 by {
      RunSucc(w, 1);
      CleanWorldFollowsTour(w1);
    }
    assert Run(w, 3) == w3 by {
      RunSucc(w, 2);
      CleanWorldFollowsTour(w2);
    }
    assert Run(w, 4) == w by {
      RunSucc(w, 3);
      CleanWorldFollowsTour(w3);
    }
  }

  /** Dirt on the agent's own cell is sucked up first; dirt in the cell below
      cell 0 sends the agent down onto it. */
  lemma FreshWorldScenarios()
    ensures var w := MarkFloorDirty(NewWorld(NumCells), 0).value;
      Policy(w) == Suck && !Step(w).floors[0].dirty && Step(w).location == 0
    ensures var w := MarkFloorDirty(NewWorld(NumCells), 2).value;
      Policy(w) == Down && Step(w).location == 2
  {
    var w := MarkFloorDirty(NewWorld(NumCells), 0).value;
    assert Prev(0) == 2;
    var v := MarkFloorDirty(NewWorld(NumCells), 2).value;
    assert HasDirt(v.floors[Prev(v.location)]);
  }
}
