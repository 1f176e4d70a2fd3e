/**
 The world of the cleaning robot: four floor cells laid out as a 2x2 grid,

     0 1
     2 3

 each carrying two independent kinds of dirt, and the cell the agent is on.
 The world changes through two stimuli (marking a floor dirty) and through
 `Simulate`, which applies one agent action.
 */
module Grid {

  /** One floor cell. The two kinds of dirt are independent; both may be present. */
  datatype Cell = Cell(dirty: bool, dirty2: bool)

  /** True when the cell carries either kind of dirt. */
  predicate HasDirt(c: Cell) {
    c.dirty || c.dirty2
  }

  /** An agent action. `Other` stands for any value the world does not recognise. */
  datatype Action = Suck | Suck2 | Left | Right | Up | Down | Other
  {
    /** True for the four movement actions. */
    predicate IsMove() {
      Left? || Right? || Up? || Down?
    }
  }

  /** The floors in index order and the index of the cell the agent is on. */
  datatype World = World(floors: seq<Cell>, location: int)

  /** The number of cells the movement table and the reflex policy are written for. */
  const NumCells: nat := 4

  /** The shape every world built with four floors keeps: four cells, the agent on one of them. */
  predicate Valid(w: World) {
    |w.floors| == NumCells && 0 <= w.location < NumCells
  }

  /** Indexing a floor that does not exist. */
  datatype Error = IndexOutOfRange(index: int)

  datatype Result<T> = Ok(value: T) | Err(error: Error)

  /** Builds a world with `numFloors` clean cells and the agent on cell 0
      (a non-positive count builds no cells, as the construction loop never runs). */
  function NewWorld(numFloors: int): (w: World)
    ensures numFloors <= 0 ==> |w.floors| == 0
    ensures numFloors >= 0 ==> |w.floors| == numFloors
    ensures w.location == 0
    ensures forall i :: 0 <= i < |w.floors| ==> !w.floors[i].dirty && !w.floors[i].dirty2
    ensures numFloors == NumCells ==> Valid(w)
  {
    World(if numFloors <= 0 then [] else seq(numFloors, _ => Cell(false, false)), 0)
  }

  /** Sets the first kind of dirt on floor `index`; an index with no floor is an error. */
  function MarkFloorDirty(w: World, index: int): (r: Result<World>)
    ensures r.Ok? <==> 0 <= index < |w.floors|
    ensures r.Err? ==> r.error == IndexOutOfRange(index)
    ensures r.Ok? ==> r.value.location == w.location && |r.value.floors| == |w.floors|
    ensures r.Ok? ==> r.value.floors[index].dirty && r.value.floors[index].dirty2 == w.floors[index].dirty2
    ensures r.Ok? ==> forall i :: 0 <= i < |w.floors| && i != index ==> r.value.floors[i] == w.floors[i]
  {
    if 0 <= index < |w.floors| then
      Ok(w.(floors := w.floors[index := w.floors[index].(dirty := true)]))
    else
      Err(IndexOutOfRange(index))
  }

  /** Sets the second kind of dirt on floor `index`; an index with no floor is an error. */
  function MarkFloorDirty2(w: World, index: int): (r: Result<World>)
    ensures r.Ok? <==> 0 <= index < |w.floors|
    ensures r.Err? ==> r.error == IndexOutOfRange(index)
    ensures r.Ok? ==> r.value.location == w.location && |r.value.floors| == |w.floors|
    ensures r.Ok? ==> r.value.floors[index].dirty2 && r.value.floors[index].dirty == w.floors[index].dirty
    ensures r.Ok? ==> forall i :: 0 <= i < |w.floors| && i != index ==> r.value.floors[i] == w.floors[i]
  {
    if 0 <= index < |w.floors| then
      Ok(w.(floors := w.floors[index := w.floors[index].(dirty2 := true)]))
    else
      Err(IndexOutOfRange(index))
  }

  /** Row and column of a cell of the 2x2 grid, and the cell at a row and column. */
  function Row(loc: int): int { loc / 2 }
  function Col(loc: int): int { loc % 2 }
  function CellAt(row: int, col: int): int { 2 * row + col }

  /** The location after action `a` from `loc`. The movement actions step to
      the neighbouring cell in their direction when there is one and otherwise
      stay put (the grid does not wrap); every other action, and every
      location outside the grid, stays put. */
  function Move(loc: int, a: Action): (r: int)
    ensures !(0 <= loc < NumCells) || !a.IsMove() ==> r == loc
    ensures 0 <= loc < NumCells ==> 0 <= r < NumCells
  {
    match a
    case Left => if loc == 1 then 0 else if loc == 3 then 2 else loc
    case Right => if loc == 0 then 1 else if loc == 2 then 3 else loc
    case Up => if loc == 2 then 0 else if loc == 3 then 1 else loc
    case Down => if loc == 0 then 2 else if loc == 1 then 3 else loc
    case _ => loc
  }

  /** Read on the grid's rows and columns, each movement action steps one
      column or one row in its direction, and stays put at the edge. */
  lemma MoveIsGridStep(loc: int, a: Action)
    requires 0 <= loc < NumCells
    ensures a == Left ==>
      Move(loc, a) == (if Col(loc) > 0 then CellAt(Row(loc), Col(loc) - 1) else loc)
    ensures a == Right ==>
      Move(loc, a) == (if Col(loc) < 1 then CellAt(Row(loc), Col(loc) + 1) else loc)
    ensures a == Up ==>
      Move(loc, a) == (if Row(loc) > 0 then CellAt(Row(loc) - 1, Col(loc)) else loc)
    ensures a == Down ==>
      Move(loc, a) == (if Row(loc) < 1 then CellAt(Row(loc) + 1, Col(loc)) else loc)
  {
    if loc == 0 {
      assert Row(0) == 0 && Col(0) == 0;
    } else if loc == 1 {
      assert Row(1) == 0 && Col(1) == 1;
    } else if loc == 2 {
      assert Row(2) == 1 && Col(2) == 0;
    } else {
      assert Row(3) == 1 && Col(3) == 1;
    }
  }

  /** Applies action `a` to the world and hands `a` back unchanged.
      `Suck` and `Suck2` clear one kind of dirt on the agent's cell, the
      movement actions change only the location, and anything else is ignored. */
  function Simulate(w: World, a: Action): (r: (World, Action))
    requires Valid(w)
    ensures r.1 == a
    ensures Valid(r.0)
    ensures r.0.location == Move(w.location, a)
    ensures a.IsMove() ==> r.0.floors == w.floors
    ensures a == Suck ==> r.0.floors[w.location] == Cell(false, w.floors[w.location].dirty2)
    ensures a == Suck2 ==> r.0.floors[w.location] == Cell(w.floors[w.location].dirty, false)
    ensures a.Other? ==> r.0 == w
  {
    match a
    case Suck =>
      (w.(floors := w.floors[w.location := w.floors[w.location].(dirty := false)]), a)
    case Suck2 =>
      (w.(floors := w.floors[w.location := w.floors[w.location].(dirty2 := false)]), a)
    case _ =>
      (w.(location := Move(w.location, a)), a)
  }

  /** Flag by flag: only the flag the action clears, on the agent's cell, changes. */
  lemma SimulateFrame(w: World, a: Action)
    requires Valid(w)
    ensures var r := Simulate(w, a).0;
      forall i :: 0 <= i < NumCells ==>
        r.floors[i].dirty == (w.floors[i].dirty && !(a == Suck && i == w.location)) &&
        r.floors[i].dirty2 == (w.floors[i].dirty2 && !(a == Suck2 && i == w.location))
  {
  }

  /** Cleaning is idempotent: a second `Suck` (or `Suck2`) changes nothing. */
  lemma SuckIdempotent(w: World, a: Action)
    requires Valid(w) && (a == Suck || a == Suck2)
    ensures Simulate(Simulate(w, a).0, a).0 == Simulate(w, a).0
  {
    var once := Simulate(w, a).0;
    var twice := Simulate(once, a).0;
    assert forall i :: 0 <= i < NumCells ==> twice.floors[i] == once.floors[i];
  }

  /** Marking the agent's own cell dirty and then cleaning it restores the world,
      provided that kind of dirt was not there before. */
  lemma MarkThenSuckRestores(w: World)
    requires Valid(w)
    ensures !w.floors[w.location].dirty ==>
      MarkFloorDirty(w, w.location).Ok? && Simulate(MarkFloorDirty(w, w.location).value, Suck).0 == w
    ensures !w.floors[w.location].dirty2 ==>
      MarkFloorDirty2(w, w.location).Ok? && Simulate(MarkFloorDirty2(w, w.location).value, Suck2).0 == w
  {
    if !w.floors[w.location].dirty {
      var r := Simulate(MarkFloorDirty(w, w.location).value, Suck).0;
      assert forall i :: 0 <= i < NumCells ==> r.floors[i] == w.floors[i];
    }
    if !w.floors[w.location].dirty2 {
      var r := Simulate(MarkFloorDirty2(w, w.location).value, Suck2).0;
      assert forall i :: 0 <= i < NumCells ==> r.floors[i] == w.floors[i];
    }
  }

  /** Opposite moves undo each other whenever the first one actually moved. */
  lemma OppositeMovesUndo(loc: int)
    requires 0 <= loc < NumCells
    ensures Move(loc, Left) != loc ==> Move(Move(loc, Left), Right) == loc
    ensures Move(loc, Right) != loc ==> Move(Move(loc, Right), Left) == loc
    ensures Move(loc, Up) != loc ==> Move(Move(loc, Up), Down) == loc
    ensures Move(loc, Down) != loc ==> Move(Move(loc, Down), Up) == loc
  {
  }
}
