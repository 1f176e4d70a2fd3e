# Reflex vacuum agent on a 2x2 grid — a Dafny model

This project models the core of a small simulation of a reflex cleaning robot.
The world is a fixed 2x2 grid of floor cells, numbered

    0 1
    2 3

Each cell carries two independent kinds of dirt (`dirty` and `dirty2`), and the
robot stands on one cell (`location`). The world (`World` in the source) is
built with every cell clean and the robot on cell 0. Dirt is injected by
`markFloorDirty` / `markFloordirty2`. `simulate` applies one action:

- `SUCK` and `SUCK2` clear one kind of dirt on the robot's cell;
- `LEFT`, `RIGHT`, `UP` and `DOWN` move along a fixed table that never wraps;
- any other value is ignored.

In every case `simulate` returns the action it was given. The reflex agent
(`reflexVacuumAgent`) is a stateless decision table. It cleans its own cell
first, the first kind of dirt before the second. Otherwise it looks at one other
cell: if that cell is dirty it moves there, and if not it takes a default step.

The project has three modules:

- `Grid` (grid.dfy): cells, actions, the world, construction, the two dirtying
  operations, the movement table and `Simulate`.
- `Reflex` (reflex.dfy): the decision table `Policy`. It is checked against an
  independent description built on the tour 0 → 1 → 3 → 2 → 0. The cell the
  policy checks is the cell *before* the current one on the tour, and the default
  step goes to the cell *after* it.
- `Agent` (agent.dfy): the driver's tick, which is the policy followed by
  `Simulate`, and runs of many ticks. This module proves that, when no new dirt
  arrives, the agent cleans the whole grid within three ticks per dirt flag.

Notes on the model:

- String actions become the datatype `Action`. `Other` stands for any value
  that `simulate` does not recognise.
- A failing `markFloorDirty` is modelled with a `Result`. The source assigns to
  `floors[i].dirty` without a guard. For an index with no floor, the element is
  `undefined` and the assignment throws. The model returns
  `Err(IndexOutOfRange(i))` for that case.
- The source calls the second dirtying operation `markFloordirty2`. The model
  calls it `MarkFloorDirty2`.
- The cell the policy checks is always a grid neighbour of the robot's cell:
  cell 2 for location 0, cell 0 for location 1, cell 3 for location 2 and cell 1
  for location 3.
- One could read the one-cell lookahead as a way for the agent to strand dirt
  for ever. `Agent.CleansEverything` shows that this does not happen while the
  dirt stays fixed. Dirt can be left behind only when new dirt keeps arriving
  between ticks.

## Model

| member | source | states |
|---|---|---|
| Grid.NewWorld | cleaningRobot.js:4-10 | the world holds `numFloors` cells, none for a non-positive count; every cell is clean on both flags; the robot is on cell 0; with four floors the world has the valid shape |
| Grid.MarkFloorDirty | cleaningRobot.js:12-14 | succeeds exactly when the index names a floor, and otherwise fails with IndexOutOfRange for that index; on success it sets `dirty` on that floor, keeps that floor's `dirty2`, and leaves the location and every other floor unchanged |
| Grid.MarkFloorDirty2 | cleaningRobot.js:16-18 | the same as MarkFloorDirty for the second kind of dirt: only `dirty2` of the named floor becomes set |
| Grid.Move | cleaningRobot.js:28-44 | any action other than a move, and any location off the grid, leaves the location unchanged; from a grid cell the result is again a grid cell |
| Grid.MoveIsGridStep | cleaningRobot.js:28-44 | read in rows and columns, LEFT/RIGHT move one column and UP/DOWN move one row, each staying put at the edge of the grid (no wrap-around) |
| Grid.OppositeMovesUndo | cleaningRobot.js:28-44 | whenever LEFT, RIGHT, UP or DOWN actually moves, the opposite move brings the robot back |
| Grid.Simulate | cleaningRobot.js:20-47 | returns the action it was given; keeps the four-cell shape and `0 <= location < 4`; the new location is the movement table's; moves leave all cells unchanged; SUCK clears `dirty` and SUCK2 clears `dirty2` on the robot's cell and keep the other flag; an unrecognised action leaves the whole world unchanged |
| Grid.SimulateFrame | cleaningRobot.js:20-27 | flag by flag, the only change is the flag that SUCK or SUCK2 clears on the robot's cell; every other flag of every cell keeps its value |
| Grid.SuckIdempotent | cleaningRobot.js:22-27 | applying SUCK (or SUCK2) twice gives the same world as applying it once |
| Grid.MarkThenSuckRestores | cleaningRobot.js:12-27 | dirtying the robot's own cell and then sucking that kind of dirt gives back the original world, when that flag was clear before |
| Reflex.Policy | cleaningRobot.js:51-70 | returns SUCK iff the robot's cell has `dirty`; returns SUCK2 iff it has `dirty2` without `dirty`; returns a move iff the cell is clean; that move goes to the cell before the robot on the tour 0→1→3→2→0 when that cell has either flag, and otherwise to the cell after it |
| Reflex.PolicyReadsOnlyTwoCells | cleaningRobot.js:51-69 | two worlds that agree on the location, on the robot's cell and on the one checked cell get the same action |
| Reflex.PolicyMovesAlwaysMove | cleaningRobot.js:28-69 | every move the policy picks changes the location when simulated and leaves every cell unchanged; when the checked cell is dirty the move lands on it |
| Agent.Step | c_cleaningRobot.js:138-149 | one tick keeps the world valid; on a dirty cell it stays put, clears `dirty` on that cell if set and otherwise `dirty2`, leaves every other cell unchanged, and so lowers the dirt count by one; on a clean cell it changes no cell and moves to the checked cell if that cell is dirty, and otherwise to the next cell on the tour |
| Agent.ClearingRemovesOneFlag | cleaningRobot.js:22-27 | SUCK or SUCK2 lowers the grid's dirt count by one when the flag it clears was set, and otherwise leaves the count unchanged |
| Agent.Run | c_cleaningRobot.js:138-151 | any number of ticks keeps the world valid and never raises the dirt count |
| Agent.CleanWorldFollowsTour | cleaningRobot.js:54-69 | in a world with no dirt, every tick is exactly the default step to the next cell on the tour |
| Agent.CleanWorldTour | cleaningRobot.js:54-69 | from a clean world with the robot on cell 0, for example a freshly built one, the robot is on cells 1, 3 and 2 after one, two and three ticks, and after four ticks the world is exactly as it started |
| Agent.ProgressWithinThree | cleaningRobot.js:51-69 | whenever any dirt is present, three ticks remove at least one flag |
| Agent.CleansEverything | cleaningRobot.js:51-69 | from any valid world, three ticks per dirt flag leave every cell clean when no new dirt arrives |
| Agent.FreshWorldScenarios | cleaningRobot.js:51-57 | in a fresh world with `dirty` on cell 0 the agent picks SUCK, and the tick clears the flag and keeps the robot on cell 0; with `dirty` on cell 2 it picks DOWN, and the tick takes the robot to cell 2 |

## Left out

- Rendering, the animation timer and the random click handler are not modelled
  (c_cleaningRobot.js). They are presentation and randomised stimulus. The only
  driver behaviour kept is the per-tick "decide, then simulate" step. The random
  dirt the click handler injects is represented by calling MarkFloorDirty or
  MarkFloorDirty2 with any index the caller chooses.
- Grid.Simulate, Reflex.Policy and Agent.Step require a world of exactly four
  cells with the robot on one of them. The source builds other sizes, but its
  movement table and decision table are written for four cells only.
- Reflex.Policy: a location outside 0..3 is excluded by the precondition. In a
  four-cell world the source reads `.dirty` of a floor that does not exist there
  and throws a TypeError; only a world with more than four cells reaches the end
  of its `if` chain and returns `undefined`.
- Actions are a datatype, not strings. The `switch` in `simulate` compares
  actions with strict equality, so exactly the six recognised strings act and
  every other value is `Other`. The loose `==` on locations (cleaningRobot.js
  lines 29-43 and 54-66) is modelled as integer equality.
- The source mutates one shared world object. The model passes immutable world
  values instead. Observers read the same state between ticks, so this changes
  nothing about the states reached.
