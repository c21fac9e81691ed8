# Rush Hour level generator: board, solver and serialiser

This project models the Python level generator of a Rush Hour style puzzle
game, in Dafny:

- the board (`generator/board.py`): vehicles on a square grid and the board
  operations `add_vehicle`, `get_state_hash`, `is_solved`,
  `get_occupied_cells`, `get_possible_moves` and `move`;
- the breadth-first solver (`generator/solver.py`): `solve_board`, with its
  visited set of state hashes and its depth cap `MAX_DEPTH = 100`, and the
  wrapper `get_moves_count`;
- the serialiser `convert_to_game_format` (`generator/generator.py`), which
  turns a generated level into the game's level record.

Files:

- `wrappers.dfy` (`Wrappers`): the `Option` type.
- `strings.dfy` (`Strings`): Python's `str` ordering, `sorted()` on
  distinct strings, and the decimal rendering `f"{n}"`.
- `board.dfy` (`RushHour`): the vehicle value, the board value
  `BoardState`, and the class `Board`.
  - `BoardState` holds the size, the id → vehicle dictionary and the
    dictionary's insertion order.
  - Pure functions on `BoardState` specify each operation.
  - The methods of `Board` follow the source's loops and are proved equal to
    those functions.
- `solver.dfy` (`Solver`): `SolveBoard` and `GetMovesCount` as methods over
  `Board` objects.
  - Ghost bookkeeping records, for every visited hash, its board and the
    depth it was first reached at.
  - The loop invariant `Search` states that the queue is ordered by depth
    and that every dequeued board below the cap has been expanded.
  - From these, the method's contract states:
    - a returned path is valid;
    - the path solves the board;
    - no valid solving path is shorter;
    - `(False, 0, [])` means no valid path of at most `MAX_DEPTH` moves
      solves the board.
- `generator.dfy` (`Generator`): `ConvertToGameFormat` as a loop, proved
  equal to the function `GameFormat`, plus lemmas on the shape, numbering
  and distinctness of the produced ids.

Where the code and the game's own description differ, the model follows
the code. `is_solved` only tests `target.col + target.length == size`. It
looks at neither the target's row nor its orientation, although its comment
and the game's win rule ask for a horizontal target on the exit row. The
orientation test is `orientation == 'horizontal'`; every other string
counts as vertical.

## Model

| member | source | states |
|---|---|---|
| RushHour.Occupies | generator/board.py:10-18 | the cells collected are exactly the vehicle's footprint: `length` cells from its anchor along its row when horizontal, along its column otherwise |
| RushHour.FootprintSize | generator/board.py:10-18 | a vehicle covers exactly `length` distinct cells, and none when `length <= 0` |
| RushHour.Copy | generator/board.py:20-21 | the copy equals the original in id, orientation, length, row and col |
| RushHour.Board.constructor | generator/board.py:27-29 | a new board has the given size (6 unless another is given), no vehicles, and satisfies the board invariant |
| RushHour.Board.AddVehicle | generator/board.py:32-45 | returns true exactly when the vehicle overlaps no vehicle already on the board and lies in the grid; only then it is stored under its id; otherwise nothing changes; the board invariant is kept |
| RushHour.AddStatePreserves | generator/board.py:32-45 | add_vehicle keeps every id mapped to its own vehicle, the keys listed once in insertion order, every vehicle inside the grid and no two overlapping |
| RushHour.Board.GetStateHash | generator/board.py:47-55 | the hash is the (id, row, col) list of all vehicles in sorted id order |
| RushHour.StateHashShape | generator/board.py:47-55 | the hash has one entry per vehicle, its ids strictly ascending, each entry the id's current row and col, every vehicle present |
| RushHour.StateHashEqual | generator/board.py:47-55 | two boards with the same ids have the same hash exactly when every vehicle has the same row and col on both, whatever order the ids were added in |
| Strings.SortAscending | generator/board.py:52 | `sorted()` of distinct keys is strictly ascending |
| Strings.SortMembers | generator/board.py:52 | `sorted()` keeps exactly the keys it was given |
| Strings.AscendingUnique | generator/board.py:52 | two ascending lists with the same elements are equal, so the sorted keys do not depend on insertion order |
| RushHour.Solved | generator/board.py:57-68 | true exactly when "target" is a key and its col + length equals size; a board without a target is never solved; neither row nor orientation is looked at |
| RushHour.SolvedIgnoresRowAndOrientation | generator/board.py:57-68 | giving the target another row or another orientation never changes whether the board is solved |
| RushHour.OtherMoveKeepsSolved | generator/board.py:57-68 | moving a vehicle other than the target never changes whether the board is solved |
| RushHour.ClearRowSolves | generator/board.py:57-68 | a horizontal target whose cells up to the right wall are free has that slide listed, and the slide solves the board |
| RushHour.Board.GetOccupiedCells | generator/board.py:70-74 | the result is the union of every vehicle's footprint |
| RushHour.Board.GetPossibleMoves | generator/board.py:76-130 | the moves are, vehicle by vehicle in insertion order, its forward slides 1..F and then its backward slides -1..-B |
| RushHour.Board.VehicleSteps | generator/board.py:81-128 | one vehicle's share of the moves: its forward slides 1..F and then its backward slides -1..-B, computed from its own cells and the occupied set |
| RushHour.Board.ForwardSteps | generator/board.py:86-106 | lists steps 1, 2, ... until the cell that many past the front edge is at or beyond size, or is covered by another vehicle |
| RushHour.Board.BackwardSteps | generator/board.py:109-128 | lists -1, -2, ... until the cell that many behind the anchor is below 0, or is covered by another vehicle |
| RushHour.PossibleMovesChar | generator/board.py:76-130 | (id, k) is listed exactly when id is a vehicle and, for k >= 1 (or -k >= 1) below size, every count 1..k passes the forward (or backward) test |
| RushHour.PossibleMovesBounded | generator/board.py:86-128 | every listed move slides by at least 1 and at most size - 1 cells |
| RushHour.SlideFits | generator/board.py:86-128 | a listed slide leaves the vehicle inside the grid and clear of every other vehicle |
| RushHour.Board.Move | generator/board.py:132-144 | returns a fresh valid board built by add_vehicle from copies of the vehicles in insertion order, v_id shifted along its axis; the receiver is not changed |
| RushHour.MoveStateWellFormed | generator/board.py:132-144 | the board move() returns keeps the board invariant for any id and step count |
| RushHour.LegalMove | generator/board.py:132-144 | for a listed move, move() keeps every id and key order and changes only the named vehicle, by exactly `steps` along its axis |
| Solver.FamilyHashInjective | generator/board.py:47-55 | among boards reachable from one start, the state hash determines the board |
| Solver.ReplayFamily | generator/board.py:132-144 | a valid path never changes ids, orientations, lengths or key order |
| Solver.SearchStart | generator/solver.py:10-18 | the search starts with the start board alone, visited at depth 0 |
| Solver.Search | generator/solver.py:10-38 | the loop invariant: every visited hash is known with its board and depth; the queue holds boards in depth order, each replaying its own path; every visited hash is exactly one of closed, open or queued, and none is queued twice; every closed hash below the cap is expanded |
| Solver.SearchPop | generator/solver.py:20-21 | dequeuing the first entry keeps the queue ordered by depth, makes its hash the open one, apart from the closed and the still-queued hashes, and moves the frontier to its depth |
| Solver.SearchClose | generator/solver.py:23-24 | an entry at the depth cap, or one whose listed moves have all been taken, is closed |
| Solver.SearchSkip | generator/solver.py:32 | a move whose hash is already visited needs nothing more |
| Solver.SearchInsert | generator/solver.py:32-38 | a new hash is visited and its board enqueued one move deeper, keeping the queue ordered by depth and keeping every queued hash queued once and apart from the closed and open ones |
| Solver.OnceQueuedPush | generator/solver.py:32-38 | enqueuing a hash that is not yet queued leaves no hash queued twice |
| Solver.OnceQueuedPop | generator/solver.py:20-21 | after popleft, the dequeued hash is no longer in the queue and no remaining hash is queued twice |
| Solver.CloseApart | generator/solver.py:20-38 | closing the open hash keeps the closed, open and queued hashes disjoint |
| Solver.SearchFound | generator/solver.py:33-35 | the extended path is valid, has moves + 1 steps, ends at the board move() returns, and no valid solving path is shorter |
| Solver.SearchExhausted | generator/solver.py:20-40 | once the queue is empty, no valid path of at most MAX_DEPTH moves solves the board |
| Solver.ReachVisited | generator/solver.py:26-38 | every board a valid path within the expanded depth reaches is visited, no later than the path's length |
| Solver.NoSolutionWithin | generator/solver.py:26-40 | no valid path within the expanded depth solves the board |
| Solver.KnownInUniverse | generator/solver.py:20-38 | every visited hash lies in a finite set fixed by the start board, so the loop ends |
| Solver.Successor | generator/solver.py:29-30 | the next board is the move's result and the hash is its state hash; the queued boards are untouched |
| Solver.TryMove | generator/solver.py:28-38 | one pass of the inner loop either returns a valid, minimal solving path or keeps the search invariant with one more move dealt with |
| Solver.ExpandBoard | generator/solver.py:26-38 | expanding a board below the cap either returns a valid minimal solving path or leaves every listed move dealt with and the board closed |
| Solver.SolveBoard | generator/solver.py:5-40 | a start board that is already solved gives (True, 0, []); a reported solution is a valid path solving the board in the minimal number of moves, at most MAX_DEPTH; (False, 0, []) means no valid path of at most MAX_DEPTH moves solves it |
| Solver.GetMovesCount | generator/solver.py:42-45 | returns -1 exactly when no valid path of at most MAX_DEPTH moves solves the board, and otherwise the minimal number of moves of a solving path |
| Generator.ConvertToGameFormat | generator/generator.py:65-104 | the loop builds exactly GameFormat's record; the result is None exactly when there is no 'target' key (a KeyError in the source) |
| Generator.GameFormatShape | generator/generator.py:70-104 | the record carries level_id, "Generated" and the difficulty score; the first entry is the target with orientation "horizontal", length 2, its row and col and is_target; one entry per vehicle; later entries are numbered 1, 2, ... in order and none is marked as the target |
| Generator.GameFormatVehicle | generator/generator.py:79-97 | each non-target vehicle gets the entry numbered by its place among the non-target keys, named "car" + number when its length is 2 and "truck" + number otherwise, with orientation, length, row and col copied; later vehicles get later entries |
| Generator.GameFormatIdsDistinct | generator/generator.py:79-90 | the ids of one level's entries are pairwise distinct |
| Generator.NonTargetsOnce | generator/generator.py:80-81 | with 'target' listed once, the loop emits an entry for every other key |
| Generator.EntriesLength | generator/generator.py:80-97 | the loop appends one entry per non-target key |
| Generator.NumberedDistinct | generator/generator.py:88-89 | entries with different numbers have different ids |
| Strings.NatToStringInjective | generator/generator.py:89 | different counters render as different decimal strings |

## Left out

- `generate_random_level` (generator/generator.py:14-63) is left out: it depends on `random`.
- `main` (generator/generator.py:106-132) is left out: it is argument parsing, printing and JSON file output.
- The `sys.path` setup (generator/generator.py:9) is not modelled.
- `Vehicle.__repr__` and `Board.__str__` (generator/board.py:23-24, 146-153) are debug text only.
- The browser game engine is not part of this model.
- Python object identity is not modelled.
  - Vehicles are values: `add_vehicle` stores the object it is given, so whoever made it could still change it afterwards.
  - The solver never does that, and `move()` stores fresh copies.
- The deque is modelled as a sequence of (board, moves, path) triples and `visited` as a set of hashes.
- The state hash is a sequence of (id, row, col) triples rather than a tuple.
- Python's `sorted()` is modelled by an insertion sort under code-point order, since only its result is observable.
- In `get_possible_moves`, the inner `for i in range(vehicle.length)` is not a loop in the model.
  - Every pass of that loop computes the same cell, so it is modelled as one test.
  - That test applies only when `length >= 1`; with no passes, nothing is blocked.
- `RushHour.Board.VehicleSteps` is the body of `get_possible_moves`' outer loop, taken out as a method; the statements and their order are the same.
- `Solver.TryMove`, `Solver.ExpandBoard` and `Solver.Successor` split the loop body of `solve_board` into separate methods. The source has one loop nest; the statements and their order are the same.
- `Generator.ConvertToGameFormat` flattens the nested `position` dictionary into `row` and `col`.
  - The `is_target` key, present only on the target's entry, becomes a boolean that is false elsewhere.
  - `level_id` is an integer, as `main` passes it.
  - JSON encoding is not modelled.
- `Generator.ConvertToGameFormat` requires `DictShaped`: the iteration order lists every key of the dictionary exactly once, as a Python dictionary always does.
