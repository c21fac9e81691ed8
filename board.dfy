/**
 * The Rush Hour board of the level generator (generator/board.py): vehicles are
 * rigid runs of cells on a square grid, a board maps vehicle ids to vehicles,
 * and the solver explores boards through `get_possible_moves` and `move`.
 *
 * The value `BoardState` is what a board object holds; the pure functions on
 * it are the specification, and the class `Board` holds the loops of the
 * source, each proved equal to its specification function.
 */
module RushHour {
  import opened Strings

  type Cell = (int, int)

  /** A vehicle: `length` cells from (row, col) along its row when the
      orientation is "horizontal", and along its column for any other value. */
  datatype Vehicle = Vehicle(id: string, orientation: string, length: int, row: int, col: int)

  predicate IsHorizontal(v: Vehicle)
  {
    v.orientation == "horizontal"
  }

  /** The cell `i` places from v's anchor along v's axis (negative i: behind it). */
  function CellAt(v: Vehicle, i: int): Cell
  {
    if IsHorizontal(v) then (v.row, v.col + i) else (v.row + i, v.col)
  }

  /** The cells v covers. */
  function Footprint(v: Vehicle): set<Cell>
  {
    set i | 0 <= i < v.length :: CellAt(v, i)
  }

  /** Vehicle.occupies: collects the footprint one cell per pass. */
  method Occupies(v: Vehicle) returns (cells: set<Cell>)
    ensures cells == Footprint(v)
  {
    cells := {};
    var i := 0;
    while i < v.length
      invariant 0 <= i && (i <= v.length || i == 0)
      invariant cells == set j | 0 <= j < i :: CellAt(v, j)
    {
      cells := cells + {CellAt(v, i)};
      i := i + 1;
    }
  }

  function FootprintUpTo(v: Vehicle, n: int): set<Cell>
  {
    set i | 0 <= i < n :: CellAt(v, i)
  }

  lemma {:induction false} FootprintUpToSize(v: Vehicle, n: nat)
    ensures |FootprintUpTo(v, n)| == n
  {
    if n > 0 {
      FootprintUpToSize(v, n - 1);
      assert FootprintUpTo(v, n) == FootprintUpTo(v, n - 1) + {CellAt(v, n - 1)};
      assert CellAt(v, n - 1) !in FootprintUpTo(v, n - 1);
    }
  }

  /** A vehicle covers exactly `length` cells (none when length <= 0). */
  lemma FootprintSize(v: Vehicle)
    ensures |Footprint(v)| == if v.length <= 0 then 0 else v.length
  {
    if v.length <= 0 {
      assert Footprint(v) == {};
    } else {
      assert Footprint(v) == FootprintUpTo(v, v.length);
      FootprintUpToSize(v, v.length);
    }
  }

  /** Vehicle.copy: a new vehicle equal to v in every field. */
  function Copy(v: Vehicle): (c: Vehicle)
    ensures c == v
  {
    Vehicle(v.id, v.orientation, v.length, v.row, v.col)
  }

  predicate InGrid(size: int, c: Cell)
  {
    0 <= c.0 < size && 0 <= c.1 < size
  }

  predicate InBounds(size: int, v: Vehicle)
  {
    forall c :: c in Footprint(v) ==> InGrid(size, c)
  }

  /** What a board object holds: its side, the id -> vehicle dictionary and
      that dictionary's iteration (insertion) order. */
  datatype BoardState = BoardState(size: int, vehicles: map<string, Vehicle>, order: seq<string>)

  function Empty(size: int): BoardState
  {
    BoardState(size, map[], [])
  }

  /** The dictionary shape: `order` lists each key once, and every vehicle
      is stored under its own id. */
  ghost predicate Keyed(s: BoardState)
  {
    && Distinct(s.order)
    && (forall id :: id in s.vehicles <==> id in s.order)
    && (forall id :: id in s.vehicles ==> s.vehicles[id].id == id)
  }

  /** The board invariant: every vehicle inside the grid, no two overlapping. */
  ghost predicate Placed(s: BoardState)
  {
    && (forall id :: id in s.vehicles ==> InBounds(s.size, s.vehicles[id]))
    && (forall a, b :: a in s.vehicles && b in s.vehicles && a != b ==>
          Footprint(s.vehicles[a]) !! Footprint(s.vehicles[b]))
  }

  ghost predicate WellFormed(s: BoardState)
  {
    Keyed(s) && Placed(s)
  }

  /** Whether add_vehicle accepts v: it overlaps no vehicle already on the
      board (including one with its own id) and lies inside the grid. */
  predicate Accepts(s: BoardState, v: Vehicle)
  {
    && (forall id :: id in s.vehicles ==> Footprint(v) !! Footprint(s.vehicles[id]))
    && InBounds(s.size, v)
  }

  /** Board.add_vehicle on the value: the new board and the returned flag.
      A dictionary assignment to an existing key keeps that key's position. */
  function AddState(s: BoardState, v: Vehicle): (BoardState, bool)
  {
    if !Accepts(s, v) then (s, false)
    else
      var order := if v.id in s.vehicles then s.order else s.order + [v.id];
      (BoardState(s.size, s.vehicles[v.id := v], order), true)
  }

  /** add_vehicle never breaks the board invariant, whatever it is given. */
  lemma AddStatePreserves(s: BoardState, v: Vehicle)
    requires WellFormed(s)
    ensures WellFormed(AddState(s, v).0)
  {
    if Accepts(s, v) {
      var r := AddState(s, v).0;
      if v.id !in s.vehicles {
        assert v.id !in s.order;
        forall i, j | 0 <= i < j < |r.order| ensures r.order[i] != r.order[j] {
          if j == |s.order| {
            assert r.order[i] == s.order[i];
          }
        }
      }
      forall a, b | a in r.vehicles && b in r.vehicles && a != b
        ensures Footprint(r.vehicles[a]) !! Footprint(r.vehicles[b])
      {
        if a == v.id {
          assert b in s.vehicles;
        } else if b == v.id {
          assert a in s.vehicles;
        }
      }
    }
  }

  /** Every cell some vehicle covers (Board.get_occupied_cells). */
  function Occupied(s: BoardState): set<Cell>
  {
    set id, c | id in s.vehicles && c in Footprint(s.vehicles[id]) :: c
  }

  /** A move as get_possible_moves lists it: (vehicle id, signed number of cells). */
  datatype Step = Step(id: string, steps: int)

  /** The cell a forward slide by `steps` must enter: `steps` past the front edge. */
  function FrontCell(v: Vehicle, steps: int): Cell
  {
    CellAt(v, v.length - 1 + steps)
  }

  /** The cell a backward slide by `steps` must enter: `steps` behind the anchor. */
  function BackCell(v: Vehicle, steps: int): Cell
  {
    CellAt(v, -steps)
  }

  /** The forward test of get_possible_moves for one step count. The source
      repeats the same test once per cell of the vehicle, so a vehicle of
      length <= 0 is never blocked. Only the upper bounds are tested. */
  predicate FwdBlocked(s: BoardState, v: Vehicle, steps: int)
  {
    && v.length >= 1
    && var c := FrontCell(v, steps);
       c.0 >= s.size || c.1 >= s.size || (c in Occupied(s) && c !in Footprint(v))
  }

  /** The backward test of get_possible_moves; only the lower bounds are tested. */
  predicate BwdBlocked(s: BoardState, v: Vehicle, steps: int)
  {
    && v.length >= 1
    && var c := BackCell(v, steps);
       c.0 < 0 || c.1 < 0 || (c in Occupied(s) && c !in Footprint(v))
  }

  /** How many step counts k, k+1, ... (all below size) pass the forward test
      before the first that fails. */
  function FwdCount(s: BoardState, v: Vehicle, k: int): nat
    decreases s.size - k
  {
    if k >= s.size || FwdBlocked(s, v, k) then 0 else 1 + FwdCount(s, v, k + 1)
  }

  function BwdCount(s: BoardState, v: Vehicle, k: int): nat
    decreases s.size - k
  {
    if k >= s.size || BwdBlocked(s, v, k) then 0 else 1 + BwdCount(s, v, k + 1)
  }

  /** The moves listed for one vehicle: forward 1..F, then backward -1..-B. */
  function VehicleMoves(s: BoardState, id: string, v: Vehicle): seq<Step>
  {
    seq(FwdCount(s, v, 1), i => Step(id, i + 1)) + seq(BwdCount(s, v, 1), i => Step(id, -(i + 1)))
  }

  function MovesOf(s: BoardState, ids: seq<string>): seq<Step>
  {
    if ids == [] then []
    else
      var id := ids[|ids| - 1];
      MovesOf(s, ids[..|ids| - 1]) + (if id in s.vehicles then VehicleMoves(s, id, s.vehicles[id]) else [])
  }

  lemma MovesOfNext(s: BoardState, ids: seq<string>, k: int)
    requires 0 <= k < |ids| && ids[k] in s.vehicles
    ensures MovesOf(s, ids[..k + 1]) == MovesOf(s, ids[..k]) + VehicleMoves(s, ids[k], s.vehicles[ids[k]])
  {
    assert ids[..k + 1][..k] == ids[..k];
  }

  /** Board.get_possible_moves: the moves of every vehicle, in dictionary order. */
  function PossibleMoves(s: BoardState): seq<Step>
  {
    MovesOf(s, s.order)
  }

  /** The step counts k..j all pass the forward test exactly when j is within
      the run counted by FwdCount from k. */
  lemma {:induction false} FwdCountFrom(s: BoardState, v: Vehicle, k: int, j: int)
    requires k <= j
    ensures j - k < FwdCount(s, v, k) <==> j < s.size && forall i :: k <= i <= j ==> !FwdBlocked(s, v, i)
    decreases s.size - k
  {
    if k < s.size && !FwdBlocked(s, v, k) && k < j {
      FwdCountFrom(s, v, k + 1, j);
    }
  }

  lemma {:induction false} BwdCountFrom(s: BoardState, v: Vehicle, k: int, j: int)
    requires k <= j
    ensures j - k < BwdCount(s, v, k) <==> j < s.size && forall i :: k <= i <= j ==> !BwdBlocked(s, v, i)
    decreases s.size - k
  {
    if k < s.size && !BwdBlocked(s, v, k) && k < j {
      BwdCountFrom(s, v, k + 1, j);
    }
  }

  /** Whether (id, steps) is one of the moves get_possible_moves lists for
      vehicle `id`: forward by 1..FwdCount or backward by 1..BwdCount. */
  predicate Listed(s: BoardState, st: Step)
  {
    && st.id in s.vehicles
    && var v := s.vehicles[st.id];
       (1 <= st.steps <= FwdCount(s, v, 1)) || (1 <= -st.steps <= BwdCount(s, v, 1))
  }

  lemma {:induction false} MovesOfMember(s: BoardState, ids: seq<string>, st: Step)
    ensures st in MovesOf(s, ids) <==> st.id in ids && Listed(s, st)
  {
    if ids != [] {
      var id := ids[|ids| - 1];
      var init := ids[..|ids| - 1];
      MovesOfMember(s, init, st);
      assert ids == init + [id];
      if id in s.vehicles {
        var v := s.vehicles[id];
        var f := seq(FwdCount(s, v, 1), i => Step(id, i + 1));
        var b := seq(BwdCount(s, v, 1), i => Step(id, -(i + 1)));
        assert VehicleMoves(s, id, v) == f + b;
        if st.id == id && Listed(s, st) {
          if 1 <= st.steps <= FwdCount(s, v, 1) {
            assert f[st.steps - 1] == st;
          } else {
            assert b[-st.steps - 1] == st;
          }
        }
      }
    }
  }

  /** The moves listed for a vehicle are exactly the forward counts 1..k
      whose front cells are all clear and inside the grid, and the
      backward counts likewise, each at most size - 1 cells. */
  lemma PossibleMovesChar(s: BoardState, st: Step)
    requires Keyed(s)
    ensures st in PossibleMoves(s) <==>
              && st.id in s.vehicles
              && var v := s.vehicles[st.id];
                 || (1 <= st.steps < s.size && forall i :: 1 <= i <= st.steps ==> !FwdBlocked(s, v, i))
                 || (1 <= -st.steps < s.size && forall i :: 1 <= i <= -st.steps ==> !BwdBlocked(s, v, i))
  {
    MovesOfMember(s, s.order, st);
    if st.id in s.vehicles {
      var v := s.vehicles[st.id];
      if st.steps >= 1 {
        FwdCountFrom(s, v, 1, st.steps);
      }
      if st.steps <= -1 {
        BwdCountFrom(s, v, 1, -st.steps);
      }
    }
  }

  /** A listed move slides by at least one and at most size - 1 cells. */
  lemma PossibleMovesBounded(s: BoardState, st: Step)
    requires Keyed(s) && st in PossibleMoves(s)
    ensures st.id in s.vehicles
    ensures 1 <= st.steps < s.size || 1 <= -st.steps < s.size
  {
    PossibleMovesChar(s, st);
  }

  /** The vehicle slid by `steps` along its axis. */
  function Moved(v: Vehicle, steps: int): Vehicle
  {
    if IsHorizontal(v) then v.(col := v.col + steps) else v.(row := v.row + steps)
  }

  /** The copy that move() adds for key `id`: shifted when it is `vId`. */
  function Relocate(s: BoardState, vId: string, steps: int, id: string): Vehicle
    requires id in s.vehicles
  {
    var c := Copy(s.vehicles[id]);
    if id == vId then Moved(c, steps) else c
  }

  function Relocated(s: BoardState, vId: string, steps: int, ids: seq<string>): seq<Vehicle>
    requires forall id :: id in ids ==> id in s.vehicles
  {
    seq(|ids|, i requires 0 <= i < |ids| => Relocate(s, vId, steps, ids[i]))
  }

  /** add_vehicle applied to each of `vs` in turn, ignoring the flags. */
  function AddAll(s: BoardState, vs: seq<Vehicle>): BoardState
  {
    if vs == [] then s else AddState(AddAll(s, vs[..|vs| - 1]), vs[|vs| - 1]).0
  }

  lemma AddAllNext(s: BoardState, vs: seq<Vehicle>, k: int)
    requires 0 <= k < |vs|
    ensures AddAll(s, vs[..k + 1]) == AddState(AddAll(s, vs[..k]), vs[k]).0
  {
    assert vs[..k + 1][..k] == vs[..k];
  }

  /** Board.move: a fresh board of the same size filled by add_vehicle with
      the copies of the vehicles, in dictionary order, `vId` shifted. */
  function MoveState(s: BoardState, vId: string, steps: int): BoardState
    requires Keyed(s)
  {
    AddAll(Empty(s.size), Relocated(s, vId, steps, s.order))
  }

  /** The board with only vehicle `vId` slid by `steps`. */
  function Shifted(s: BoardState, vId: string, steps: int): BoardState
    requires vId in s.vehicles
  {
    s.(vehicles := s.vehicles[vId := Moved(s.vehicles[vId], steps)])
  }

  /** The board invariant holds for every board move() returns. */
  lemma {:induction false} AddAllPreserves(s: BoardState, vs: seq<Vehicle>)
    requires WellFormed(s)
    ensures WellFormed(AddAll(s, vs))
    ensures AddAll(s, vs).size == s.size
  {
    if vs != [] {
      AddAllPreserves(s, vs[..|vs| - 1]);
      AddStatePreserves(AddAll(s, vs[..|vs| - 1]), vs[|vs| - 1]);
    }
  }

  /** Every board move() returns keeps the invariant, even for a move that
      get_possible_moves would not list (add_vehicle then drops vehicles). */
  lemma MoveStateWellFormed(s: BoardState, vId: string, steps: int)
    requires Keyed(s)
    ensures WellFormed(MoveState(s, vId, steps))
    ensures MoveState(s, vId, steps).size == s.size
  {
    AddAllPreserves(Empty(s.size), Relocated(s, vId, steps, s.order));
  }

  /** Vehicles with distinct ids, inside the grid and pairwise apart. */
  ghost predicate Fits(size: int, vs: seq<Vehicle>)
  {
    && (forall i, j :: 0 <= i < j < |vs| ==> vs[i].id != vs[j].id)
    && (forall i :: 0 <= i < |vs| ==> InBounds(size, vs[i]))
    && (forall i, j :: 0 <= i < |vs| && 0 <= j < |vs| && i != j ==> Footprint(vs[i]) !! Footprint(vs[j]))
  }

  function Ids(vs: seq<Vehicle>): (r: seq<string>)
    ensures |r| == |vs| && forall i :: 0 <= i < |vs| ==> r[i] == vs[i].id
  {
    seq(|vs|, i requires 0 <= i < |vs| => vs[i].id)
  }

  /** The board built so far by adding vehicles that fit: each stored under its id. */
  ghost predicate Holds(r: BoardState, vs: seq<Vehicle>)
  {
    && r.order == Ids(vs)
    && (forall id :: id in r.vehicles <==> id in Ids(vs))
    && (forall i :: 0 <= i < |vs| ==> vs[i].id in r.vehicles && r.vehicles[vs[i].id] == vs[i])
  }

  lemma AcceptsNext(size: int, vs: seq<Vehicle>, p: BoardState)
    requires Fits(size, vs) && vs != [] && p.size == size
    requires Holds(p, vs[..|vs| - 1])
    ensures Accepts(p, vs[|vs| - 1]) && vs[|vs| - 1].id !in p.vehicles
  {
    var init := vs[..|vs| - 1];
    var v := vs[|vs| - 1];
    forall id | id in p.vehicles ensures Footprint(v) !! Footprint(p.vehicles[id]) && id != v.id {
      var i :| 0 <= i < |init| && Ids(init)[i] == id;
      assert p.vehicles[id] == vs[i];
      assert vs[i].id != vs[|vs| - 1].id;
    }
    assert InBounds(size, vs[|vs| - 1]);
  }

  /** Adding vehicles that fit to an empty board accepts every one of them. */
  lemma {:induction false} AddAllFits(size: int, vs: seq<Vehicle>)
    requires Fits(size, vs)
    ensures AddAll(Empty(size), vs).size == size
    ensures Holds(AddAll(Empty(size), vs), vs)
  {
    if vs != [] {
      var init := vs[..|vs| - 1];
      var v := vs[|vs| - 1];
      assert Fits(size, init);
      AddAllFits(size, init);
      var p := AddAll(Empty(size), init);
      AcceptsNext(size, vs, p);
      var r := AddAll(Empty(size), vs);
      assert r == AddState(p, v).0;
      assert Ids(vs) == Ids(init) + [v.id];
      forall i | 0 <= i < |vs| ensures vs[i].id in r.vehicles && r.vehicles[vs[i].id] == vs[i] {
        if i < |vs| - 1 {
          assert init[i] == vs[i];
        }
      }
    }
  }

  /** Cell i of a vehicle slid by k is cell i + k of the original. */
  lemma MovedCell(v: Vehicle, k: int, i: int)
    ensures CellAt(Moved(v, k), i) == CellAt(v, i + k)
    ensures Moved(v, k).length == v.length && Moved(v, k).id == v.id
  {
  }

  /** A cell that passes the tests of get_possible_moves and is not one of
      V's own cells is covered by no vehicle. */
  lemma FreeCell(s: BoardState, id: string, c: Cell)
    requires WellFormed(s) && id in s.vehicles
    requires !(c in Occupied(s) && c !in Footprint(s.vehicles[id]))
    ensures forall other :: other in s.vehicles && other != id ==> c !in Footprint(s.vehicles[other])
  {
    forall other | other in s.vehicles && other != id
      ensures c !in Footprint(s.vehicles[other])
    {
      assert c in Footprint(s.vehicles[other]) ==> c in Occupied(s);
    }
  }

  /** A slide by a forward or backward count that get_possible_moves lists
      puts the vehicle inside the grid and clear of every other vehicle. */
  lemma SlideFits(s: BoardState, id: string, k: int)
    requires WellFormed(s) && Step(id, k) in PossibleMoves(s)
    ensures id in s.vehicles
    ensures InBounds(s.size, Moved(s.vehicles[id], k))
    ensures forall other :: other in s.vehicles && other != id ==>
              Footprint(Moved(s.vehicles[id], k)) !! Footprint(s.vehicles[other])
  {
    PossibleMovesChar(s, Step(id, k));
    var v := s.vehicles[id];
    var m := Moved(v, k);
    if v.length >= 1 {
      assert CellAt(v, 0) in Footprint(v);
      assert CellAt(v, v.length - 1) in Footprint(v);
      assert InGrid(s.size, CellAt(v, 0)) && InGrid(s.size, CellAt(v, v.length - 1));
    }
    forall c | c in Footprint(m)
      ensures InGrid(s.size, c)
      ensures forall other :: other in s.vehicles && other != id ==> c !in Footprint(s.vehicles[other])
    {
      var i :| 0 <= i < m.length && c == CellAt(m, i);
      MovedCell(v, k, i);
      if 0 <= i + k < v.length {
        assert c in Footprint(v);
        FreeCell(s, id, c);
      } else if i + k >= v.length {
        var j := i + k - v.length + 1;
        assert 1 <= j <= k;
        assert c == FrontCell(v, j);
        assert !FwdBlocked(s, v, j);
        FreeCell(s, id, c);
      } else {
        var j := -(i + k);
        assert 1 <= j <= -k;
        assert c == BackCell(v, j);
        assert !BwdBlocked(s, v, j);
        FreeCell(s, id, c);
      }
    }
  }

  /** The copies move() adds for a listed move fit on the empty board. */
  lemma RelocatedFits(s: BoardState, st: Step)
    requires WellFormed(s) && st in PossibleMoves(s)
    ensures Fits(s.size, Relocated(s, st.id, st.steps, s.order))
    ensures Ids(Relocated(s, st.id, st.steps, s.order)) == s.order
  {
    var vs := Relocated(s, st.id, st.steps, s.order);
    SlideFits(s, st.id, st.steps);
    forall i | 0 <= i < |vs|
      ensures vs[i].id == s.order[i]
      ensures InBounds(s.size, vs[i])
      ensures vs[i] == if s.order[i] == st.id then Moved(s.vehicles[st.id], st.steps) else s.vehicles[s.order[i]]
    {
      assert s.order[i] in s.vehicles;
    }
    forall i, j | 0 <= i < |vs| && 0 <= j < |vs| && i != j
      ensures Footprint(vs[i]) !! Footprint(vs[j])
    {
      assert s.order[i] != s.order[j];
      assert s.order[i] in s.vehicles && s.order[j] in s.vehicles;
    }
  }

  /** For a move get_possible_moves lists, move() keeps every vehicle and
      every id in place and slides only the named vehicle, and the new board
      keeps the invariant. */
  lemma LegalMove(s: BoardState, st: Step)
    requires WellFormed(s) && st in PossibleMoves(s)
    ensures st.id in s.vehicles
    ensures MoveState(s, st.id, st.steps) == Shifted(s, st.id, st.steps)
    ensures WellFormed(Shifted(s, st.id, st.steps))
  {
    PossibleMovesBounded(s, st);
    var vs := Relocated(s, st.id, st.steps, s.order);
    RelocatedFits(s, st);
    AddAllFits(s.size, vs);
    AddAllPreserves(Empty(s.size), vs);
    HoldsShifted(s, st.id, st.steps, vs, MoveState(s, st.id, st.steps));
  }

  /** A board holding the relocated copies in dictionary order is the board
      with only `vId` moved. */
  lemma HoldsShifted(s: BoardState, vId: string, steps: int, vs: seq<Vehicle>, r: BoardState)
    requires Keyed(s) && vId in s.vehicles && vs == Relocated(s, vId, steps, s.order)
    requires Holds(r, vs) && r.size == s.size && Ids(vs) == s.order
    ensures r == Shifted(s, vId, steps)
  {
    var t := Shifted(s, vId, steps);
    forall id ensures id in r.vehicles <==> id in t.vehicles {
      assert id in Ids(vs) <==> id in s.order;
    }
    forall id | id in r.vehicles ensures r.vehicles[id] == t.vehicles[id] {
      var i :| 0 <= i < |s.order| && s.order[i] == id;
      assert vs[i].id == id;
    }
    assert r.vehicles == t.vehicles;
  }

  /** get_state_hash's entry layout: (id, row, col) per vehicle. */
  type StateKey = seq<(string, int, int)>

  function HashOf(s: BoardState, ids: seq<string>): StateKey
    requires forall id :: id in ids ==> id in s.vehicles
  {
    seq(|ids|, i requires 0 <= i < |ids| => (ids[i], s.vehicles[ids[i]].row, s.vehicles[ids[i]].col))
  }

  lemma HashOfEntries(s: BoardState, ids: seq<string>, h: StateKey)
    requires forall id :: id in ids ==> id in s.vehicles
    requires |h| == |ids|
    requires forall j :: 0 <= j < |ids| ==> h[j] == (ids[j], s.vehicles[ids[j]].row, s.vehicles[ids[j]].col)
    ensures h == HashOf(s, ids)
  {
  }

  /** Board.get_state_hash: one entry per vehicle, keys in sorted order. */
  function StateHash(s: BoardState): StateKey
    requires Keyed(s)
  {
    assert forall id :: id in Sort(s.order) ==> id in s.vehicles by {
      forall id | id in Sort(s.order) ensures id in s.vehicles {
        SortMembers(s.order, id);
      }
    }
    HashOf(s, Sort(s.order))
  }

  /** The sorted keys: as many as the vehicles, each a key, strictly ascending. */
  lemma SortedKeys(s: BoardState)
    requires Keyed(s)
    ensures |Sort(s.order)| == |s.vehicles|
    ensures StrictlyAscending(Sort(s.order))
    ensures forall id :: id in Sort(s.order) <==> id in s.vehicles
  {
    var ids := Sort(s.order);
    SortAscending(s.order);
    DistinctCard(s.order);
    assert s.vehicles.Keys == set x | x in s.order;
    assert |multiset(ids)| == |multiset(s.order)|;
    forall id ensures id in ids <==> id in s.vehicles {
      SortMembers(s.order, id);
    }
  }

  /** Boards with the same ids sort them alike, whatever order they were added in. */
  lemma SortedKeysAgree(s1: BoardState, s2: BoardState)
    requires Keyed(s1) && Keyed(s2) && s1.vehicles.Keys == s2.vehicles.Keys
    ensures Sort(s1.order) == Sort(s2.order)
  {
    SortedKeys(s1);
    SortedKeys(s2);
    AscendingUnique(Sort(s1.order), Sort(s2.order));
  }

  /** Entries listed for strictly ascending ids covering the vehicles. */
  lemma HashOfShape(s: BoardState, ids: seq<string>)
    requires forall id :: id in ids <==> id in s.vehicles
    requires StrictlyAscending(ids)
    ensures forall i, j :: 0 <= i < j < |HashOf(s, ids)| ==> Less(HashOf(s, ids)[i].0, HashOf(s, ids)[j].0)
    ensures forall i :: 0 <= i < |HashOf(s, ids)| ==>
              var e := HashOf(s, ids)[i];
              e.0 in s.vehicles && e.1 == s.vehicles[e.0].row && e.2 == s.vehicles[e.0].col
    ensures forall id :: id in s.vehicles ==> exists i :: 0 <= i < |HashOf(s, ids)| && HashOf(s, ids)[i].0 == id
  {
    var h := HashOf(s, ids);
    forall id | id in s.vehicles ensures exists i :: 0 <= i < |h| && h[i].0 == id {
      var i :| 0 <= i < |ids| && ids[i] == id;
      assert h[i].0 == id;
    }
  }

  /** The hash has one (id, row, col) entry per vehicle and the ids strictly ascend. */
  lemma StateHashShape(s: BoardState)
    requires Keyed(s)
    ensures |StateHash(s)| == |s.vehicles|
    ensures forall i, j :: 0 <= i < j < |StateHash(s)| ==> Less(StateHash(s)[i].0, StateHash(s)[j].0)
    ensures forall i :: 0 <= i < |StateHash(s)| ==>
              var e := StateHash(s)[i];
              e.0 in s.vehicles && e.1 == s.vehicles[e.0].row && e.2 == s.vehicles[e.0].col
    ensures forall id :: id in s.vehicles ==> exists i :: 0 <= i < |StateHash(s)| && StateHash(s)[i].0 == id
  {
    SortedKeys(s);
    assert StateHash(s) == HashOf(s, Sort(s.order));
    HashOfShape(s, Sort(s.order));
  }

  /** Vehicle `id` has the same row and column on both boards. */
  predicate SamePlace(s1: BoardState, s2: BoardState, id: string)
    requires id in s1.vehicles && id in s2.vehicles
  {
    s1.vehicles[id].row == s2.vehicles[id].row && s1.vehicles[id].col == s2.vehicles[id].col
  }

  /** Entries listed for the same ids agree exactly when each id keeps its place. */
  lemma HashOfAgree(s1: BoardState, s2: BoardState, ids: seq<string>)
    requires forall id :: id in ids ==> id in s1.vehicles && id in s2.vehicles
    ensures HashOf(s1, ids) == HashOf(s2, ids) <==> forall i :: 0 <= i < |ids| ==> SamePlace(s1, s2, ids[i])
  {
    var h1, h2 := HashOf(s1, ids), HashOf(s2, ids);
    if h1 == h2 {
      forall i | 0 <= i < |ids| ensures SamePlace(s1, s2, ids[i]) {
        assert h1[i] == h2[i];
      }
    }
  }

  /** Boards with the same ids have the same hash exactly when every vehicle
      has the same row and column in both, whatever order the ids were added in. */
  lemma StateHashEqual(s1: BoardState, s2: BoardState)
    requires Keyed(s1) && Keyed(s2) && s1.vehicles.Keys == s2.vehicles.Keys
    ensures StateHash(s1) == StateHash(s2) <==> forall id :: id in s1.vehicles ==> SamePlace(s1, s2, id)
  {
    SortedKeysAgree(s1, s2);
    SortedKeys(s1);
    var ids := Sort(s1.order);
    assert StateHash(s1) == HashOf(s1, ids) && StateHash(s2) == HashOf(s2, ids);
    HashOfAgree(s1, s2, ids);
    if forall i :: 0 <= i < |ids| ==> SamePlace(s1, s2, ids[i]) {
      forall id | id in s1.vehicles ensures SamePlace(s1, s2, id) {
        var i :| 0 <= i < |ids| && ids[i] == id;
      }
    }
  }

  /** Board.is_solved: a vehicle "target" exists and its far end reaches the
      right wall (col + length == size); neither its row nor its orientation
      is looked at. */
  predicate Solved(s: BoardState): (r: bool)
    ensures r ==> "target" in s.vehicles
  {
    "target" in s.vehicles && s.vehicles["target"].col + s.vehicles["target"].length == s.size
  }

  /** Only the target's far end matters to is_solved: giving the target
      another row or another orientation leaves the answer unchanged. */
  lemma SolvedIgnoresRowAndOrientation(s: BoardState, row: int, orientation: string)
    requires "target" in s.vehicles
    ensures var t := s.vehicles["target"];
      Solved(s.(vehicles := s.vehicles["target" := t.(row := row, orientation := orientation)])) == Solved(s)
  {
  }

  /** Moving any vehicle other than the target neither wins nor loses. */
  lemma OtherMoveKeepsSolved(s: BoardState, st: Step)
    requires WellFormed(s) && st in PossibleMoves(s) && st.id != "target"
    ensures Solved(MoveState(s, st.id, st.steps)) == Solved(s)
  {
    LegalMove(s, st);
  }

  /** A horizontal target whose cells up to the right wall are all free has
      that slide listed, and taking it solves the board. */
  lemma ClearRowSolves(s: BoardState)
    requires WellFormed(s) && "target" in s.vehicles
    requires var t := s.vehicles["target"];
      && IsHorizontal(t) && t.length >= 1 && t.col + t.length < s.size
      && forall j :: 1 <= j <= s.size - t.col - t.length ==> FrontCell(t, j) !in Occupied(s)
    ensures var k := s.size - s.vehicles["target"].col - s.vehicles["target"].length;
      && Step("target", k) in PossibleMoves(s)
      && Solved(MoveState(s, "target", k))
  {
    var t := s.vehicles["target"];
    var k := s.size - t.col - t.length;
    assert CellAt(t, 0) in Footprint(t);
    assert InGrid(s.size, CellAt(t, 0));
    forall j | 1 <= j <= k ensures !FwdBlocked(s, t, j) {
      assert FrontCell(t, j) == (t.row, t.col + t.length - 1 + j);
    }
    PossibleMovesChar(s, Step("target", k));
    LegalMove(s, Step("target", k));
  }

  /** Where the step loops of get_possible_moves stop: the first count that
      fails the test, or size; the steps listed before it are FwdCount or BwdCount. */
  lemma CountReached(s: BoardState, v: Vehicle, k: int, forward: bool)
    requires 1 <= k
    requires forward ==> forall j :: 1 <= j < k ==> !FwdBlocked(s, v, j)
    requires !forward ==> forall j :: 1 <= j < k ==> !BwdBlocked(s, v, j)
    requires k >= s.size || (if forward then FwdBlocked(s, v, k) else BwdBlocked(s, v, k))
    requires k <= s.size || k == 1
    ensures forward ==> FwdCount(s, v, 1) == k - 1
    ensures !forward ==> BwdCount(s, v, 1) == k - 1
  {
    if forward {
      if k >= 2 {
        FwdCountFrom(s, v, 1, k - 1);
      }
      FwdCountFrom(s, v, 1, k);
    } else {
      if k >= 2 {
        BwdCountFrom(s, v, 1, k - 1);
      }
      BwdCountFrom(s, v, 1, k);
    }
  }

  /** A board object of the generator. */
  class Board {
    const size: int
    var vehicles: map<string, Vehicle>
    var order: seq<string>

    function State(): BoardState
      reads this
    {
      BoardState(size, vehicles, order)
    }

    ghost predicate Valid()
      reads this
    {
      WellFormed(State())
    }

    /** Board(size=6): an empty board, six cells a side unless told otherwise. */
    constructor (size: int := 6)
      ensures Valid() && State() == Empty(size)
    {
      this.size := size;
      vehicles := map[];
      order := [];
    }

    /** Board.add_vehicle: checks overlap against every vehicle, then the
        bounds of every new cell, and stores the vehicle under its id. */
    method AddVehicle(vehicle: Vehicle) returns (ok: bool)
      requires Valid()
      modifies this
      ensures Valid()
      ensures (State(), ok) == AddState(old(State()), vehicle)
      ensures ok <==> Accepts(old(State()), vehicle)
      ensures ok ==> vehicles == old(vehicles)[vehicle.id := vehicle]
      ensures !ok ==> vehicles == old(vehicles) && order == old(order)
    {
      var newCells := Occupies(vehicle);
      var i := 0;
      while i < |order|
        invariant 0 <= i <= |order|
        invariant vehicles == old(vehicles) && order == old(order)
        invariant forall j :: 0 <= j < i ==> newCells !! Footprint(vehicles[order[j]])
      {
        var cells := Occupies(vehicles[order[i]]);
        if !(newCells !! cells) {
          return false;
        }
        i := i + 1;
      }
      var rest := newCells;
      while rest != {}
        invariant rest <= newCells
        invariant vehicles == old(vehicles) && order == old(order)
        invariant forall c :: c in newCells - rest ==> InGrid(size, c)
        decreases rest
      {
        var c :| c in rest;
        if c.0 < 0 || c.0 >= size || c.1 < 0 || c.1 >= size {
          return false;
        }
        rest := rest - {c};
      }
      AddStatePreserves(State(), vehicle);
      if vehicle.id !in vehicles {
        order := order + [vehicle.id];
      }
      vehicles := vehicles[vehicle.id := vehicle];
      ok := true;
    }

    /** Board.get_state_hash: walks the sorted keys, one (id, row, col) each. */
    method GetStateHash() returns (h: StateKey)
      requires Valid()
      ensures h == StateHash(State())
    {
      var ids := Sort(order);
      ghost var s := State();
      SortedKeys(s);
      var vs := vehicles;
      h := [];
      var i := 0;
      while i < |ids|
        invariant 0 <= i <= |ids| && |h| == i
        invariant forall j :: 0 <= j < i ==> h[j] == (ids[j], vs[ids[j]].row, vs[ids[j]].col)
      {
        var v := vs[ids[i]];
        h := h + [(ids[i], v.row, v.col)];
        i := i + 1;
      }
      HashOfEntries(s, ids, h);
    }

    /** Board.get_occupied_cells: the union of every vehicle's footprint. */
    method GetOccupiedCells() returns (occupied: set<Cell>)
      requires Valid()
      ensures occupied == Occupied(State())
    {
      occupied := {};
      var i := 0;
      while i < |order|
        invariant 0 <= i <= |order|
        invariant occupied == set id, c | id in order[..i] && id in vehicles && c in Footprint(vehicles[id]) :: c
      {
        var cells := Occupies(vehicles[order[i]]);
        assert order[..i + 1] == order[..i] + [order[i]];
        occupied := occupied + cells;
        i := i + 1;
      }
      assert order[..i] == order;
    }

    /** Board.get_possible_moves: for each vehicle in dictionary order, its
        forward moves and then its backward moves. */
    method GetPossibleMoves() returns (moves: seq<Step>)
      requires Valid()
      ensures moves == PossibleMoves(State())
    {
      ghost var s := State();
      assert Keyed(s);
      moves := [];
      var occupied := GetOccupiedCells();
      var idx := 0;
      while idx < |order|
        invariant 0 <= idx <= |order|
        invariant moves == MovesOf(s, order[..idx])
      {
        var vId := order[idx];
        assert vId in s.order && vId in s.vehicles;
        var steps := VehicleSteps(vId, vehicles[vId], occupied);
        MovesOfNext(s, order, idx);
        moves := moves + steps;
        idx := idx + 1;
      }
      assert order[..idx] == order;
    }

    /** One pass of get_possible_moves' outer loop: the forward slides of
        one vehicle, then its backward slides. */
    method VehicleSteps(vId: string, vehicle: Vehicle, occupied: set<Cell>) returns (steps: seq<Step>)
      requires occupied == Occupied(State())
      ensures steps == VehicleMoves(State(), vId, vehicle)
    {
      var mine := Occupies(vehicle);
      var forward := ForwardSteps(vId, vehicle, occupied, mine);
      var backward := BackwardSteps(vId, vehicle, occupied, mine);
      steps := forward + backward;
    }

    /** The forward loop of get_possible_moves: steps 1, 2, ... below size
        until the cell `steps` past the front edge is outside the grid or
        taken by another vehicle. */
    method ForwardSteps(vId: string, vehicle: Vehicle, occupied: set<Cell>, mine: set<Cell>)
      returns (moves: seq<Step>)
      requires occupied == Occupied(State()) && mine == Footprint(vehicle)
      ensures moves == seq(FwdCount(State(), vehicle, 1), i => Step(vId, i + 1))
    {
      ghost var s := State();
      moves := [];
      var steps := 1;
      while steps < size
        invariant 1 <= steps && (steps <= size || steps == 1)
        invariant forall j :: 1 <= j < steps ==> !FwdBlocked(s, vehicle, j)
        invariant |moves| == steps - 1 && forall i :: 0 <= i < steps - 1 ==> moves[i] == Step(vId, i + 1)
      {
        // The source tests this same cell once per cell of the vehicle.
        var blocked := false;
        if vehicle.length >= 1 {
          var cell := FrontCell(vehicle, steps);
          blocked := cell.0 >= size || cell.1 >= size || (cell in occupied && cell !in mine);
        }
        assert blocked == FwdBlocked(s, vehicle, steps);
        if blocked {
          break;
        }
        moves := moves + [Step(vId, steps)];
        steps := steps + 1;
      }
      CountReached(s, vehicle, steps, true);
    }

    /** The backward loop of get_possible_moves: steps 1, 2, ... below size
        until the cell `steps` behind the anchor is outside the grid or taken
        by another vehicle; each is listed as -steps. */
    method BackwardSteps(vId: string, vehicle: Vehicle, occupied: set<Cell>, mine: set<Cell>)
      returns (moves: seq<Step>)
      requires occupied == Occupied(State()) && mine == Footprint(vehicle)
      ensures moves == seq(BwdCount(State(), vehicle, 1), i => Step(vId, -(i + 1)))
    {
      ghost var s := State();
      moves := [];
      var steps := 1;
      while steps < size
        invariant 1 <= steps && (steps <= size || steps == 1)
        invariant forall j :: 1 <= j < steps ==> !BwdBlocked(s, vehicle, j)
        invariant |moves| == steps - 1 && forall i :: 0 <= i < steps - 1 ==> moves[i] == Step(vId, -(i + 1))
      {
        var blocked := false;
        if vehicle.length >= 1 {
          var cell := BackCell(vehicle, steps);
          blocked := cell.0 < 0 || cell.1 < 0 || (cell in occupied && cell !in mine);
        }
        assert blocked == BwdBlocked(s, vehicle, steps);
        if blocked {
          break;
        }
        moves := moves + [Step(vId, -steps)];
        steps := steps + 1;
      }
      CountReached(s, vehicle, steps, false);
    }

    /** Board.move: builds a fresh board of the same size by adding a copy of
        every vehicle, in dictionary order, with `vId` shifted by `steps`.
        The receiver is not changed. */
    method Move(vId: string, steps: int) returns (next: Board)
      requires Valid()
      ensures fresh(next) && next.Valid()
      ensures next.State() == MoveState(State(), vId, steps)
    {
      ghost var s := State();
      ghost var vs := Relocated(s, vId, steps, order);
      next := new Board(size);
      var i := 0;
      while i < |order|
        invariant 0 <= i <= |order| && fresh(next) && next.size == size
        invariant next.Valid() && next.State() == AddAll(Empty(size), vs[..i])
      {
        var v := Copy(vehicles[order[i]]);
        if order[i] == vId {
          if IsHorizontal(v) {
            v := v.(col := v.col + steps);
          } else {
            v := v.(row := v.row + steps);
          }
        }
        assert v == vs[i];
        AddAllNext(Empty(size), vs, i);
        var _ := next.AddVehicle(v);
        i := i + 1;
      }
      assert vs[..i] == vs;
    }
  }
}
