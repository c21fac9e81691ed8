/**
 * The breadth-first solver of the level generator (generator/solver.py):
 * boards are explored through get_possible_moves and move, a visited set of
 * state hashes keeps any state from being queued twice, and boards at the
 * depth cap are not expanded.
 */
module Solver {
  import opened Strings
  import opened RushHour

  /** MAX_DEPTH: boards reached by this many moves are not expanded. */
  const MaxDepth := 100

  /** The board reached from s by applying move() for each step of `path`. */
  ghost function Replay(s: BoardState, path: seq<Step>): (r: BoardState)
    requires WellFormed(s)
    ensures WellFormed(r) && r.size == s.size
  {
    if path == [] then s
    else
      var before := Replay(s, path[..|path| - 1]);
      var st := path[|path| - 1];
      MoveStateWellFormed(before, st.id, st.steps);
      MoveState(before, st.id, st.steps)
  }

  /** Every step of `path` is one that get_possible_moves lists for the board
      it is applied to. */
  ghost predicate ValidPath(s: BoardState, path: seq<Step>)
    requires WellFormed(s)
  {
    path == [] ||
    (ValidPath(s, path[..|path| - 1]) && path[|path| - 1] in PossibleMoves(Replay(s, path[..|path| - 1])))
  }

  /** Boards that differ from s0 only in where the vehicles stand. */
  ghost predicate Family(s0: BoardState, t: BoardState)
  {
    && WellFormed(t)
    && t.size == s0.size
    && t.order == s0.order
    && t.vehicles.Keys == s0.vehicles.Keys
    && forall id :: id in t.vehicles ==>
         && t.vehicles[id].id == s0.vehicles[id].id
         && t.vehicles[id].orientation == s0.vehicles[id].orientation
         && t.vehicles[id].length == s0.vehicles[id].length
  }

  /** Within one family a board is determined by its state hash. */
  lemma FamilyHashInjective(s0: BoardState, t1: BoardState, t2: BoardState)
    requires Family(s0, t1) && Family(s0, t2) && StateHash(t1) == StateHash(t2)
    ensures t1 == t2
  {
    StateHashEqual(t1, t2);
    forall id | id in t1.vehicles ensures t1.vehicles[id] == t2.vehicles[id] {
      assert SamePlace(t1, t2, id);
    }
    assert t1.vehicles == t2.vehicles;
  }

  /** A listed move keeps a board in its family. */
  lemma FamilyStep(s0: BoardState, t: BoardState, st: Step)
    requires Family(s0, t) && st in PossibleMoves(t)
    ensures Family(s0, MoveState(t, st.id, st.steps))
  {
    LegalMove(t, st);
  }

  /** Replaying a valid path stays in the start board's family. */
  lemma {:induction false} ReplayFamily(s0: BoardState, path: seq<Step>)
    requires WellFormed(s0) && ValidPath(s0, path)
    ensures Family(s0, Replay(s0, path))
  {
    if path != [] {
      var init := path[..|path| - 1];
      ReplayFamily(s0, init);
      FamilyStep(s0, Replay(s0, init), path[|path| - 1]);
    }
  }

  function Abs(x: int): nat
  {
    if x < 0 then -x else x
  }

  /** The largest distance one listed move can slide a vehicle, bounded above. */
  function Span(s0: BoardState): nat
  {
    if s0.size > 0 then s0.size else 0
  }

  /** Every vehicle of t stands within `r` rows and columns of where it stands in s0. */
  ghost predicate Near(s0: BoardState, t: BoardState, r: int)
  {
    forall id :: id in t.vehicles ==>
      && id in s0.vehicles
      && Abs(t.vehicles[id].row - s0.vehicles[id].row) <= r
      && Abs(t.vehicles[id].col - s0.vehicles[id].col) <= r
  }

  lemma NearShift(s0: BoardState, t: BoardState, id: string, steps: int, r: int)
    requires Near(s0, t, r) && id in t.vehicles && Abs(steps) <= Span(s0)
    ensures Near(s0, Shifted(t, id, steps), r + Span(s0))
  {
    var n := Shifted(t, id, steps);
    forall k | k in n.vehicles
      ensures k in s0.vehicles
      ensures Abs(n.vehicles[k].row - s0.vehicles[k].row) <= r + Span(s0)
      ensures Abs(n.vehicles[k].col - s0.vehicles[k].col) <= r + Span(s0)
    {
      assert k in t.vehicles;
    }
  }

  lemma NearStep(s0: BoardState, t: BoardState, st: Step, r: int)
    requires Family(s0, t) && Near(s0, t, r) && st in PossibleMoves(t)
    ensures Near(s0, MoveState(t, st.id, st.steps), r + Span(s0))
  {
    LegalMove(t, st);
    PossibleMovesBounded(t, st);
    NearShift(s0, t, st.id, st.steps, r);
  }

  lemma MulMonotone(a: int, b: int, c: int)
    requires 0 <= a <= b && 0 <= c
    ensures a * c <= b * c
  {
  }

  /** The hashes of every board whose vehicles are within r of (r0, c0). */
  ghost function Box(id: string, r0: int, c0: int, r: int): set<(string, int, int)>
  {
    set row, col | r0 - r <= row <= r0 + r && c0 - r <= col <= c0 + r :: (id, row, col)
  }

  ghost function Product(sets: seq<set<(string, int, int)>>): set<StateKey>
  {
    if sets == [] then {[]}
    else set x, t | x in sets[0] && t in Product(sets[1..]) :: [x] + t
  }

  lemma {:induction false} ProductMember(sets: seq<set<(string, int, int)>>, h: StateKey)
    requires |h| == |sets| && forall i :: 0 <= i < |h| ==> h[i] in sets[i]
    ensures h in Product(sets)
  {
    if sets != [] {
      ProductMember(sets[1..], h[1..]);
      assert h == [h[0]] + h[1..];
    }
  }

  /** A finite set holding the hash of every board of s0's family that the
      search can reach within the depth cap. */
  ghost function Universe(s0: BoardState): set<StateKey>
    requires Keyed(s0)
  {
    Product(Boxes(s0, MaxDepth * Span(s0)))
  }

  lemma BoxMember(id: string, r0: int, c0: int, r: int, row: int, col: int)
    requires Abs(row - r0) <= r && Abs(col - c0) <= r
    ensures (id, row, col) in Box(id, r0, c0, r)
  {
  }

  /** The boxes that Universe multiplies out, one per sorted id. */
  ghost function Boxes(s0: BoardState, bound: int): seq<set<(string, int, int)>>
    requires Keyed(s0)
  {
    var ids := Sort(s0.order);
    SortedKeys(s0);
    seq(|ids|, i requires 0 <= i < |ids| =>
      Box(ids[i], s0.vehicles[ids[i]].row, s0.vehicles[ids[i]].col, bound))
  }

  lemma EntriesInBoxes(s0: BoardState, t: BoardState, bound: int)
    requires Keyed(s0) && Keyed(t) && t.order == s0.order && Near(s0, t, bound)
    ensures |StateHash(t)| == |Boxes(s0, bound)|
    ensures forall i :: 0 <= i < |StateHash(t)| ==> StateHash(t)[i] in Boxes(s0, bound)[i]
  {
    var ids := Sort(s0.order);
    SortedKeys(s0);
    assert StateHash(t) == HashOf(t, ids);
    HashOfInBoxes(s0, t, ids, bound);
  }

  lemma HashOfInBoxes(s0: BoardState, t: BoardState, ids: seq<string>, bound: int)
    requires forall id :: id in ids ==> id in t.vehicles
    requires Near(s0, t, bound)
    ensures forall i :: 0 <= i < |ids| ==>
              HashOf(t, ids)[i] in Box(ids[i], s0.vehicles[ids[i]].row, s0.vehicles[ids[i]].col, bound)
  {
    forall i | 0 <= i < |ids|
      ensures HashOf(t, ids)[i] in Box(ids[i], s0.vehicles[ids[i]].row, s0.vehicles[ids[i]].col, bound)
    {
      var id := ids[i];
      BoxMember(id, s0.vehicles[id].row, s0.vehicles[id].col, bound, t.vehicles[id].row, t.vehicles[id].col);
    }
  }

  /** Every visited hash lies in the universe, which bounds the search. */
  lemma KnownInUniverse(s0: BoardState, visited: set<StateKey>, dist: map<StateKey, int>,
                        boards: map<StateKey, BoardState>)
    requires Known(s0, visited, dist, boards)
    ensures visited <= Universe(s0)
  {
    forall h | h in visited ensures h in Universe(s0) {
      assert KnownEntry(s0, h, dist[h], boards[h]);
      InUniverse(s0, boards[h], dist[h]);
    }
  }

  lemma InUniverse(s0: BoardState, t: BoardState, d: int)
    requires Family(s0, t) && WellFormed(s0) && 0 <= d <= MaxDepth && Near(s0, t, d * Span(s0))
    ensures StateHash(t) in Universe(s0)
  {
    var bound := MaxDepth * Span(s0);
    MulMonotone(d, MaxDepth, Span(s0));
    assert Near(s0, t, bound);
    EntriesInBoxes(s0, t, bound);
    ProductMember(Boxes(s0, bound), StateHash(t));
  }

  /** The bookkeeping of the search: for every visited hash, the board it
      stands for and the number of moves it was first reached in. */
  ghost predicate Known(s0: BoardState, visited: set<StateKey>, dist: map<StateKey, int>,
                        boards: map<StateKey, BoardState>)
  {
    && WellFormed(s0)
    && visited == dist.Keys == boards.Keys
    && StateHash(s0) in visited && dist[StateHash(s0)] == 0
    && forall h :: h in visited ==> KnownEntry(s0, h, dist[h], boards[h])
  }

  /** The board recorded for hash h, first reached in d moves. */
  ghost predicate KnownEntry(s0: BoardState, h: StateKey, d: int, b: BoardState)
  {
    && Family(s0, b) && StateHash(b) == h
    && !Solved(b)
    && 0 <= d <= MaxDepth
    && Near(s0, b, d * Span(s0))
  }

  /** The hash of the board move() returns. */
  ghost function NextHash(t: BoardState, st: Step): StateKey
    requires Keyed(t)
  {
    MoveStateWellFormed(t, st.id, st.steps);
    StateHash(MoveState(t, st.id, st.steps))
  }

  /** Every listed move of the board for h leads to a visited hash reached
      in at most one more move. */
  ghost predicate Expanded(h: StateKey, dist: map<StateKey, int>, boards: map<StateKey, BoardState>)
  {
    && h in boards && h in dist && WellFormed(boards[h])
    && forall st :: st in PossibleMoves(boards[h]) ==>
         var n := NextHash(boards[h], st);
         n in dist && dist[n] <= dist[h] + 1
  }

  /** If every visited hash reached in fewer than `bound` moves has been
      expanded, then every board a valid path of at most `bound` moves reaches
      is visited, no later than the path's length. */
  lemma {:induction false} ReachVisited(s0: BoardState, visited: set<StateKey>, dist: map<StateKey, int>,
                                        boards: map<StateKey, BoardState>, bound: int, path: seq<Step>)
    requires Known(s0, visited, dist, boards)
    requires forall h :: h in visited && dist[h] < bound ==> Expanded(h, dist, boards)
    requires ValidPath(s0, path) && |path| <= bound
    ensures StateHash(Replay(s0, path)) in visited
    ensures dist[StateHash(Replay(s0, path))] <= |path|
  {
    if path != [] {
      var init := path[..|path| - 1];
      var st := path[|path| - 1];
      ReachVisited(s0, visited, dist, boards, bound, init);
      var u := Replay(s0, init);
      var hu := StateHash(u);
      ReplayFamily(s0, init);
      FamilyHashInjective(s0, u, boards[hu]);
      assert Expanded(hu, dist, boards);
      assert st in PossibleMoves(boards[hu]);
    }
  }

  /** Under the same condition, no valid path of at most `bound` moves solves the board. */
  lemma NoSolutionWithin(s0: BoardState, visited: set<StateKey>, dist: map<StateKey, int>,
                         boards: map<StateKey, BoardState>, bound: int)
    requires Known(s0, visited, dist, boards)
    requires forall h :: h in visited && dist[h] < bound ==> Expanded(h, dist, boards)
    ensures forall path :: ValidPath(s0, path) && |path| <= bound ==> !Solved(Replay(s0, path))
  {
    forall path | ValidPath(s0, path) && |path| <= bound
      ensures !Solved(Replay(s0, path))
    {
      ReachVisited(s0, visited, dist, boards, bound, path);
      ReplayFamily(s0, path);
      var h := StateHash(Replay(s0, path));
      FamilyHashInjective(s0, Replay(s0, path), boards[h]);
    }
  }

  /** One queue entry of the search, with the hash of its board. */
  datatype Entry = Entry(hash: StateKey, board: BoardState, moves: int, path: seq<Step>)

  /** A queue entry: its board is what its path replays to, it is visited,
      first reached in exactly its number of moves, which is the depth being
      expanded or one more. */
  ghost predicate InQueue(s0: BoardState, e: Entry, visited: set<StateKey>, dist: map<StateKey, int>,
                          boards: map<StateKey, BoardState>, frontier: int)
  {
    && WellFormed(s0)
    && ValidPath(s0, e.path) && |e.path| == e.moves
    && e.board == Replay(s0, e.path)
    && e.hash == StateHash(e.board)
    && e.hash in visited && e.hash in dist && e.hash in boards
    && dist[e.hash] == e.moves && boards[e.hash] == e.board
    && frontier <= e.moves <= frontier + 1
  }

  ghost function QHashes(qs: seq<Entry>): set<StateKey>
  {
    set k | 0 <= k < |qs| :: qs[k].hash
  }

  lemma QHashesPop(qs: seq<Entry>)
    requires qs != []
    ensures QHashes(qs) == {qs[0].hash} + QHashes(qs[1..])
  {
    forall h | h in QHashes(qs) ensures h in {qs[0].hash} + QHashes(qs[1..]) {
      var k :| 0 <= k < |qs| && qs[k].hash == h;
      if k > 0 {
        assert qs[1..][k - 1] == qs[k];
      }
    }
    forall h | h in QHashes(qs[1..]) ensures h in QHashes(qs) {
      var k :| 0 <= k < |qs[1..]| && qs[1..][k].hash == h;
      assert qs[k + 1] == qs[1..][k];
    }
  }

  lemma QHashesAppend(qs: seq<Entry>, e: Entry)
    ensures QHashes(qs + [e]) == QHashes(qs) + {e.hash}
  {
    var r := qs + [e];
    forall h | h in QHashes(r) ensures h in QHashes(qs) + {e.hash} {
      var k :| 0 <= k < |r| && r[k].hash == h;
      if k < |qs| {
        assert r[k] == qs[k];
      }
    }
    forall h | h in QHashes(qs) + {e.hash} ensures h in QHashes(r) {
      if h in QHashes(qs) {
        var k :| 0 <= k < |qs| && qs[k].hash == h;
        assert r[k] == qs[k];
      } else {
        assert r[|qs|] == e;
      }
    }
  }

  /** The invariant of the breadth-first search. `closed` holds the hashes
      whose board has been dequeued and dealt with, `open` the one being
      expanded, `frontier` the depth of the last dequeued entry. */
  ghost predicate Search(s0: BoardState, qs: seq<Entry>, visited: set<StateKey>, dist: map<StateKey, int>,
                         boards: map<StateKey, BoardState>, closed: set<StateKey>, open: set<StateKey>,
                         frontier: int)
  {
    && Known(s0, visited, dist, boards)
    && Queued(s0, qs, visited, dist, boards, frontier)
    && Layered(qs)
    && Shallow(dist, frontier + 1)
    && visited == closed + open + QHashes(qs)
    && OnceQueued(qs) && Apart(closed, open, QHashes(qs))
    && ClosedExpanded(closed, dist, boards)
  }

  /** No hash is queued twice: it is marked visited before its board is enqueued. */
  ghost predicate OnceQueued(qs: seq<Entry>)
  {
    forall i, j :: 0 <= i < j < |qs| ==> qs[i].hash != qs[j].hash
  }

  /** A visited hash is closed, open or queued, and only one of these. */
  ghost predicate Apart(closed: set<StateKey>, open: set<StateKey>, queued: set<StateKey>)
  {
    closed !! open && closed !! queued && open !! queued
  }

  ghost predicate Queued(s0: BoardState, qs: seq<Entry>, visited: set<StateKey>, dist: map<StateKey, int>,
                         boards: map<StateKey, BoardState>, frontier: int)
  {
    forall k :: 0 <= k < |qs| ==> InQueue(s0, qs[k], visited, dist, boards, frontier)
  }

  /** No hash was first reached in more than `d` moves. */
  ghost predicate Shallow(dist: map<StateKey, int>, d: int)
  {
    forall h :: h in dist ==> dist[h] <= d
  }

  /** Depths never decrease along the queue. */
  ghost predicate Layered(qs: seq<Entry>)
  {
    forall i, j :: 0 <= i < j < |qs| ==> qs[i].moves <= qs[j].moves
  }

  /** Every closed hash below the depth cap has been expanded. */
  ghost predicate ClosedExpanded(closed: set<StateKey>, dist: map<StateKey, int>, boards: map<StateKey, BoardState>)
  {
    forall h :: h in closed ==> h in dist && dist[h] < MaxDepth ==> Expanded(h, dist, boards)
  }

  /** The first `n` listed moves of t lead to visited hashes reached in at
      most m + 1 moves. */
  ghost predicate PartlyExpanded(t: BoardState, moves: seq<Step>, n: int, m: int, dist: map<StateKey, int>)
    requires Keyed(t) && 0 <= n <= |moves|
  {
    Bounded(NextHashes(t, moves), n, m, dist)
  }

  /** The hashes the listed moves lead to, in the order they are listed. */
  ghost function NextHashes(t: BoardState, moves: seq<Step>): (hs: seq<StateKey>)
    requires Keyed(t)
    ensures |hs| == |moves| && forall j :: 0 <= j < |moves| ==> hs[j] == NextHash(t, moves[j])
  {
    seq(|moves|, j requires 0 <= j < |moves| => NextHash(t, moves[j]))
  }

  /** The first n keys are visited at most m + 1 moves deep. */
  ghost predicate Bounded(hs: seq<StateKey>, n: int, m: int, dist: map<StateKey, int>)
    requires 0 <= n <= |hs|
  {
    forall j :: 0 <= j < n ==> hs[j] in dist && dist[hs[j]] <= m + 1
  }

  /** The entry that taking `st` from e's board enqueues. */
  ghost function Child(e: Entry, st: Step): Entry
    requires WellFormed(e.board)
  {
    Entry(NextHash(e.board, st), MoveState(e.board, st.id, st.steps), e.moves + 1, e.path + [st])
  }

  /** The search starts with the start board alone, visited at depth 0. */
  lemma SearchStart(s0: BoardState)
    requires WellFormed(s0) && !Solved(s0)
    ensures var h := StateHash(s0);
      Search(s0, [Entry(h, s0, 0, [])], {h}, map[h := 0], map[h := s0], {}, {}, 0)
  {
    var h := StateHash(s0);
    var e, dist, boards := Entry(h, s0, 0, []), map[h := 0], map[h := s0];
    assert Near(s0, s0, 0 * Span(s0));
    assert KnownEntry(s0, h, 0, s0);
    assert Known(s0, {h}, dist, boards);
    assert InQueue(s0, e, {h}, dist, boards, 0);
    assert Queued(s0, [e], {h}, dist, boards, 0);
    QHashesAppend([], e);
    assert [] + [e] == [e];
    assert {h} == {} + {} + QHashes([e]);
    assert OnceQueued([e]) && Apart({}, {}, {h});
  }

  /** Dequeuing the first entry makes its hash the open one and its depth the frontier. */
  lemma SearchPop(s0: BoardState, qs: seq<Entry>, visited: set<StateKey>, dist: map<StateKey, int>,
                  boards: map<StateKey, BoardState>, closed: set<StateKey>, frontier: int)
    requires Search(s0, qs, visited, dist, boards, closed, {}, frontier) && qs != []
    ensures Search(s0, qs[1..], visited, dist, boards, closed, {qs[0].hash}, qs[0].moves)
    ensures InQueue(s0, qs[0], visited, dist, boards, qs[0].moves)
  {
    QueuedPop(s0, qs, visited, dist, boards, frontier);
    LayeredPop(qs);
    QHashesPop(qs);
    OnceQueuedPop(qs);
  }

  /** The head of a queue without repeated hashes is not queued again behind it. */
  lemma OnceQueuedPop(qs: seq<Entry>)
    requires OnceQueued(qs) && qs != []
    ensures OnceQueued(qs[1..]) && qs[0].hash !in QHashes(qs[1..])
  {
    forall i, j | 0 <= i < j < |qs[1..]| ensures qs[1..][i].hash != qs[1..][j].hash {
      assert qs[1..][i] == qs[i + 1] && qs[1..][j] == qs[j + 1];
    }
    forall k | 0 <= k < |qs[1..]| ensures qs[1..][k].hash != qs[0].hash {
      assert qs[1..][k] == qs[k + 1];
    }
  }

  lemma QueuedPop(s0: BoardState, qs: seq<Entry>, visited: set<StateKey>, dist: map<StateKey, int>,
                  boards: map<StateKey, BoardState>, frontier: int)
    requires Queued(s0, qs, visited, dist, boards, frontier) && Layered(qs) && qs != []
    ensures Queued(s0, qs[1..], visited, dist, boards, qs[0].moves)
    ensures InQueue(s0, qs[0], visited, dist, boards, qs[0].moves)
    ensures frontier <= qs[0].moves
  {
    assert InQueue(s0, qs[0], visited, dist, boards, frontier);
    forall k | 0 <= k < |qs[1..]|
      ensures InQueue(s0, qs[1..][k], visited, dist, boards, qs[0].moves)
    {
      assert qs[1..][k] == qs[k + 1];
      assert InQueue(s0, qs[k + 1], visited, dist, boards, frontier);
    }
  }

  lemma LayeredPop(qs: seq<Entry>)
    requires Layered(qs) && qs != []
    ensures Layered(qs[1..])
  {
    forall i, j | 0 <= i < j < |qs[1..]| ensures qs[1..][i].moves <= qs[1..][j].moves {
      assert qs[1..][i] == qs[i + 1] && qs[1..][j] == qs[j + 1];
    }
  }

  /** The state of the search while the open entry's listed moves are
      being taken: the first i of them are dealt with. */
  ghost predicate Expanding(s0: BoardState, qs: seq<Entry>, visited: set<StateKey>, dist: map<StateKey, int>,
                            boards: map<StateKey, BoardState>, closed: set<StateKey>, e: Entry,
                            moves: seq<Step>, i: int)
  {
    && Search(s0, qs, visited, dist, boards, closed, {e.hash}, e.moves)
    && InQueue(s0, e, visited, dist, boards, e.moves)
    && e.moves < MaxDepth && moves == PossibleMoves(e.board) && 0 <= i <= |moves|
    && PartlyExpanded(e.board, moves, i, e.moves, dist)
  }

  /** Expanding the open entry starts with none of its listed moves dealt with. */
  lemma ExpandStart(s0: BoardState, qs: seq<Entry>, visited: set<StateKey>, dist: map<StateKey, int>,
                    boards: map<StateKey, BoardState>, closed: set<StateKey>, e: Entry, moves: seq<Step>)
    requires Search(s0, qs, visited, dist, boards, closed, {e.hash}, e.moves)
    requires InQueue(s0, e, visited, dist, boards, e.moves)
    requires e.moves < MaxDepth && moves == PossibleMoves(e.board)
    ensures Expanding(s0, qs, visited, dist, boards, closed, e, moves, 0)
  {
  }

  /** With every listed move dealt with, the open entry is closed. */
  lemma ExpandDone(s0: BoardState, qs: seq<Entry>, visited: set<StateKey>, dist: map<StateKey, int>,
                   boards: map<StateKey, BoardState>, closed: set<StateKey>, e: Entry, moves: seq<Step>)
    requires Expanding(s0, qs, visited, dist, boards, closed, e, moves, |moves|)
    ensures Search(s0, qs, visited, dist, boards, closed + {e.hash}, {}, e.moves)
  {
    SearchClose(s0, qs, visited, dist, boards, closed, e);
  }

  /** Once all listed moves of the open entry's board are dealt with (or it
      is at the depth cap), it is closed. */
  lemma SearchClose(s0: BoardState, qs: seq<Entry>, visited: set<StateKey>, dist: map<StateKey, int>,
                    boards: map<StateKey, BoardState>, closed: set<StateKey>, e: Entry)
    requires Search(s0, qs, visited, dist, boards, closed, {e.hash}, e.moves)
    requires InQueue(s0, e, visited, dist, boards, e.moves)
    requires e.moves < MaxDepth ==>
      PartlyExpanded(e.board, PossibleMoves(e.board), |PossibleMoves(e.board)|, e.moves, dist)
    ensures Search(s0, qs, visited, dist, boards, closed + {e.hash}, {}, e.moves)
  {
    if e.moves < MaxDepth {
      FullyExpanded(e.hash, dist, boards);
    }
    CloseOne(closed, e.hash, dist, boards);
    CloseApart(visited, closed, e.hash, QHashes(qs));
  }

  /** Closing the open hash moves it from one part of the visited set to another. */
  lemma CloseApart(visited: set<StateKey>, closed: set<StateKey>, h: StateKey, queued: set<StateKey>)
    requires visited == closed + {h} + queued && Apart(closed, {h}, queued)
    ensures visited == closed + {h} + {} + queued && Apart(closed + {h}, {}, queued)
  {
  }

  lemma FullyExpanded(h: StateKey, dist: map<StateKey, int>, boards: map<StateKey, BoardState>)
    requires h in dist && h in boards && WellFormed(boards[h])
    requires PartlyExpanded(boards[h], PossibleMoves(boards[h]), |PossibleMoves(boards[h])|, dist[h], dist)
    ensures Expanded(h, dist, boards)
  {
    var moves := PossibleMoves(boards[h]);
    forall st | st in moves
      ensures NextHash(boards[h], st) in dist && dist[NextHash(boards[h], st)] <= dist[h] + 1
    {
      var j :| 0 <= j < |moves| && moves[j] == st;
    }
  }

  lemma CloseOne(closed: set<StateKey>, h: StateKey, dist: map<StateKey, int>, boards: map<StateKey, BoardState>)
    requires ClosedExpanded(closed, dist, boards)
    requires h in dist && dist[h] < MaxDepth ==> Expanded(h, dist, boards)
    ensures ClosedExpanded(closed + {h}, dist, boards)
  {
  }

  /** A move leading to a visited hash is dealt with at once. */
  lemma SearchSkip(s0: BoardState, qs: seq<Entry>, visited: set<StateKey>, dist: map<StateKey, int>,
                   boards: map<StateKey, BoardState>, closed: set<StateKey>, e: Entry, moves: seq<Step>, i: int)
    requires Expanding(s0, qs, visited, dist, boards, closed, e, moves, i) && i < |moves|
    requires NextHash(e.board, moves[i]) in visited
    ensures Expanding(s0, qs, visited, dist, boards, closed, e, moves, i + 1)
  {
  }

  /** Adding a visited hash keeps what was expanded expanded. */
  lemma ExpandedGrow(h: StateKey, dist: map<StateKey, int>, boards: map<StateKey, BoardState>,
                     n: StateKey, d: int, b: BoardState)
    requires n !in dist && Expanded(h, dist, boards)
    ensures Expanded(h, dist[n := d], boards[n := b])
  {
    var t := boards[h];
    assert boards[n := b][h] == t;
    forall st | st in PossibleMoves(t)
      ensures NextHash(t, st) in dist[n := d]
      ensures dist[n := d][NextHash(t, st)] <= dist[n := d][h] + 1
    {
      assert NextHash(t, st) in dist;
    }
  }

  /** The child of a queued entry, reached by a listed move, replays its own
      path and is one move further from the start. */
  lemma ChildFacts(s0: BoardState, e: Entry, visited: set<StateKey>, dist: map<StateKey, int>,
                   boards: map<StateKey, BoardState>, st: Step)
    requires InQueue(s0, e, visited, dist, boards, e.moves) && st in PossibleMoves(e.board)
    requires Near(s0, e.board, e.moves * Span(s0))
    ensures var c := Child(e, st);
      && ValidPath(s0, c.path) && |c.path| == c.moves
      && c.board == Replay(s0, c.path) && c.hash == StateHash(c.board)
      && Family(s0, c.board) && Near(s0, c.board, c.moves * Span(s0))
  {
    ChildPath(s0, e, st);
    ReplayFamily(s0, e.path);
    FamilyStep(s0, e.board, st);
    NearStep(s0, e.board, st, e.moves * Span(s0));
    MulSucc(e.moves, Span(s0));
  }

  lemma MulSucc(a: int, b: int)
    ensures a * b + b == (a + 1) * b
  {
  }

  /** Recording a fresh, unsolved board of the family keeps the bookkeeping. */
  lemma KnownInsert(s0: BoardState, visited: set<StateKey>, dist: map<StateKey, int>,
                    boards: map<StateKey, BoardState>, n: StateKey, d: int, b: BoardState)
    requires Known(s0, visited, dist, boards) && n !in visited
    requires Family(s0, b) && StateHash(b) == n && !Solved(b) && 0 <= d <= MaxDepth
    requires Near(s0, b, d * Span(s0))
    ensures Known(s0, visited + {n}, dist[n := d], boards[n := b])
  {
    KeysInsert(visited, dist, boards, n, d, b);
    var d2, b2 := dist[n := d], boards[n := b];
    forall h | h in visited + {n}
      ensures KnownEntry(s0, h, d2[h], b2[h])
    {
      if h != n {
        assert d2[h] == dist[h] && b2[h] == boards[h];
      }
    }
  }

  lemma KeysInsert<A, B>(visited: set<StateKey>, dist: map<StateKey, A>, boards: map<StateKey, B>,
                         n: StateKey, d: A, b: B)
    requires visited == dist.Keys == boards.Keys
    ensures visited + {n} == dist[n := d].Keys == boards[n := b].Keys
  {
  }

  /** Appending the child keeps every queue entry's facts. */
  lemma QueuedInsert(s0: BoardState, qs: seq<Entry>, visited: set<StateKey>, dist: map<StateKey, int>,
                     boards: map<StateKey, BoardState>, frontier: int, c: Entry)
    requires Queued(s0, qs, visited, dist, boards, frontier) && c.hash !in visited
    requires WellFormed(s0) && ValidPath(s0, c.path) && |c.path| == c.moves
    requires c.board == Replay(s0, c.path) && c.hash == StateHash(c.board)
    requires frontier <= c.moves <= frontier + 1
    ensures Queued(s0, qs + [c], visited + {c.hash}, dist[c.hash := c.moves], boards[c.hash := c.board], frontier)
  {
    var r := qs + [c];
    forall k | 0 <= k < |r|
      ensures InQueue(s0, r[k], visited + {c.hash}, dist[c.hash := c.moves], boards[c.hash := c.board], frontier)
    {
      if k < |qs| {
        assert r[k] == qs[k];
        assert InQueue(s0, qs[k], visited, dist, boards, frontier);
      }
    }
  }

  lemma LayeredInsert(s0: BoardState, qs: seq<Entry>, visited: set<StateKey>, dist: map<StateKey, int>,
                      boards: map<StateKey, BoardState>, frontier: int, c: Entry)
    requires Queued(s0, qs, visited, dist, boards, frontier) && Layered(qs) && c.moves == frontier + 1
    ensures Layered(qs + [c])
  {
    var r := qs + [c];
    forall i, j | 0 <= i < j < |r| ensures r[i].moves <= r[j].moves {
      if j < |qs| {
        assert r[i] == qs[i] && r[j] == qs[j];
      } else {
        assert r[i] == qs[i];
        assert InQueue(s0, qs[i], visited, dist, boards, frontier);
      }
    }
  }

  lemma ClosedInsert(closed: set<StateKey>, dist: map<StateKey, int>, boards: map<StateKey, BoardState>,
                     n: StateKey, d: int, b: BoardState)
    requires closed <= dist.Keys && n !in dist && ClosedExpanded(closed, dist, boards)
    ensures ClosedExpanded(closed, dist[n := d], boards[n := b])
  {
    forall h | h in closed && h in dist[n := d] && dist[n := d][h] < MaxDepth
      ensures Expanded(h, dist[n := d], boards[n := b])
    {
      assert dist[n := d][h] == dist[h];
      ExpandedGrow(h, dist, boards, n, d, b);
    }
  }

  lemma OpenInsert(visited: set<StateKey>, closed: set<StateKey>, open: set<StateKey>, qs: seq<Entry>, c: Entry)
    requires visited == closed + open + QHashes(qs)
    ensures visited + {c.hash} == closed + open + QHashes(qs + [c])
  {
    QHashesAppend(qs, c);
  }

  lemma ShallowInsert(dist: map<StateKey, int>, d: int, n: StateKey)
    requires Shallow(dist, d)
    ensures Shallow(dist[n := d], d)
  {
  }

  lemma InQueueGrow(s0: BoardState, e: Entry, visited: set<StateKey>, dist: map<StateKey, int>,
                    boards: map<StateKey, BoardState>, frontier: int, c: Entry)
    requires InQueue(s0, e, visited, dist, boards, frontier) && c.hash !in visited
    ensures InQueue(s0, e, visited + {c.hash}, dist[c.hash := c.moves], boards[c.hash := c.board], frontier)
  {
  }

  /** Giving a new key the bound keeps every earlier key within it. */
  lemma BoundInsert(hs: seq<StateKey>, i: int, m: int, dist: map<StateKey, int>)
    requires 0 <= i < |hs| && hs[i] !in dist && Bounded(hs, i, m, dist)
    ensures Bounded(hs, i + 1, m, dist[hs[i] := m + 1])
  {
  }

  lemma PartlyExpandedInsert(t: BoardState, moves: seq<Step>, i: int, m: int, dist: map<StateKey, int>)
    requires Keyed(t) && 0 <= i < |moves| && PartlyExpanded(t, moves, i, m, dist)
    requires NextHash(t, moves[i]) !in dist
    ensures PartlyExpanded(t, moves, i + 1, m, dist[NextHash(t, moves[i]) := m + 1])
  {
    BoundInsert(NextHashes(t, moves), i, m, dist);
  }

  /** The bookkeeping half of an insertion. */
  lemma InsertBook(s0: BoardState, visited: set<StateKey>, dist: map<StateKey, int>,
                   boards: map<StateKey, BoardState>, closed: set<StateKey>, e: Entry, st: Step)
    requires Known(s0, visited, dist, boards) && InQueue(s0, e, visited, dist, boards, e.moves)
    requires e.moves < MaxDepth && st in PossibleMoves(e.board)
    requires Child(e, st).hash !in visited && !Solved(Child(e, st).board)
    requires closed <= dist.Keys && ClosedExpanded(closed, dist, boards)
    ensures var c := Child(e, st);
      var v2, d2, b2 := visited + {c.hash}, dist[c.hash := c.moves], boards[c.hash := c.board];
      && Known(s0, v2, d2, b2) && ClosedExpanded(closed, d2, b2)
      && InQueue(s0, e, v2, d2, b2, e.moves)
      && ValidPath(s0, c.path) && |c.path| == c.moves
      && c.board == Replay(s0, c.path) && c.hash == StateHash(c.board)
  {
    var c := Child(e, st);
    assert KnownEntry(s0, e.hash, dist[e.hash], boards[e.hash]);
    ChildFacts(s0, e, visited, dist, boards, st);
    KnownInsert(s0, visited, dist, boards, c.hash, c.moves, c.board);
    ClosedInsert(closed, dist, boards, c.hash, c.moves, c.board);
    InQueueGrow(s0, e, visited, dist, boards, e.moves, c);
  }

  /** The queue half of an insertion. */
  lemma InsertQueue(s0: BoardState, qs: seq<Entry>, visited: set<StateKey>, dist: map<StateKey, int>,
                    boards: map<StateKey, BoardState>, closed: set<StateKey>, h: StateKey, m: int, c: Entry)
    requires Queued(s0, qs, visited, dist, boards, m) && Layered(qs) && Shallow(dist, m + 1)
    requires visited == closed + {h} + QHashes(qs) && c.hash !in visited
    requires OnceQueued(qs) && Apart(closed, {h}, QHashes(qs))
    requires WellFormed(s0) && ValidPath(s0, c.path) && |c.path| == c.moves && c.moves == m + 1
    requires c.board == Replay(s0, c.path) && c.hash == StateHash(c.board)
    ensures var v2, d2, b2 := visited + {c.hash}, dist[c.hash := c.moves], boards[c.hash := c.board];
      && Queued(s0, qs + [c], v2, d2, b2, m) && Layered(qs + [c]) && Shallow(d2, m + 1)
      && v2 == closed + {h} + QHashes(qs + [c])
      && OnceQueued(qs + [c]) && Apart(closed, {h}, QHashes(qs + [c]))
  {
    QueuedInsert(s0, qs, visited, dist, boards, m, c);
    LayeredInsert(s0, qs, visited, dist, boards, m, c);
    ShallowInsert(dist, m + 1, c.hash);
    OpenInsert(visited, closed, {h}, qs, c);
    OnceQueuedPush(qs, c);
  }

  /** Enqueuing a hash that is not queued yet keeps every queued hash single. */
  lemma OnceQueuedPush(qs: seq<Entry>, c: Entry)
    requires OnceQueued(qs) && c.hash !in QHashes(qs)
    ensures OnceQueued(qs + [c])
  {
    var r := qs + [c];
    forall i, j | 0 <= i < j < |r| ensures r[i].hash != r[j].hash {
      assert r[i] == qs[i];
      if j < |qs| {
        assert r[j] == qs[j];
      } else {
        assert qs[i].hash in QHashes(qs);
      }
    }
  }

  /** A fresh, unsolved child of the open entry is visited and enqueued one
      move deeper. */
  lemma SearchInsert(s0: BoardState, qs: seq<Entry>, visited: set<StateKey>, dist: map<StateKey, int>,
                     boards: map<StateKey, BoardState>, closed: set<StateKey>, e: Entry, moves: seq<Step>, i: int)
    requires Expanding(s0, qs, visited, dist, boards, closed, e, moves, i) && i < |moves|
    requires Child(e, moves[i]).hash !in visited && !Solved(Child(e, moves[i]).board)
    ensures var c := Child(e, moves[i]);
      Expanding(s0, qs + [c], visited + {c.hash}, dist[c.hash := c.moves], boards[c.hash := c.board],
                closed, e, moves, i + 1)
  {
    var c := Child(e, moves[i]);
    assert closed <= dist.Keys;
    InsertBook(s0, visited, dist, boards, closed, e, moves[i]);
    InsertQueue(s0, qs, visited, dist, boards, closed, e.hash, e.moves, c);
    PartlyExpandedInsert(e.board, moves, i, e.moves, dist);
  }

  /** Every visited hash first reached in fewer moves than the open entry's
      has been expanded. */
  lemma ShallowerExpanded(qs: seq<Entry>, visited: set<StateKey>, dist: map<StateKey, int>,
                          boards: map<StateKey, BoardState>, closed: set<StateKey>, h0: StateKey, m: int)
    requires visited == dist.Keys && m <= MaxDepth
    requires forall h :: h in QHashes(qs) ==> h in dist && dist[h] >= m
    requires visited == closed + {h0} + QHashes(qs) && ClosedExpanded(closed, dist, boards)
    requires h0 in dist && dist[h0] == m
    ensures forall h :: h in visited && dist[h] < m ==> Expanded(h, dist, boards)
  {
    forall h | h in visited && dist[h] < m ensures Expanded(h, dist, boards) {
      assert h in closed;
    }
  }

  /** Queued entries are at least as deep as the frontier. */
  lemma QueuedDepths(s0: BoardState, qs: seq<Entry>, visited: set<StateKey>, dist: map<StateKey, int>,
                     boards: map<StateKey, BoardState>, frontier: int)
    requires Queued(s0, qs, visited, dist, boards, frontier)
    ensures forall h :: h in QHashes(qs) ==> h in dist && dist[h] >= frontier
  {
    forall h | h in QHashes(qs) ensures h in dist && dist[h] >= frontier {
      var k :| 0 <= k < |qs| && qs[k].hash == h;
      assert InQueue(s0, qs[k], visited, dist, boards, frontier);
    }
  }

  /** Extending a queued entry's path by a listed move gives a valid path to the child. */
  lemma ChildPath(s0: BoardState, e: Entry, st: Step)
    requires WellFormed(s0) && ValidPath(s0, e.path) && e.board == Replay(s0, e.path)
    requires st in PossibleMoves(e.board)
    ensures ValidPath(s0, e.path + [st])
    ensures Replay(s0, e.path + [st]) == MoveState(e.board, st.id, st.steps)
  {
    var p := e.path + [st];
    assert p[..|p| - 1] == e.path;
  }

  /** When the open entry's child solves the board, its path is valid and no
      valid path shorter than it solves the board. */
  lemma SearchFound(s0: BoardState, qs: seq<Entry>, visited: set<StateKey>, dist: map<StateKey, int>,
                    boards: map<StateKey, BoardState>, closed: set<StateKey>, e: Entry, moves: seq<Step>, i: int)
    requires Expanding(s0, qs, visited, dist, boards, closed, e, moves, i) && i < |moves|
    ensures ValidPath(s0, e.path + [moves[i]]) && |e.path + [moves[i]]| == e.moves + 1
    ensures Replay(s0, e.path + [moves[i]]) == MoveState(e.board, moves[i].id, moves[i].steps)
    ensures forall p :: ValidPath(s0, p) && Solved(Replay(s0, p)) ==> e.moves + 1 <= |p|
  {
    var st := moves[i];
    ChildPath(s0, e, st);
    assert KnownEntry(s0, e.hash, dist[e.hash], boards[e.hash]);
    QueuedDepths(s0, qs, visited, dist, boards, e.moves);
    ShallowerExpanded(qs, visited, dist, boards, closed, e.hash, e.moves);
    NoSolutionWithin(s0, visited, dist, boards, e.moves);
  }

  /** When the queue runs empty, no valid path within the depth cap solves the board. */
  lemma SearchExhausted(s0: BoardState, visited: set<StateKey>, dist: map<StateKey, int>,
                        boards: map<StateKey, BoardState>, closed: set<StateKey>, frontier: int)
    requires Search(s0, [], visited, dist, boards, closed, {}, frontier)
    ensures forall p :: ValidPath(s0, p) && |p| <= MaxDepth ==> !Solved(Replay(s0, p))
  {
    assert QHashes([]) == {};
    assert visited == closed;
    NoSolutionWithin(s0, visited, dist, boards, MaxDepth);
  }

  /** The ghost entries mirror the queue of (board, moves, path) triples. */
  ghost predicate Mirrors(queue: seq<(Board, int, seq<Step>)>, qs: seq<Entry>)
    reads set k | 0 <= k < |queue| :: queue[k].0
  {
    && |queue| == |qs|
    && forall k :: 0 <= k < |queue| ==>
         queue[k].0.State() == qs[k].board && queue[k].1 == qs[k].moves && queue[k].2 == qs[k].path
  }

  lemma MirrorsPop(queue: seq<(Board, int, seq<Step>)>, qs: seq<Entry>)
    requires Mirrors(queue, qs) && queue != []
    ensures Mirrors(queue[1..], qs[1..])
  {
    forall k | 0 <= k < |queue| - 1
      ensures queue[1..][k].0.State() == qs[1..][k].board
      ensures queue[1..][k].1 == qs[1..][k].moves && queue[1..][k].2 == qs[1..][k].path
    {
      assert queue[1..][k] == queue[k + 1] && qs[1..][k] == qs[k + 1];
    }
  }

  lemma MirrorsPush(queue: seq<(Board, int, seq<Step>)>, qs: seq<Entry>, b: Board, e: Entry)
    requires Mirrors(queue, qs) && b.State() == e.board
    ensures Mirrors(queue + [(b, e.moves, e.path)], qs + [e])
  {
    var q2, s2 := queue + [(b, e.moves, e.path)], qs + [e];
    forall k | 0 <= k < |q2|
      ensures q2[k].0.State() == s2[k].board && q2[k].1 == s2[k].moves && q2[k].2 == s2[k].path
    {
      if k < |queue| {
        assert q2[k] == queue[k] && s2[k] == qs[k];
      }
    }
  }

  /** `current.move(...)` followed by `get_state_hash()`: the new board is
      fresh, so the queued boards keep mirroring their entries. */
  method Successor(current: Board, st: Step, ghost queue: seq<(Board, int, seq<Step>)>, ghost qs: seq<Entry>)
    returns (next: Board, nextHash: StateKey)
    requires current.Valid() && Mirrors(queue, qs)
    ensures fresh(next) && next.Valid() && next.State() == MoveState(current.State(), st.id, st.steps)
    ensures nextHash == StateHash(next.State()) && Mirrors(queue, qs)
  {
    next := current.Move(st.id, st.steps);
    nextHash := next.GetStateHash();
  }

  lemma DiffShrinks(u: set<StateKey>, v: set<StateKey>, w: set<StateKey>)
    requires v <= w && v != w && w <= u
    ensures u - w < u - v
  {
    var x :| x in w && x !in v;
    assert x in u - v && x !in u - w;
  }

  /** The queue only grew at its end, and the first entry added to it has a
      hash outside v0. */
  ghost predicate Grown(qs0: seq<Entry>, qs: seq<Entry>, v0: set<StateKey>)
  {
    qs0 <= qs && (|qs| > |qs0| ==> qs[|qs0|].hash !in v0)
  }

  lemma GrownTrans(qs0: seq<Entry>, qs1: seq<Entry>, qs2: seq<Entry>, v0: set<StateKey>, v1: set<StateKey>,
                   fixed: set<StateKey>)
    requires Grown(qs0, qs1, v0) && Grown(qs1, qs2, v1)
    requires v0 == fixed + QHashes(qs0) && v1 == fixed + QHashes(qs1)
    ensures Grown(qs0, qs2, v0)
  {
    if |qs1| > |qs0| {
      assert qs2[|qs0|] == qs1[|qs0|];
    } else {
      assert qs1 == qs0;
    }
  }

  lemma QHashesPrefix(qs0: seq<Entry>, qs: seq<Entry>)
    requires qs0 <= qs
    ensures QHashes(qs0) <= QHashes(qs)
  {
    forall h | h in QHashes(qs0) ensures h in QHashes(qs) {
      var k :| 0 <= k < |qs0| && qs0[k].hash == h;
      assert qs[k] == qs0[k];
    }
  }

  /** After a board is expanded, visited has grown, and strictly so unless
      the queue did not grow. */
  lemma Progress(qs0: seq<Entry>, qs: seq<Entry>, v0: set<StateKey>, v: set<StateKey>,
                 closed: set<StateKey>, h: StateKey)
    requires Grown(qs0, qs, v0)
    requires v0 == closed + {h} + QHashes(qs0) && v == closed + {h} + {} + QHashes(qs)
    ensures v0 <= v && (v == v0 ==> |qs| == |qs0|)
  {
    QHashesPrefix(qs0, qs);
    if |qs| > |qs0| {
      assert qs[|qs0|].hash in QHashes(qs);
    }
  }

  /** One pass of solve_board's inner loop: take listed move `st` (the i-th)
      from the dequeued board; an unvisited result either is solved, which
      ends the search, or is visited and enqueued one move deeper. */
  method TryMove(current: Board, st: Step, m: int, p: seq<Step>, queue0: seq<(Board, int, seq<Step>)>,
                 visited0: set<StateKey>, ghost s0: BoardState, ghost e: Entry, ghost qs0: seq<Entry>,
                 ghost dist0: map<StateKey, int>, ghost boards0: map<StateKey, BoardState>,
                 ghost closed: set<StateKey>, ghost possible: seq<Step>, ghost i: int)
    returns (found: bool, newPath: seq<Step>, queue: seq<(Board, int, seq<Step>)>, visited: set<StateKey>,
             ghost qs: seq<Entry>, ghost dist: map<StateKey, int>, ghost boards: map<StateKey, BoardState>)
    requires Expanding(s0, qs0, visited0, dist0, boards0, closed, e, possible, i) && i < |possible|
    requires st == possible[i] && Mirrors(queue0, qs0)
    requires current.State() == e.board && m == e.moves && p == e.path
    ensures found ==> ValidPath(s0, newPath) && |newPath| == m + 1 && Solved(Replay(s0, newPath))
    ensures found ==> forall q :: ValidPath(s0, q) && Solved(Replay(s0, q)) ==> m + 1 <= |q|
    ensures !found ==> Expanding(s0, qs, visited, dist, boards, closed, e, possible, i + 1)
    ensures !found ==> Mirrors(queue, qs) && Grown(qs0, qs, visited0)
  {
    queue, visited, qs, dist, boards := queue0, visited0, qs0, dist0, boards0;
    var next, nextHash := Successor(current, st, queue, qs);
    found, newPath := false, [];
    if nextHash !in visited {
      newPath := p + [st];
      if Solved(next.State()) {
        SearchFound(s0, qs, visited, dist, boards, closed, e, possible, i);
        return true, newPath, queue, visited, qs, dist, boards;
      }
      ghost var c := Child(e, st);
      SearchInsert(s0, qs, visited, dist, boards, closed, e, possible, i);
      MirrorsPush(queue, qs, next, c);
      visited := visited + {nextHash};
      queue := queue + [(next, m + 1, newPath)];
      qs, dist, boards := qs + [c], dist[c.hash := c.moves], boards[c.hash := c.board];
    } else {
      SearchSkip(s0, qs, visited, dist, boards, closed, e, possible, i);
    }
  }

  /** The body of solve_board's loop for a dequeued board below the depth
      cap: every listed move is taken and each board with an unvisited hash
      either is solved, which ends the search, or is visited and enqueued
      one move deeper. */
  method ExpandBoard(current: Board, m: int, p: seq<Step>, queue0: seq<(Board, int, seq<Step>)>,
                     visited0: set<StateKey>, ghost s0: BoardState, ghost e: Entry, ghost qs0: seq<Entry>,
                     ghost dist0: map<StateKey, int>, ghost boards0: map<StateKey, BoardState>,
                     ghost closed: set<StateKey>)
    returns (found: bool, newPath: seq<Step>, queue: seq<(Board, int, seq<Step>)>, visited: set<StateKey>,
             ghost qs: seq<Entry>, ghost dist: map<StateKey, int>, ghost boards: map<StateKey, BoardState>)
    requires Search(s0, qs0, visited0, dist0, boards0, closed, {e.hash}, e.moves)
    requires InQueue(s0, e, visited0, dist0, boards0, e.moves) && Mirrors(queue0, qs0)
    requires current.State() == e.board && m == e.moves && p == e.path && m < MaxDepth
    ensures found ==> ValidPath(s0, newPath) && |newPath| == m + 1 && Solved(Replay(s0, newPath))
    ensures found ==> forall q :: ValidPath(s0, q) && Solved(Replay(s0, q)) ==> m + 1 <= |q|
    ensures !found ==> Search(s0, qs, visited, dist, boards, closed + {e.hash}, {}, e.moves)
    ensures !found ==> Mirrors(queue, qs) && Grown(qs0, qs, visited0)
  {
    queue, visited, qs, dist, boards := queue0, visited0, qs0, dist0, boards0;
    var possible := current.GetPossibleMoves();
    ExpandStart(s0, qs, visited, dist, boards, closed, e, possible);
    var i := 0;
    while i < |possible|
      invariant Expanding(s0, qs, visited, dist, boards, closed, e, possible, i)
      invariant Mirrors(queue, qs)
      invariant current.State() == e.board
      invariant Grown(qs0, qs, visited0)
    {
      ghost var qsBefore, visitedBefore := qs, visited;
      found, newPath, queue, visited, qs, dist, boards :=
        TryMove(current, possible[i], m, p, queue, visited, s0, e, qs, dist, boards, closed, possible, i);
      if found {
        return;
      }
      GrownTrans(qs0, qsBefore, qs, visited0, visitedBefore, closed + {e.hash});
      i := i + 1;
    }
    ExpandDone(s0, qs, visited, dist, boards, closed, e, possible);
    found, newPath := false, [];
  }

  /** solve_board: breadth-first search from `board`, returning whether a
      solution was found, its number of moves and the moves themselves. */
  method SolveBoard(board: Board) returns (solved: bool, moves: int, path: seq<Step>)
    requires board.Valid()
    ensures solved ==> 0 <= moves <= MaxDepth && |path| == moves
    ensures solved ==> ValidPath(board.State(), path) && Solved(Replay(board.State(), path))
    ensures solved ==> forall p :: ValidPath(board.State(), p) && Solved(Replay(board.State(), p)) ==> moves <= |p|
    ensures !solved ==> moves == 0 && path == []
    ensures !solved ==> forall p :: ValidPath(board.State(), p) && |p| <= MaxDepth ==> !Solved(Replay(board.State(), p))
    ensures Solved(board.State()) ==> solved && moves == 0 && path == []
  {
    ghost var s0 := board.State();
    var startHash := board.GetStateHash();
    var queue: seq<(Board, int, seq<Step>)> := [(board, 0, [])];
    var visited: set<StateKey> := {startHash};
    if Solved(board.State()) {
      return true, 0, [];
    }
    SearchStart(s0);
    ghost var qs := [Entry(startHash, s0, 0, [])];
    ghost var dist := map[startHash := 0];
    ghost var boards := map[startHash := s0];
    ghost var closed: set<StateKey> := {};
    ghost var frontier := 0;
    while queue != []
      invariant Search(s0, qs, visited, dist, boards, closed, {}, frontier)
      invariant Mirrors(queue, qs) && board.State() == s0 && !Solved(s0)
      decreases Universe(s0) - visited, |queue|
    {
      var current, m, p := queue[0].0, queue[0].1, queue[0].2;
      ghost var e := qs[0];
      assert current.State() == e.board && m == e.moves && p == e.path;
      ghost var visited0 := visited;
      SearchPop(s0, qs, visited, dist, boards, closed, frontier);
      MirrorsPop(queue, qs);
      queue, qs, frontier := queue[1..], qs[1..], e.moves;
      ghost var qs1 := qs;
      if m >= MaxDepth {
        SearchClose(s0, qs, visited, dist, boards, closed, e);
        closed := closed + {e.hash};
        continue;
      }
      var found, newPath;
      found, newPath, queue, visited, qs, dist, boards :=
        ExpandBoard(current, m, p, queue, visited, s0, e, qs, dist, boards, closed);
      if found {
        return true, m + 1, newPath;
      }
      Progress(qs1, qs, visited0, visited, closed, e.hash);
      closed := closed + {e.hash};
      if visited != visited0 {
        KnownInUniverse(s0, visited, dist, boards);
        DiffShrinks(Universe(s0), visited0, visited);
      }
    }
    SearchExhausted(s0, visited, dist, boards, closed, frontier);
    return false, 0, [];
  }

  /** get_moves_count: the minimal number of moves when a solution within
      the depth cap exists, -1 otherwise. */
  method GetMovesCount(board: Board) returns (r: int)
    requires board.Valid()
    ensures r == -1 || 0 <= r <= MaxDepth
    ensures r != -1 <==> exists p :: ValidPath(board.State(), p) && |p| <= MaxDepth && Solved(Replay(board.State(), p))
    ensures r != -1 ==> exists p :: ValidPath(board.State(), p) && |p| == r && Solved(Replay(board.State(), p))
    ensures r != -1 ==> forall p :: ValidPath(board.State(), p) && Solved(Replay(board.State(), p)) ==> r <= |p|
  {
    var solved, moves, path := SolveBoard(board);
    r := if solved then moves else -1;
  }
}
