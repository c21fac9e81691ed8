/**
 * The level serialiser of the generator (generator/generator.py,
 * convert_to_game_format): a generated level, i.e. its vehicle dictionary and
 * its difficulty score, becomes the game's level record with one descriptor
 * per vehicle, the target first and the others renamed car1, truck2, ...
 */
module Generator {
  import opened Wrappers
  import opened Strings
  import opened RushHour

  /** The dictionary generate_random_level returns: the board's vehicle
      dictionary (with its iteration order) and the solver's move count. */
  datatype GeneratedLevel = GeneratedLevel(difficultyScore: int, vehicles: map<string, Vehicle>, order: seq<string>)

  /** One entry of the game's "vehicles" list; `isTarget` is the
      `"is_target": True` key, which only the target's entry carries. */
  datatype Descriptor = Descriptor(id: string, orientation: string, length: int, row: int, col: int, isTarget: bool)

  /** The game's level record. */
  datatype GameLevel = GameLevel(id: int, difficulty: string, minMoves: int, vehicles: seq<Descriptor>)

  /** A Python dictionary: its iteration order lists each key exactly once. */
  ghost predicate DictShaped(level: GeneratedLevel)
  {
    Distinct(level.order) && forall id :: id in level.vehicles <==> id in level.order
  }

  /** The game id prefix: "car" for length 2, "truck" for anything else. */
  function Prefix(v: Vehicle): string
  {
    if v.length == 2 then "car" else "truck"
  }

  /** The target's entry: its position, with orientation and length fixed. */
  function TargetDescriptor(t: Vehicle): Descriptor
  {
    Descriptor("target", "horizontal", 2, t.row, t.col, true)
  }

  /** The entry of a non-target vehicle numbered n. */
  function Describe(v: Vehicle, n: nat): Descriptor
  {
    Descriptor(Prefix(v) + NatToString(n), v.orientation, v.length, v.row, v.col, false)
  }

  /** How many of the first n keys are not "target". */
  function NonTargets(ids: seq<string>, n: int): nat
    requires 0 <= n <= |ids|
  {
    if n == 0 then 0
    else NonTargets(ids, n - 1) + if ids[n - 1] == "target" then 0 else 1
  }

  /** Every key of the iteration order is a key of the dictionary. */
  ghost predicate Covered(vs: map<string, Vehicle>, ids: seq<string>)
  {
    forall i :: 0 <= i < |ids| ==> ids[i] in vs
  }

  /** The entries the loop appends for the first n keys, numbered from 1 in
      order and skipping "target". */
  function Entries(vs: map<string, Vehicle>, ids: seq<string>, n: int): seq<Descriptor>
    requires 0 <= n <= |ids| && Covered(vs, ids)
  {
    if n == 0 then []
    else
      var id := ids[n - 1];
      Entries(vs, ids, n - 1) + if id == "target" then [] else [Describe(vs[id], NonTargets(ids, n - 1) + 1)]
  }

  lemma DictCovered(level: GeneratedLevel)
    requires DictShaped(level)
    ensures Covered(level.vehicles, level.order)
  {
    forall i | 0 <= i < |level.order| ensures level.order[i] in level.vehicles {
      assert level.order[i] in level.order;
    }
  }

  /** convert_to_game_format's result; None where the lookup of 'target' raises KeyError. */
  function GameFormat(level: GeneratedLevel, levelId: int): Option<GameLevel>
    requires DictShaped(level)
  {
    if "target" !in level.vehicles then None
    else
      DictCovered(level);
      var rest := Entries(level.vehicles, level.order, |level.order|);
      Some(GameLevel(levelId, "Generated", level.difficultyScore,
                     [TargetDescriptor(level.vehicles["target"])] + rest))
  }

  /** convert_to_game_format: the target's entry, then one entry per other
      vehicle in iteration order, counting non-target vehicles from 1. */
  method ConvertToGameFormat(level: GeneratedLevel, levelId: int) returns (r: Option<GameLevel>)
    requires DictShaped(level)
    ensures r == GameFormat(level, levelId)
    ensures r.None? <==> "target" !in level.vehicles
  {
    if "target" !in level.vehicles {
      return None;
    }
    DictCovered(level);
    var target := level.vehicles["target"];
    var vehicles := [Descriptor("target", "horizontal", 2, target.row, target.col, true)];
    var count := 1;
    var i := 0;
    while i < |level.order|
      invariant 0 <= i <= |level.order|
      invariant count == NonTargets(level.order, i) + 1
      invariant vehicles == [TargetDescriptor(target)] + Entries(level.vehicles, level.order, i)
    {
      var vId := level.order[i];
      LoopStep(level.vehicles, level.order, i, target, vehicles, count);
      if vId == "target" {
        i := i + 1;
        continue;
      }
      var v := level.vehicles[vId];
      var prefix := if v.length == 2 then "car" else "truck";
      var finalId := prefix + NatToString(count);
      assert Descriptor(finalId, v.orientation, v.length, v.row, v.col, false) == Describe(v, count);
      count := count + 1;
      vehicles := vehicles + [Descriptor(finalId, v.orientation, v.length, v.row, v.col, false)];
      i := i + 1;
    }
    return Some(GameLevel(levelId, "Generated", level.difficultyScore, vehicles));
  }

  /** The loop invariant of convert_to_game_format carried over position i:
      "target" is skipped, any other key appends its entry and counts. */
  lemma LoopStep(vs: map<string, Vehicle>, ids: seq<string>, i: int, target: Vehicle,
                 vehicles: seq<Descriptor>, count: int)
    requires Covered(vs, ids) && 0 <= i < |ids|
    requires count == NonTargets(ids, i) + 1
    requires vehicles == [TargetDescriptor(target)] + Entries(vs, ids, i)
    ensures ids[i] == "target" ==>
              count == NonTargets(ids, i + 1) + 1 &&
              vehicles == [TargetDescriptor(target)] + Entries(vs, ids, i + 1)
    ensures ids[i] != "target" ==>
              count + 1 == NonTargets(ids, i + 1) + 1 &&
              vehicles + [Describe(vs[ids[i]], count)] == [TargetDescriptor(target)] + Entries(vs, ids, i + 1)
  {
  }

  /** One entry per non-target key. */
  lemma {:induction false} EntriesLength(vs: map<string, Vehicle>, ids: seq<string>, n: int)
    requires 0 <= n <= |ids| && Covered(vs, ids)
    ensures |Entries(vs, ids, n)| == NonTargets(ids, n)
  {
    if n > 0 {
      EntriesLength(vs, ids, n - 1);
    }
  }

  /** The entries of fewer keys are a prefix of the entries of more. */
  lemma {:induction false} EntriesPrefix(vs: map<string, Vehicle>, ids: seq<string>, k: int, n: int)
    requires 0 <= k <= n <= |ids| && Covered(vs, ids)
    ensures Entries(vs, ids, k) <= Entries(vs, ids, n)
  {
    if k < n {
      EntriesPrefix(vs, ids, k, n - 1);
    }
  }

  /** The non-target key at position j gets the entry numbered by the
      non-target keys before it plus one, copying the vehicle's fields. */
  lemma EntriesAt(vs: map<string, Vehicle>, ids: seq<string>, j: int)
    requires Covered(vs, ids) && 0 <= j < |ids| && ids[j] != "target"
    ensures NonTargets(ids, j) < |Entries(vs, ids, |ids|)|
    ensures Entries(vs, ids, |ids|)[NonTargets(ids, j)] == Describe(vs[ids[j]], NonTargets(ids, j) + 1)
  {
    EntriesLength(vs, ids, j);
    EntriesPrefix(vs, ids, j + 1, |ids|);
    var upTo := Entries(vs, ids, j + 1);
    assert upTo == Entries(vs, ids, j) + [Describe(vs[ids[j]], NonTargets(ids, j) + 1)];
  }

  /** A renamed entry: "car" or "truck" followed by the decimal n, not marked as the target. */
  predicate Numbered(d: Descriptor, n: nat)
  {
    (d.id == "car" + NatToString(n) || d.id == "truck" + NatToString(n)) && !d.isTarget
  }

  lemma DescribeNumbered(v: Vehicle, n: nat)
    ensures Numbered(Describe(v, n), n)
  {
  }

  /** The k-th appended entry is numbered k + 1. */
  lemma {:induction false} EntriesNumbered(vs: map<string, Vehicle>, ids: seq<string>, n: int)
    requires 0 <= n <= |ids| && Covered(vs, ids)
    ensures forall k :: 0 <= k < |Entries(vs, ids, n)| ==> Numbered(Entries(vs, ids, n)[k], k + 1)
  {
    if n > 0 {
      EntriesNumbered(vs, ids, n - 1);
      EntriesLength(vs, ids, n - 1);
      var l, li := Entries(vs, ids, n), Entries(vs, ids, n - 1);
      var tail := if ids[n - 1] == "target" then [] else [Describe(vs[ids[n - 1]], |li| + 1)];
      assert l == li + tail;
      forall k | 0 <= k < |l| ensures Numbered(l[k], k + 1) {
        if k < |li| {
          assert l[k] == li[k];
        } else {
          assert l[k] == tail[0];
          DescribeNumbered(vs[ids[n - 1]], |li| + 1);
        }
      }
    }
  }

  /** Renamed entries with different numbers have different ids. */
  lemma NumberedDistinct(d1: Descriptor, n1: nat, d2: Descriptor, n2: nat)
    requires Numbered(d1, n1) && Numbered(d2, n2) && n1 != n2
    ensures d1.id != d2.id
  {
    if d1.id == d2.id {
      var a := d1.id;
      if a[0] == 'c' {
        assert a[3..] == NatToString(n1) == NatToString(n2);
      } else {
        assert a[5..] == NatToString(n1) == NatToString(n2);
      }
      NatToStringInjective(n1, n2);
    }
  }

  /** No renamed entry is called "target". */
  lemma NumberedNotTarget(d: Descriptor, n: nat)
    requires Numbered(d, n)
    ensures d.id != "target"
  {
    assert d.id[0] == 'c' || d.id[1] == 'r';
  }

  /** Later non-target positions get larger numbers. */
  lemma {:induction false} NonTargetsIncreasing(ids: seq<string>, j1: int, j2: int)
    requires 0 <= j1 < j2 <= |ids| && ids[j1] != "target"
    ensures NonTargets(ids, j1) < NonTargets(ids, j2)
  {
    if j1 < j2 - 1 {
      NonTargetsIncreasing(ids, j1, j2 - 1);
    }
  }

  /** With "target" only at position t, the first n > t keys hold n - 1 others. */
  lemma {:induction false} NonTargetsOnce(ids: seq<string>, n: int, t: int)
    requires 0 <= t < n <= |ids| && ids[t] == "target"
    requires forall i :: 0 <= i < n && i != t ==> ids[i] != "target"
    ensures NonTargets(ids, n) == n - 1
  {
    if n - 1 == t {
      NonTargetsNone(ids, t);
    } else {
      NonTargetsOnce(ids, n - 1, t);
    }
  }

  lemma {:induction false} NonTargetsNone(ids: seq<string>, n: int)
    requires 0 <= n <= |ids|
    requires forall i :: 0 <= i < n ==> ids[i] != "target"
    ensures NonTargets(ids, n) == n
  {
    if n > 0 {
      NonTargetsNone(ids, n - 1);
    }
  }

  /** The level record: the caller's id, difficulty "Generated", the score
      as minMoves, the target's entry first, and one entry per vehicle, the
      others numbered 1, 2, ... in order and none marked as the target. */
  lemma GameFormatShape(level: GeneratedLevel, levelId: int)
    requires DictShaped(level) && "target" in level.vehicles
    ensures GameFormat(level, levelId).Some?
    ensures var g := GameFormat(level, levelId).value;
      var t := level.vehicles["target"];
      && g.id == levelId && g.difficulty == "Generated" && g.minMoves == level.difficultyScore
      && |g.vehicles| == |level.order| == |level.vehicles|
      && g.vehicles[0] == Descriptor("target", "horizontal", 2, t.row, t.col, true)
      && forall k :: 1 <= k < |g.vehicles| ==> Numbered(g.vehicles[k], k)
  {
    var vs, ids := level.vehicles, level.order;
    DictCovered(level);
    EntriesLength(vs, ids, |ids|);
    EntriesNumbered(vs, ids, |ids|);
    var t :| 0 <= t < |ids| && ids[t] == "target";
    NonTargetsOnce(ids, |ids|, t);
    DistinctCard(ids);
    assert vs.Keys == set x | x in ids;
    var g := GameFormat(level, levelId).value;
    forall k | 1 <= k < |g.vehicles| ensures Numbered(g.vehicles[k], k) {
      assert g.vehicles[k] == Entries(vs, ids, |ids|)[k - 1];
    }
  }

  /** Every vehicle other than the target gets the entry numbered by its
      place among the non-target keys, copying orientation, length, row and
      col, with prefix "car" exactly when its length is 2; later vehicles get
      later numbers. */
  lemma GameFormatVehicle(level: GeneratedLevel, levelId: int, j: int)
    requires DictShaped(level) && "target" in level.vehicles
    requires 0 <= j < |level.order| && level.order[j] != "target"
    ensures var g := GameFormat(level, levelId).value;
      var v := level.vehicles[level.order[j]];
      var n := NonTargets(level.order, j) + 1;
      && n < |g.vehicles|
      && g.vehicles[n] == Descriptor(Prefix(v) + NatToString(n), v.orientation, v.length, v.row, v.col, false)
      && (Prefix(v) == "car" <==> v.length == 2)
      && forall j2 :: j < j2 < |level.order| && level.order[j2] != "target" ==>
           n < NonTargets(level.order, j2) + 1
  {
    DictCovered(level);
    var vs, ids := level.vehicles, level.order;
    EntriesAt(vs, ids, j);
    var rest := Entries(vs, ids, |ids|);
    var n := NonTargets(ids, j) + 1;
    assert GameFormat(level, levelId).value.vehicles == [TargetDescriptor(vs["target"])] + rest;
    assert ([TargetDescriptor(vs["target"])] + rest)[n] == rest[n - 1];
    var v := vs[ids[j]];
    assert rest[n - 1] == Describe(v, n);
    assert Describe(v, n).id == Prefix(v) + NatToString(n);
    forall j2 | j < j2 < |level.order| && level.order[j2] != "target"
      ensures NonTargets(level.order, j) < NonTargets(level.order, j2)
    {
      NonTargetsIncreasing(level.order, j, j2);
    }
  }

  /** The game ids of one level are pairwise distinct. */
  lemma GameFormatIdsDistinct(level: GeneratedLevel, levelId: int)
    requires DictShaped(level) && "target" in level.vehicles
    ensures var g := GameFormat(level, levelId).value;
      forall a, b :: 0 <= a < b < |g.vehicles| ==> g.vehicles[a].id != g.vehicles[b].id
  {
    var g := GameFormat(level, levelId).value;
    GameFormatShape(level, levelId);
    forall a, b | 0 <= a < b < |g.vehicles| ensures g.vehicles[a].id != g.vehicles[b].id {
      if a == 0 {
        NumberedNotTarget(g.vehicles[b], b);
      } else {
        NumberedDistinct(g.vehicles[a], a, g.vehicles[b], b);
      }
    }
  }
}
