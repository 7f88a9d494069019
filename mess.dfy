/**
 * Mess bookkeeping: how many dirty items a floor gets, where they go (a
 * prefix of a Fisher-Yates shuffle of the spawn positions), and the
 * outstanding-item counter that raises the floor-cleaned notification.
 *
 * The spawn curve, already evaluated and rounded, is a function from floor
 * number to an integer; the random draws of the shuffle are a parameter.
 */
module Mess {
  import opened Wrappers
  import opened Engine

  /** Integer clamp in the engine's form: below `lo` gives `lo`, above `hi` gives `hi`. */
  function Clamp(value: int, lo: int, hi: int): (r: int) {
    if value < lo then lo else if value > hi then hi else value
  }

  /** The number of items to spawn for a rounded curve value and `positions` spawn points. */
  function SpawnCount(rounded: int, positions: nat): (n: nat)
    ensures n <= positions
    ensures 0 <= rounded <= positions ==> n == rounded
    ensures rounded < 0 ==> n == 0
    ensures rounded > positions ==> n == positions
  {
    Clamp(rounded, 0, positions)
  }

  /** The random draws of a shuffle: the draw for index i lies in [0, i]. */
  ghost predicate ValidDraws<T>(s: seq<T>, draws: seq<nat>) {
    |draws| == |s| && forall i :: 0 <= i < |draws| ==> draws[i] <= i
  }

  function Swap<T>(s: seq<T>, i: nat, j: nat): (r: seq<T>)
    requires i < |s| && j < |s|
  {
    s[i := s[j]][j := s[i]]
  }

  /** The list after the shuffle loop has run from index i down to 1. */
  function ShuffleFrom<T>(s: seq<T>, draws: seq<nat>, i: int): (r: seq<T>)
    requires ValidDraws(s, draws) && i < |s|
    decreases i
  {
    if i <= 0 then s
    else ShuffleFrom(Swap(s, i, draws[i]), draws, i - 1)
  }

  /** The whole shuffle: the loop starts at the last index. */
  function Shuffled<T>(s: seq<T>, draws: seq<nat>): (r: seq<T>)
    requires ValidDraws(s, draws)
  {
    ShuffleFrom(s, draws, |s| - 1)
  }

  ghost predicate Distinct<T>(s: seq<T>) {
    forall i, j :: 0 <= i < j < |s| ==> s[i] != s[j]
  }

  lemma SwapPermutes<T>(s: seq<T>, i: nat, j: nat)
    requires i < |s| && j < |s|
    ensures |Swap(s, i, j)| == |s|
    ensures multiset(Swap(s, i, j)) == multiset(s)
  {
  }

  lemma SwapKeepsDistinct<T>(s: seq<T>, i: nat, j: nat)
    requires i < |s| && j < |s| && Distinct(s)
    ensures Distinct(Swap(s, i, j))
  {
  }

  /** The shuffle rearranges its input: same length, same multiset of elements. */
  lemma {:induction false} ShuffleFromPermutes<T>(s: seq<T>, draws: seq<nat>, i: int)
    requires ValidDraws(s, draws) && i < |s|
    ensures |ShuffleFrom(s, draws, i)| == |s|
    ensures multiset(ShuffleFrom(s, draws, i)) == multiset(s)
    decreases i
  {
    if i > 0 {
      SwapPermutes(s, i, draws[i]);
      ShuffleFromPermutes(Swap(s, i, draws[i]), draws, i - 1);
    }
  }

  lemma ShufflePermutes<T>(s: seq<T>, draws: seq<nat>)
    requires ValidDraws(s, draws)
    ensures |Shuffled(s, draws)| == |s|
    ensures multiset(Shuffled(s, draws)) == multiset(s)
  {
    ShuffleFromPermutes(s, draws, |s| - 1);
  }

  lemma {:induction false} ShuffleFromKeepsDistinct<T>(s: seq<T>, draws: seq<nat>, i: int)
    requires ValidDraws(s, draws) && i < |s| && Distinct(s)
    ensures Distinct(ShuffleFrom(s, draws, i))
    decreases i
  {
    if i > 0 {
      SwapKeepsDistinct(s, i, draws[i]);
      ShuffleFromKeepsDistinct(Swap(s, i, draws[i]), draws, i - 1);
    }
  }

  /** Spawn points taken as a prefix of the shuffle never repeat when the positions do not. */
  lemma SpawnPointsDistinct<T>(positions: seq<T>, draws: seq<nat>, count: nat)
    requires ValidDraws(positions, draws) && Distinct(positions) && count <= |positions|
    ensures |Shuffled(positions, draws)| == |positions|
    ensures Distinct(Shuffled(positions, draws)[..count])
    ensures forall x :: x in Shuffled(positions, draws)[..count] ==> x in positions
  {
    ShufflePermutes(positions, draws);
    ShuffleFromKeepsDistinct(positions, draws, |positions| - 1);
    var t := Shuffled(positions, draws);
    forall x | x in t[..count] ensures x in positions {
      assert x in multiset(t);
    }
  }

  class MessManager {
    /** The children of the office-desktop positions actor. */
    const spawnPositions: seq<Actor>
    /** The spawn curve, evaluated at a floor and rounded; None when no curve is assigned. */
    const curve: Option<int -> int>
    /** How many dirty-item models are assigned (0 also for a missing list). */
    const modelCount: nat

    var dirtyItems: int

    constructor (positions: seq<Actor>, spawnCurve: Option<int -> int>, models: nat)
      ensures spawnPositions == positions && curve == spawnCurve && modelCount == models
      ensures dirtyItems == 0
    {
      spawnPositions := positions;
      curve := spawnCurve;
      modelCount := models;
      dirtyItems := 0;
    }

    /**
     * The floor-change handler.  With a curve and at least one model it spawns
     * SpawnCount(curve(floor), |spawnPositions|) items at the first shuffled
     * positions, one counter increment each; otherwise it does nothing.  It
     * never raises the floor-cleaned notification.
     */
    method OnFloorChanged(floor: int, draws: seq<nat>) returns (spawned: seq<Actor>)
      requires ValidDraws(spawnPositions, draws)
      modifies this
      ensures curve.None? || modelCount == 0 ==> spawned == [] && dirtyItems == old(dirtyItems)
      ensures curve.Some? && modelCount > 0 ==>
        var count := SpawnCount(curve.value(floor), |spawnPositions|);
        |Shuffled(spawnPositions, draws)| == |spawnPositions| &&
        spawned == Shuffled(spawnPositions, draws)[..count] &&
        dirtyItems == old(dirtyItems) + count
    {
      spawned := [];
      if curve.None? {
        return;
      }

      var numberOfDirtyItems := SpawnCount(curve.value(floor), |spawnPositions|);

      if modelCount == 0 {
        return;
      }

      var n := |spawnPositions|;
      var positions := spawnPositions;
      var shuffled := new Actor[n](k requires 0 <= k < n => positions[k]);
      assert shuffled[..] == spawnPositions;
      Shuffle(shuffled, draws);
      ShufflePermutes(spawnPositions, draws);

      var i := 0;
      while i < numberOfDirtyItems
        invariant 0 <= i <= numberOfDirtyItems
        invariant shuffled[..] == Shuffled(spawnPositions, draws)
        invariant spawned == shuffled[..i]
        invariant dirtyItems == old(dirtyItems) + i
      {
        var spawnPoint := shuffled[i];
        spawned := spawned + [spawnPoint];
        dirtyItems := dirtyItems + 1;
        i := i + 1;
      }
    }

    /** Item interaction: one fewer outstanding item; floor-cleaned fires whenever the counter is at most zero. */
    method OnDirtyItemInteracted() returns (cleaned: bool)
      modifies this
      ensures dirtyItems == old(dirtyItems) - 1
      ensures cleaned <==> dirtyItems <= 0
    {
      dirtyItems := dirtyItems - 1;
      if dirtyItems > 0 {
        return false;
      }
      return true;
    }

    /** Fisher-Yates in place: for i from the last index down to 1, swap element i with element draws[i]. */
    static method Shuffle<T>(list: array<T>, draws: seq<nat>)
      requires ValidDraws(list[..], draws)
      modifies list
      ensures list[..] == Shuffled(old(list[..]), draws)
    {
      var i := list.Length - 1;
      while i > 0
        invariant -1 <= i < list.Length
        invariant ValidDraws(list[..], draws)
        invariant ShuffleFrom(list[..], draws, i) == Shuffled(old(list[..]), draws)
      {
        var j := draws[i];
        assert list[..][i := list[j]][j := list[i]] == Swap(list[..], i, j);
        list[i], list[j] := list[j], list[i];
        i := i - 1;
      }
    }
  }
}
