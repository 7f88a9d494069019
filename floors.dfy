/**
 * Floor progression: a fixed array of floor records, a pointer to the
 * current one (null at the ground floor), and the advance handler that
 * gates on cleanliness and routes by direction and anomaly.
 *
 * FloorData records are objects: FindFloorNumber compares references,
 * and the handlers write their fields in place.  The ghost state `index`
 * and the function Records() give the abstract view used by the contracts.
 */
module Floors {
  import opened Wrappers
  import opened Elevator

  /** Number of floors in the building. */
  const FloorCount: nat := 5

  class FloorData {
    var isCleaned: bool
    var hasAnomaly: bool

    /** A new record carries the language defaults: not cleaned, no anomaly. */
    constructor ()
      ensures !isCleaned && !hasAnomaly
    {
      isCleaned := false;
      hasAnomaly := false;
    }
  }

  /** The two flags of one floor record. */
  datatype Flags = Flags(cleaned: bool, anomaly: bool)

  /** The routing rule of a cleaned floor: true means back to ground, false means one floor deeper. */
  predicate ReturnsToGround(hasAnomaly: bool, direction: Direction) {
    (!hasAnomaly && direction == Down) || (hasAnomaly && direction == Up)
  }

  class FloorManager {
    var floors: array<FloorData?>
    var currentFloor: FloorData?
    /** The position of currentFloor in floors; -1 at the ground floor. */
    ghost var index: int

    ghost predicate Valid()
      reads this, floors
    {
      floors.Length == FloorCount &&
      (forall i :: 0 <= i < floors.Length ==> floors[i] != null) &&
      (forall i, j :: 0 <= i < j < floors.Length ==> floors[i] != floors[j]) &&
      -1 <= index < floors.Length &&
      currentFloor == (if index < 0 then null else floors[index])
    }

    /** The flags of every floor record, in floor order. */
    ghost function Records(): (r: seq<Flags>)
      requires Valid()
      reads this, floors, floors[..]
      ensures |r| == FloorCount
    {
      var fs := floors;
      seq(fs.Length, i requires 0 <= i < fs.Length && fs[i] != null reads fs, fs[..] =>
        Flags(fs[i].isCleaned, fs[i].hasAnomaly))
    }

    /** Awake: allocate the five records (none cleaned, none with an anomaly) and start at ground. */
    constructor ()
      ensures Valid() && fresh(floors) && index == -1
      ensures forall i :: 0 <= i < floors.Length ==> fresh(floors[i])
      ensures Records() == seq(FloorCount, _ => Flags(false, false))
    {
      floors := new FloorData?[FloorCount];
      currentFloor := null;
      index := -1;
      new;
      InitializeFloors();
      GoToGroundFloor();
    }

    method InitializeFloors()
      requires floors.Length == FloorCount
      modifies floors
      ensures forall i :: 0 <= i < floors.Length ==>
        floors[i] != null && fresh(floors[i]) && !floors[i].isCleaned && !floors[i].hasAnomaly
      ensures forall i, j :: 0 <= i < j < floors.Length ==> floors[i] != floors[j]
    {
      var i := 0;
      while i < FloorCount
        invariant 0 <= i <= FloorCount
        invariant forall k :: 0 <= k < i ==>
          floors[k] != null && fresh(floors[k]) && !floors[k].isCleaned && !floors[k].hasAnomaly
        invariant forall k, l :: 0 <= k < l < i ==> floors[k] != floors[l]
      {
        var floor := new FloorData();
        floors[i] := floor;
        i := i + 1;
      }
    }

    /**
     * The advance handler.  Ground always advances to the first floor; an
     * uncleaned floor refuses; a cleaned floor goes back to ground or one
     * floor deeper by the routing rule.  `emitted` is the value passed to the
     * floor-change notification, None when it is not raised.
     */
    method OnFloorAdvanceRequested(direction: Direction) returns (ok: bool, emitted: Option<int>)
      requires Valid()
      modifies this, floors[..]
      ensures Valid() && floors == old(floors)
      ensures old(index) == -1 ==>
        ok && emitted == Some(1) && index == 0 && Records() == old(Records())
      ensures old(index) >= 0 && !old(Records())[old(index)].cleaned ==>
        !ok && emitted == None && index == old(index) && Records() == old(Records())
      ensures old(index) >= 0 && old(Records())[old(index)].cleaned &&
              ReturnsToGround(old(Records())[old(index)].anomaly, direction) ==>
        ok && emitted == Some(-1) && index == -1 && Records() == old(Records())
      ensures old(index) >= 0 && old(Records())[old(index)].cleaned &&
              !ReturnsToGround(old(Records())[old(index)].anomaly, direction) && old(index) < FloorCount - 1 ==>
        ok && index == old(index) + 1 && emitted == Some(index + 1) &&
        Records() == old(Records())[index := Flags(false, false)]
      ensures old(index) == FloorCount - 1 && old(Records())[old(index)].cleaned &&
              !ReturnsToGround(old(Records())[old(index)].anomaly, direction) ==>
        ok && index == old(index) && emitted == Some(FloorCount) && Records() == old(Records())
    {
      if currentFloor == null {
        GoToNextFloor();
        return true, Some(1);
      }

      var cleaned := IsCurrentFloorCleaned();
      if !cleaned {
        return false, None;
      }

      var hasAnomaly := currentFloor.hasAnomaly;
      var isGoingDown := direction == Down;
      var isGoingUp := direction == Up;

      emitted := None;
      if (!hasAnomaly && isGoingDown) || (hasAnomaly && isGoingUp) {
        GoToGroundFloor();
        emitted := Some(-1);
      } else if (hasAnomaly && isGoingDown) || (!hasAnomaly && isGoingUp) {
        GoToNextFloor();
        var number := FindFloorNumber(currentFloor);
        emitted := Some(number + 1);
      }
      ok := true;
    }

    /** Ground goes to the first record as it is; otherwise step to the next record and reset it; the last floor stays put. */
    method GoToNextFloor()
      requires Valid()
      modifies this, floors[..]
      ensures Valid() && floors == old(floors)
      ensures old(index) == -1 ==> index == 0 && Records() == old(Records())
      ensures 0 <= old(index) < FloorCount - 1 ==>
        index == old(index) + 1 && Records() == old(Records())[index := Flags(false, false)]
      ensures old(index) == FloorCount - 1 ==> index == old(index) && Records() == old(Records())
    {
      if currentFloor == null {
        currentFloor := floors[0];
        index := 0;
        return;
      }

      var currentIndex := FindFloorNumber(currentFloor);
      var nextIndex := currentIndex + 1;

      if nextIndex >= floors.Length {
        return;
      }

      currentFloor := floors[nextIndex];
      index := nextIndex;
      currentFloor.isCleaned := false;
      currentFloor.hasAnomaly := false;
    }

    method GoToGroundFloor()
      requires Valid()
      modifies this
      ensures Valid() && floors == old(floors)
      ensures index == -1 && currentFloor == null && Records() == old(Records())
    {
      currentFloor := null;
      index := -1;
    }

    /** The position of the record `floorData` in the array (by reference), or -1 if it is not there. */
    method FindFloorNumber(floorData: FloorData?) returns (r: int)
      ensures -1 <= r < floors.Length
      ensures r >= 0 ==> floors[r] == floorData && forall k :: 0 <= k < r ==> floors[k] != floorData
      ensures r == -1 <==> forall k :: 0 <= k < floors.Length ==> floors[k] != floorData
    {
      var i := 0;
      while i < floors.Length
        invariant 0 <= i <= floors.Length
        invariant forall k :: 0 <= k < i ==> floors[k] != floorData
      {
        if floors[i] == floorData {
          return i;
        }
        i := i + 1;
      }
      return -1;
    }

    /** The floor number shown to the player: 0 at ground, the record's index plus one otherwise. */
    method CurrentFloor() returns (r: int)
      requires Valid()
      ensures r == index + 1 && 0 <= r <= FloorCount
      ensures r == 0 <==> currentFloor == null
    {
      var number := FindFloorNumber(currentFloor);
      r := number + 1;
    }

    /** True at ground; otherwise the current record's cleaned flag. */
    function IsCurrentFloorCleaned(): (r: bool)
      requires Valid()
      reads this, floors, floors[..]
      ensures r <==> index == -1 || Records()[index].cleaned
    {
      currentFloor == null || currentFloor.isCleaned
    }

    /** The floor-cleaned handler: mark the current record cleaned (the source dereferences it, so it must exist). */
    method OnFloorCleaned()
      requires Valid() && currentFloor != null
      modifies currentFloor
      ensures Valid() && index == old(index)
      ensures Records() == old(Records())[index := Flags(true, old(Records())[index].anomaly)]
    {
      currentFloor.isCleaned := true;
    }
  }
}
