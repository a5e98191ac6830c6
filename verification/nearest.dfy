/**
 * Nearest-target searches. `findNearest(rc, MapLocation[])` and
 * `findNearestRobot` run the same loop over different element types: keep a
 * running best and its squared distance, where a best distance of 0 means
 * "nothing yet". `findNearest(rc, startIndex, endIndex)` scans a slice of the
 * shared array from a 3600 ceiling.
 */
module Nearest {
  import opened Geometry
  import opened Codec
  import opened Robots
  import opened Wrappers

  /** The running best of the scan: the candidate kept and its squared distance. */
  datatype Best<T> = Best(item: Option<T>, dist: int)

  function Dist<T>(from: Location, locOf: T -> Location, x: T): int
  {
    DistanceSquared(from, locOf(x))
  }

  /** One loop iteration as written: `closestDist == 0 || distTo < closestDist`. */
  function Step<T>(from: Location, locOf: T -> Location, b: Best<T>, x: T): Best<T>
  {
    var d := Dist(from, locOf, x);
    if b.dist == 0 || d < b.dist then Best(Some(x), d) else b
  }

  /** The running best after the whole sequence, starting from (null, 0). */
  function Scan<T>(from: Location, locOf: T -> Location, items: seq<T>): Best<T>
  {
    if items == [] then Best(None, 0)
    else Step(from, locOf, Scan(from, locOf, items[..|items| - 1]), items[|items| - 1])
  }

  /** `items[k]` is at minimal distance and strictly nearer than everything before it. */
  ghost predicate FirstNearest<T>(from: Location, locOf: T -> Location, items: seq<T>, k: int)
  {
    && 0 <= k < |items|
    && (forall j :: 0 <= j < |items| ==> Dist(from, locOf, items[k]) <= Dist(from, locOf, items[j]))
    && (forall j :: 0 <= j < k ==> Dist(from, locOf, items[k]) < Dist(from, locOf, items[j]))
  }

  /** The kept candidate is absent exactly on empty input, else one of the inputs at the kept distance. */
  lemma {:induction false} ScanShape<T>(from: Location, locOf: T -> Location, items: seq<T>)
    ensures Scan(from, locOf, items).item.None? <==> items == []
    ensures items == [] ==> Scan(from, locOf, items).dist == 0
    ensures Scan(from, locOf, items).item.Some? ==>
              Scan(from, locOf, items).item.value in items
              && Scan(from, locOf, items).dist == Dist(from, locOf, Scan(from, locOf, items).item.value)
  {
    if items != [] {
      ScanShape(from, locOf, items[..|items| - 1]);
    }
  }

  /**
   * When no candidate sits at distance 0, the scan keeps the first candidate
   * of minimal squared distance.
   */
  lemma {:induction false} ScanFindsFirstNearest<T>(from: Location, locOf: T -> Location, items: seq<T>)
    returns (k: nat)
    requires items != []
    requires forall j :: 0 <= j < |items| ==> Dist(from, locOf, items[j]) > 0
    ensures FirstNearest(from, locOf, items, k)
    ensures Scan(from, locOf, items) == Best(Some(items[k]), Dist(from, locOf, items[k]))
  {
    var n := |items| - 1;
    var init := items[..n];
    if init == [] {
      k := 0;
    } else {
      k := ScanFindsFirstNearest(from, locOf, init);
      if Dist(from, locOf, items[n]) < Dist(from, locOf, items[k]) {
        k := n;
      }
    }
  }

  /**
   * The quirk of the "nothing yet" marker: once a candidate at distance 0 is
   * kept, the running distance is 0 again and the next candidate replaces it,
   * however far away that one is.
   */
  lemma ZeroDistanceIsReplaced<T>(from: Location, locOf: T -> Location, items: seq<T>, i: nat)
    requires i + 1 < |items|
    requires Dist(from, locOf, items[i]) == 0
    ensures Scan(from, locOf, items[..i + 1]) == Best(Some(items[i]), 0)
    ensures Scan(from, locOf, items[..i + 2]).item == Some(items[i + 1])
  {
    assert items[..i + 1][..i] == items[..i];
    assert items[..i + 2][..i + 1] == items[..i + 1];
    ScanShape(from, locOf, items[..i]);
  }

  /** A concrete case: standing on a candidate, the scan still answers the farther one. */
  lemma ZeroDistanceCandidateLost()
    ensures var here := Location(3, 4);
            Scan(here, Here, [here, Location(9, 9)]).item == Some(Location(9, 9))
  {
    var here := Location(3, 4);
    var items := [here, Location(9, 9)];
    ZeroDistanceIsReplaced(here, Here, items, 0);
    assert items[..2] == items;
  }

  /** The loop shared by findNearest(MapLocation[]) and findNearestRobot, as written. */
  method FindNearestBy<T>(from: Location, locOf: T -> Location, items: seq<T>)
    returns (nearest: Option<T>)
    ensures nearest == Scan(from, locOf, items).item
    ensures nearest.None? <==> items == []
    ensures nearest.Some? ==> nearest.value in items
  {
    nearest := None;
    var closestDist := 0;
    for i := 0 to |items|
      invariant Best(nearest, closestDist) == Scan(from, locOf, items[..i])
    {
      assert items[..i + 1][..i] == items[..i];
      var distTo := Dist(from, locOf, items[i]);
      if closestDist == 0 || distTo < closestDist {
        nearest := Some(items[i]);
        closestDist := distTo;
      }
    }
    assert items[..|items|] == items;
    ScanShape(from, locOf, items);
  }

  function Here(l: Location): Location
  {
    l
  }

  /** findNearest(rc, MapLocation[]): null (None) exactly on an empty array. */
  method FindNearest(myLoc: Location, mapLocs: seq<Location>) returns (closest: Option<Location>)
    ensures closest == Scan(myLoc, Here, mapLocs).item
    ensures closest.None? <==> mapLocs == []
    ensures closest.Some? ==> closest.value in mapLocs
  {
    closest := FindNearestBy(myLoc, Here, mapLocs);
  }

  /** findNearestRobot: null (None) exactly on an empty array. */
  method FindNearestRobot(myLoc: Location, robots: seq<RobotInfo>) returns (nearest: Option<RobotInfo>)
    ensures nearest == Scan(myLoc, RobotLocation, robots).item
    ensures nearest.None? <==> robots == []
    ensures nearest.Some? ==> nearest.value in robots
  {
    nearest := FindNearestBy(myLoc, RobotLocation, robots);
  }

  // ---------------------------------------------------------------------
  // The search with an explicit "nothing yet" flag instead of distance 0.

  function StepFlagged<T>(from: Location, locOf: T -> Location, b: Best<T>, x: T): Best<T>
  {
    var d := Dist(from, locOf, x);
    if b.item.None? || d < b.dist then Best(Some(x), d) else b
  }

  function ScanFlagged<T>(from: Location, locOf: T -> Location, items: seq<T>): Best<T>
  {
    if items == [] then Best(None, 0)
    else StepFlagged(from, locOf, ScanFlagged(from, locOf, items[..|items| - 1]), items[|items| - 1])
  }

  /** With the flag, the first nearest candidate wins on every non-empty input. */
  lemma {:induction false} ScanFlaggedFindsFirstNearest<T>(from: Location, locOf: T -> Location, items: seq<T>)
    returns (k: nat)
    requires items != []
    ensures FirstNearest(from, locOf, items, k)
    ensures ScanFlagged(from, locOf, items) == Best(Some(items[k]), Dist(from, locOf, items[k]))
  {
    var n := |items| - 1;
    var init := items[..n];
    if init == [] {
      k := 0;
    } else {
      k := ScanFlaggedFindsFirstNearest(from, locOf, init);
      if Dist(from, locOf, items[n]) < Dist(from, locOf, items[k]) {
        k := n;
      }
    }
  }

  /** The two searches agree whenever no candidate is at distance 0. */
  lemma ScansAgreeWithoutZeroDistance<T>(from: Location, locOf: T -> Location, items: seq<T>)
    requires forall j :: 0 <= j < |items| ==> Dist(from, locOf, items[j]) > 0
    ensures Scan(from, locOf, items) == ScanFlagged(from, locOf, items)
  {
    if items != [] {
      var k := ScanFindsFirstNearest(from, locOf, items);
      var k' := ScanFlaggedFindsFirstNearest(from, locOf, items);
    }
  }

  /** The nearest-location search with the flag; it is the one the corrected model uses. */
  method FindNearestFlagged(myLoc: Location, mapLocs: seq<Location>) returns (closest: Option<Location>)
    ensures closest.None? <==> mapLocs == []
    ensures closest.Some? ==> exists k :: FirstNearest(myLoc, Here, mapLocs, k) && mapLocs[k] == closest.value
  {
    closest := None;
    var closestDist := 0;
    for i := 0 to |mapLocs|
      invariant Best(closest, closestDist) == ScanFlagged(myLoc, Here, mapLocs[..i])
    {
      assert mapLocs[..i + 1][..i] == mapLocs[..i];
      var distTo := DistanceSquared(myLoc, mapLocs[i]);
      if closest.None? || distTo < closestDist {
        closest := Some(mapLocs[i]);
        closestDist := distTo;
      }
    }
    assert mapLocs[..|mapLocs|] == mapLocs;
    if mapLocs != [] {
      var k := ScanFlaggedFindsFirstNearest(myLoc, Here, mapLocs);
    }
  }

  // ---------------------------------------------------------------------
  // findNearest(rc, startIndex, endIndex) over the shared array.

  /** The ceiling the shared-array search starts from. */
  const Ceiling := 3600

  /** Distance from `from` to the square a shared-array entry decodes to. */
  function KeyDist(from: Location, key: int): int
  {
    DistanceSquared(from, Decode(key))
  }

  /**
   * (distance, closestTargetCoord) after visiting indices [start, end) in
   * order: an entry replaces the best only when strictly nearer.
   */
  function SliceBest(from: Location, shared: seq<int>, start: nat, end: nat, coord0: int): (int, int)
    requires start <= end <= |shared|
    decreases end - start
  {
    if end == start then (Ceiling, coord0)
    else
      var (d, c) := SliceBest(from, shared, start, end - 1, coord0);
      var nd := KeyDist(from, shared[end - 1]);
      if d > nd then (nd, shared[end - 1]) else (d, c)
  }

  /**
   * If no entry is nearer than the ceiling, the coordinate is left as it was;
   * otherwise it becomes the first entry of minimal distance, which is below
   * the ceiling.
   */
  lemma {:induction false} SliceBestSpec(from: Location, shared: seq<int>, start: nat, end: nat, coord0: int)
    returns (k: int)
    requires start <= end <= |shared|
    ensures k == -1 ==>
              (forall j :: start <= j < end ==> KeyDist(from, shared[j]) >= Ceiling)
              && SliceBest(from, shared, start, end, coord0) == (Ceiling, coord0)
    ensures k != -1 ==>
              start <= k < end
              && KeyDist(from, shared[k]) < Ceiling
              && (forall j :: start <= j < end ==> KeyDist(from, shared[k]) <= KeyDist(from, shared[j]))
              && (forall j :: start <= j < k ==> KeyDist(from, shared[k]) < KeyDist(from, shared[j]))
              && SliceBest(from, shared, start, end, coord0) == (KeyDist(from, shared[k]), shared[k])
    decreases end - start
  {
    if end == start {
      k := -1;
    } else {
      k := SliceBestSpec(from, shared, start, end - 1, coord0);
      var nd := KeyDist(from, shared[end - 1]);
      if k == -1 {
        if nd < Ceiling {
          k := end - 1;
        }
      } else if nd < KeyDist(from, shared[k]) {
        k := end - 1;
      }
    }
  }

  /**
   * Only entries nearer than the ceiling are ever taken. Standing at (50, 40)
   * with one headquarters listed at (2, 2) (key 202, squared distance 3748),
   * a search that starts from key 0 still answers key 0, the square (0, 0).
   */
  lemma FarHeadquartersIsIgnored()
    ensures KeyDist(Location(50, 40), 202) == 3748
    ensures SliceBest(Location(50, 40), [10, 202], 1, 2, 0) == (Ceiling, 0)
    ensures Decode(0) == Location(0, 0)
  {
    assert Decode(202) == Location(2, 2);
  }
}
