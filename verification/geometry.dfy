/**
 * Headings and grid positions as the robot code uses them: the eight compass
 * directions plus CENTER, the 45-degree rotations, the opposite heading, the
 * `directions` table that the random scan walks, and squared distance.
 */
module Geometry {

  /** A compass heading; `Center` is the "no movement" heading. */
  datatype Direction =
    | North | NorthEast | East | SouthEast | South | SouthWest | West | NorthWest
    | Center

  /** The order of the static `directions` table (clockwise from North). */
  const Compass: seq<Direction> :=
    [North, NorthEast, East, SouthEast, South, SouthWest, West, NorthWest]

  /** Index of a heading in `Compass`; Center has none. */
  function CompassIndex(d: Direction): (i: nat)
    requires d != Center
    ensures i < 8 && Compass[i] == d
  {
    match d
    case North => 0
    case NorthEast => 1
    case East => 2
    case SouthEast => 3
    case South => 4
    case SouthWest => 5
    case West => 6
    case NorthWest => 7
  }

  /** 45 degrees counter-clockwise; Center stays Center. */
  function RotateLeft(d: Direction): (r: Direction)
    ensures d == Center <==> r == Center
  {
    match d
    case North => NorthWest
    case NorthEast => North
    case East => NorthEast
    case SouthEast => East
    case South => SouthEast
    case SouthWest => South
    case West => SouthWest
    case NorthWest => West
    case Center => Center
  }

  /** 45 degrees clockwise; Center stays Center. */
  function RotateRight(d: Direction): (r: Direction)
    ensures d == Center <==> r == Center
  {
    match d
    case North => NorthEast
    case NorthEast => East
    case East => SouthEast
    case SouthEast => South
    case South => SouthWest
    case SouthWest => West
    case West => NorthWest
    case NorthWest => North
    case Center => Center
  }

  /** The heading pointing the other way; Center stays Center. */
  function Opposite(d: Direction): (r: Direction)
    ensures d == Center <==> r == Center
  {
    match d
    case North => South
    case NorthEast => SouthWest
    case East => West
    case SouthEast => NorthWest
    case South => North
    case SouthWest => NorthEast
    case West => East
    case NorthWest => SouthEast
    case Center => Center
  }

  /** `d` rotated left `n` times. */
  function RotateLeftN(d: Direction, n: nat): Direction
  {
    if n == 0 then d else RotateLeft(RotateLeftN(d, n - 1))
  }

  /** The two rotations undo each other. */
  lemma RotateRightUndoesRotateLeft(d: Direction)
    ensures RotateRight(RotateLeft(d)) == d && RotateLeft(RotateRight(d)) == d
  {
  }

  /** Rotating first and then n more times is n + 1 rotations. */
  lemma {:induction false} RotateLeftNShift(d: Direction, n: nat)
    ensures RotateLeftN(RotateLeft(d), n) == RotateLeftN(d, n + 1)
  {
    if n > 0 {
      RotateLeftNShift(d, n - 1);
    }
  }

  /** Rotations never turn a compass heading into Center. */
  lemma {:induction false} RotateLeftNIsCompass(d: Direction, n: nat)
    requires d != Center
    ensures RotateLeftN(d, n) != Center
  {
    if n > 0 {
      RotateLeftNIsCompass(d, n - 1);
    }
  }

  /** The first eight left rotations, spelled out. */
  lemma UnfoldEightRotations(d: Direction)
    ensures RotateLeftN(d, 1) == RotateLeft(d)
    ensures RotateLeftN(d, 2) == RotateLeft(RotateLeft(d))
    ensures RotateLeftN(d, 3) == RotateLeft(RotateLeftN(d, 2))
    ensures RotateLeftN(d, 4) == RotateLeft(RotateLeftN(d, 3))
    ensures RotateLeftN(d, 5) == RotateLeft(RotateLeftN(d, 4))
    ensures RotateLeftN(d, 6) == RotateLeft(RotateLeftN(d, 5))
    ensures RotateLeftN(d, 7) == RotateLeft(RotateLeftN(d, 6))
    ensures RotateLeftN(d, 8) == RotateLeft(RotateLeftN(d, 7))
  {
  }

  /** Eight left rotations bring every heading back to itself. */
  lemma EightLeftRotationsIdentity(d: Direction)
    ensures RotateLeftN(d, 8) == d
  {
    UnfoldEightRotations(d);
  }

  /**
   * The first eight left rotations of a compass heading visit every compass
   * heading: each one is reached after some number k < 8 of rotations.
   */
  lemma EightRotationsCoverCompass(d: Direction, e: Direction) returns (k: nat)
    requires d != Center && e != Center
    ensures k < 8 && RotateLeftN(d, k) == e
  {
    UnfoldEightRotations(d);
    k := 0;
    while k < 7 && RotateLeftN(d, k) != e
      invariant k <= 7
      invariant forall j :: 0 <= j < k ==> RotateLeftN(d, j) != e
    {
      k := k + 1;
    }
    if RotateLeftN(d, k) != e {
      assert false;
    }
  }

  /** A map square; `x` grows eastwards and `y` northwards. */
  datatype Location = Location(x: int, y: int)

  function DeltaX(d: Direction): int
  {
    match d
    case NorthEast | East | SouthEast => 1
    case SouthWest | West | NorthWest => -1
    case _ => 0
  }

  function DeltaY(d: Direction): int
  {
    match d
    case North | NorthEast | NorthWest => 1
    case South | SouthEast | SouthWest => -1
    case _ => 0
  }

  /** The adjacent square in direction `d` (MapLocation.add). */
  function Add(l: Location, d: Direction): (r: Location)
    ensures d == Center <==> r == l
  {
    Location(l.x + DeltaX(d), l.y + DeltaY(d))
  }

  /** Squared Euclidean distance (MapLocation.distanceSquaredTo). */
  function DistanceSquared(a: Location, b: Location): (r: int)
    ensures r >= 0
    ensures r == 0 <==> a == b
  {
    var dx := a.x - b.x;
    var dy := a.y - b.y;
    SquareZero(dx);
    SquareZero(dy);
    dx * dx + dy * dy
  }

  lemma SquareZero(n: int)
    ensures n * n >= 0 && (n * n == 0 <==> n == 0)
  {
  }
}
