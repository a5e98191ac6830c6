/**
 * Heading choice. `bugNav` is specified here by the pure function
 * `BugNavSpec` (the method itself lives on the robot, which owns the
 * remembered heading); `getRandDirection` and `getDirectionsTo` are static
 * helpers that only query `canMove`, so they are methods of this module.
 * A `canMove` snapshot is a `Direction -> bool`; the random draws arrive as
 * the parameters `startingPoint` and `mood`.
 */
module Navigation {
  import opened Geometry
  import opened Wrappers

  // ---------------------------------------------------------------------
  // bugNav

  /** The heading bugNav starts from: the remembered one, else the argument. */
  function StartHeading(current: Option<Direction>, direction: Direction): Direction
  {
    match current
    case None => direction
    case Some(d) => d
  }

  /**
   * The bounded search: probe `d` and, on each failure, rotate left, for at
   * most `k` probes. Gives the returned heading and the new remembered one:
   * on success the found heading and that heading rotated right; when every
   * probe fails, Center and the heading after the last left rotation.
   */
  function ProbeLeft(canMove: Direction -> bool, d: Direction, k: nat): (Direction, Direction)
    decreases k
  {
    if k == 0 then (Center, d)
    else if canMove(d) then (d, RotateRight(d))
    else ProbeLeft(canMove, RotateLeft(d), k - 1)
  }

  /** bugNav: (returned heading, new currentDirection). */
  function BugNavSpec(canMove: Direction -> bool, current: Option<Direction>, direction: Direction)
    : (Direction, Direction)
  {
    var start := StartHeading(current, direction);
    if canMove(start) then (start, start) else ProbeLeft(canMove, start, 8)
  }

  /**
   * The search fails on the first `i` probes; if `i < k` the i-th left
   * rotation is movable and is returned with the state one step right of it,
   * and if `i == k` all probes failed.
   */
  lemma {:induction false} ProbeLeftSpec(canMove: Direction -> bool, d: Direction, k: nat) returns (i: nat)
    ensures i <= k
    ensures forall j :: 0 <= j < i ==> !canMove(RotateLeftN(d, j))
    ensures i < k ==>
              canMove(RotateLeftN(d, i))
              && ProbeLeft(canMove, d, k) == (RotateLeftN(d, i), RotateRight(RotateLeftN(d, i)))
    ensures i == k ==> ProbeLeft(canMove, d, k) == (Center, RotateLeftN(d, k))
    decreases k
  {
    if k == 0 {
      i := 0;
    } else if canMove(d) {
      i := 0;
    } else {
      var e := RotateLeft(d);
      var i' := ProbeLeftSpec(canMove, e, k - 1);
      i := i' + 1;
      assert ProbeLeft(canMove, d, k) == ProbeLeft(canMove, e, k - 1);
      forall j | 0 <= j < i
        ensures !canMove(RotateLeftN(d, j))
      {
        if j > 0 {
          RotateLeftNShift(d, j - 1);
          assert RotateLeftN(d, j) == RotateLeftN(e, j - 1);
        }
      }
      RotateLeftNShift(d, i');
      assert RotateLeftN(d, i) == RotateLeftN(e, i');
    }
  }

  /**
   * What one bugNav call does, counted in failed probes: the start heading is
   * kept when movable; otherwise the first movable one among its next left
   * rotations is returned with the state rotated one step right of it, which
   * is the last heading that failed; after eight failures it returns Center
   * and the state is back at the start.
   */
  lemma BugNavOutcome(canMove: Direction -> bool, current: Option<Direction>, direction: Direction)
    returns (failures: nat)
    ensures var start := StartHeading(current, direction);
            var (heading, next) := BugNavSpec(canMove, current, direction);
            && failures <= 8
            && (forall j :: 0 <= j < failures ==> !canMove(RotateLeftN(start, j)))
            && (canMove(start) ==> failures == 0 && heading == start && next == start)
            && (failures < 8 ==> canMove(heading) && heading == RotateLeftN(start, failures))
            && (0 < failures < 8 ==> next == RotateRight(heading) && next == RotateLeftN(start, failures - 1))
            && (failures == 8 ==> heading == Center && next == start)
  {
    var start := StartHeading(current, direction);
    if canMove(start) {
      failures := 0;
    } else {
      failures := ProbeLeftSpec(canMove, start, 8);
      EightLeftRotationsIdentity(start);
      if 0 < failures < 8 {
        // The found heading is one left turn past the last failed probe.
        RotateRightUndoesRotateLeft(RotateLeftN(start, failures - 1));
      }
    }
  }

  /**
   * From a compass heading, bugNav returns Center exactly when no compass
   * heading is movable; otherwise it returns a movable compass heading.
   */
  lemma BugNavFindsAnOpening(canMove: Direction -> bool, current: Option<Direction>, direction: Direction)
    requires StartHeading(current, direction) != Center
    ensures var heading := BugNavSpec(canMove, current, direction).0;
            && (heading == Center <==> forall i :: 0 <= i < 8 ==> !canMove(Compass[i]))
            && (heading != Center ==> canMove(heading))
  {
    var start := StartHeading(current, direction);
    var failures := BugNavOutcome(canMove, current, direction);
    var heading := BugNavSpec(canMove, current, direction).0;
    if failures < 8 {
      RotateLeftNIsCompass(start, failures);
      assert canMove(heading) && Compass[CompassIndex(heading)] == heading;
    } else {
      forall i | 0 <= i < 8
        ensures !canMove(Compass[i])
      {
        var k := EightRotationsCoverCompass(start, Compass[i]);
      }
    }
  }

  /** Probing from Center finds Center: Center rotates to Center. */
  lemma {:induction false} ProbeLeftFromCenter(canMove: Direction -> bool, k: nat)
    ensures ProbeLeft(canMove, Center, k) == (Center, Center)
    decreases k
  {
    if k > 0 && !canMove(Center) {
      ProbeLeftFromCenter(canMove, k - 1);
    }
  }

  /**
   * A Center start is absorbing: bugNav answers Center and remembers Center,
   * whatever is movable.
   */
  lemma CenterStartIsStuck(canMove: Direction -> bool, current: Option<Direction>, direction: Direction)
    requires StartHeading(current, direction) == Center
    ensures BugNavSpec(canMove, current, direction) == (Center, Center)
  {
    ProbeLeftFromCenter(canMove, 8);
  }

  /** The corrected start: a Center request is replaced by North, so Center is never remembered. */
  function CompassStart(current: Option<Direction>, direction: Direction): (s: Direction)
    ensures s != Center
    ensures StartHeading(current, direction) != Center ==> s == StartHeading(current, direction)
  {
    var s := StartHeading(current, direction);
    if s == Center then North else s
  }

  /** bugNav with the corrected start: (returned heading, new currentDirection). */
  function CompassBugNavSpec(canMove: Direction -> bool, current: Option<Direction>, direction: Direction)
    : (Direction, Direction)
  {
    var start := CompassStart(current, direction);
    if canMove(start) then (start, start) else ProbeLeft(canMove, start, 8)
  }

  /**
   * With the corrected start, for every remembered heading and argument:
   * Center is returned exactly when no compass heading is movable, a returned
   * compass heading is movable, and the remembered heading is never Center.
   */
  lemma CompassBugNavFindsAnOpening(canMove: Direction -> bool, current: Option<Direction>, direction: Direction)
    ensures var (heading, next) := CompassBugNavSpec(canMove, current, direction);
            && (heading == Center <==> forall i :: 0 <= i < 8 ==> !canMove(Compass[i]))
            && (heading != Center ==> canMove(heading))
            && next != Center
  {
    var start := CompassStart(current, direction);
    assert CompassBugNavSpec(canMove, current, direction) == BugNavSpec(canMove, Some(start), direction);
    BugNavFindsAnOpening(canMove, Some(start), direction);
    var failures := BugNavOutcome(canMove, Some(start), direction);
    if 0 < failures < 8 {
      RotateLeftNIsCompass(start, failures - 1);
    }
  }

  // ---------------------------------------------------------------------
  // getRandDirection and getDirectionsTo

  /** The first movable heading among `cands`, else `fallback`. */
  function FirstOpen(canMove: Direction -> bool, cands: seq<Direction>, fallback: Direction): Direction
  {
    if cands == [] then fallback
    else if canMove(cands[0]) then cands[0]
    else FirstOpen(canMove, cands[1..], fallback)
  }

  /** Either a movable candidate, or the fallback when no candidate is movable. */
  lemma {:induction false} FirstOpenCases(canMove: Direction -> bool, cands: seq<Direction>, fallback: Direction)
    ensures var r := FirstOpen(canMove, cands, fallback);
            (r in cands && canMove(r)) || (r == fallback && forall x :: x in cands ==> !canMove(x))
  {
    if cands != [] && !canMove(cands[0]) {
      FirstOpenCases(canMove, cands[1..], fallback);
      assert forall x :: x in cands ==> x == cands[0] || x in cands[1..];
    }
  }

  /** The first movable candidate is the answer. */
  lemma {:induction false} FirstOpenAt(canMove: Direction -> bool, cands: seq<Direction>, fallback: Direction, k: nat)
    requires k < |cands| && canMove(cands[k])
    requires forall j :: 0 <= j < k ==> !canMove(cands[j])
    ensures FirstOpen(canMove, cands, fallback) == cands[k]
  {
    if k > 0 {
      FirstOpenAt(canMove, cands[1..], fallback, k - 1);
    }
  }

  /** The `directions` table read cyclically from `start`. */
  function CyclicOrder(start: nat): (order: seq<Direction>)
    requires start <= 8
    ensures |order| == 8
    ensures forall j :: 0 <= j < 8 - start ==> order[j] == Compass[start + j]
    ensures forall j :: 8 - start <= j < 8 ==> order[j] == Compass[j - (8 - start)]
  {
    Compass[start..] + Compass[..start]
  }

  /**
   * The cyclic scan answers Center exactly when no compass heading is movable,
   * and otherwise a movable one.
   */
  lemma CyclicScanSpec(canMove: Direction -> bool, start: nat)
    requires start <= 8
    ensures var r := FirstOpen(canMove, CyclicOrder(start), Center);
            && (r == Center <==> forall i :: 0 <= i < 8 ==> !canMove(Compass[i]))
            && (r != Center ==> canMove(r))
  {
    var order := CyclicOrder(start);
    FirstOpenCases(canMove, order, Center);
    forall i | 0 <= i < 8
      ensures Compass[i] in order
    {
      var j := if i >= start then i - start else 8 - start + i;
      assert order[j] == Compass[i];
    }
  }

  /**
   * getRandDirection: the two loops read the table from `startingPoint` to the
   * end and then from the start up to `startingPoint`, and return the first
   * movable heading, or Center.
   */
  method GetRandDirection(canMove: Direction -> bool, startingPoint: int) returns (r: Direction)
    requires 0 <= startingPoint < 7
    ensures r == FirstOpen(canMove, CyclicOrder(startingPoint), Center)
    ensures r == Center <==> forall i :: 0 <= i < 8 ==> !canMove(Compass[i])
    ensures r != Center ==> canMove(r)
  {
    var order := CyclicOrder(startingPoint);
    CyclicScanSpec(canMove, startingPoint);
    for i := startingPoint to 8
      invariant forall j :: startingPoint <= j < i ==> !canMove(Compass[j])
    {
      if canMove(Compass[i]) {
        FirstOpenAt(canMove, order, Center, i - startingPoint);
        return Compass[i];
      }
    }
    for i := 0 to startingPoint
      invariant forall j :: 0 <= j < i ==> !canMove(Compass[j])
    {
      if canMove(Compass[i]) {
        FirstOpenAt(canMove, order, Center, 8 - startingPoint + i);
        return Compass[i];
      }
    }
    assert forall j :: 0 <= j < 8 ==> !canMove(order[j]);
    FirstOpenCases(canMove, order, Center);
    return Center;
  }

  /**
   * The headings getDirectionsTo tries, in order, for each mood: the switch
   * falls through, so mood 0 tries all three, mood 1 the last two, and every
   * other mood only the left turn.
   */
  function Preferences(approxDir: Direction, mood: int): seq<Direction>
  {
    if mood == 0 then [approxDir, RotateRight(approxDir), RotateLeft(approxDir)]
    else if mood == 1 then [RotateRight(approxDir), RotateLeft(approxDir)]
    else [RotateLeft(approxDir)]
  }

  /**
   * getDirectionsTo: the first movable preference for the mood, else the
   * cyclic scan. Toward a compass heading it answers Center exactly when no
   * compass heading is movable, and otherwise a movable heading.
   */
  method GetDirectionsTo(canMove: Direction -> bool, approxDir: Direction, mood: int, startingPoint: int)
    returns (r: Direction)
    requires 0 <= startingPoint < 7
    ensures r == FirstOpen(canMove, Preferences(approxDir, mood), FirstOpen(canMove, CyclicOrder(startingPoint), Center))
    ensures approxDir != Center ==> (r == Center <==> forall i :: 0 <= i < 8 ==> !canMove(Compass[i]))
    ensures approxDir != Center && r != Center ==> canMove(r)
  {
    var prefs := Preferences(approxDir, mood);
    var fallback := FirstOpen(canMove, CyclicOrder(startingPoint), Center);
    FirstOpenCases(canMove, prefs, fallback);
    CyclicScanSpec(canMove, startingPoint);
    if approxDir != Center {
      assert forall x :: x in prefs ==> x != Center;
      assert forall x :: x in prefs ==> x in Compass;
    }
    // switch (mood) with fall-through
    if mood == 0 && canMove(approxDir) {
      return approxDir;
    }
    if (mood == 0 || mood == 1) && canMove(RotateRight(approxDir)) {
      return RotateRight(approxDir);
    }
    if canMove(RotateLeft(approxDir)) {
      return RotateLeft(approxDir);
    }
    r := GetRandDirection(canMove, startingPoint);
  }
}
