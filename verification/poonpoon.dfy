/**
 * The shared base of every robot of the PoonPoon player. An instance carries
 * the heading that bug navigation remembers between calls and the coordinate
 * key of the closest target found in the shared array (kept by the player
 * class as a static field; each Battlecode robot runs its own copy of it).
 * Every method acts on one robot's controller for one turn.
 */
module PoonPoon {
  import opened Wrappers
  import opened Geometry
  import opened Codec
  import opened Setup
  import opened Robots
  import opened Nearest
  import opened Navigation
  import opened Combat
  import opened Controller

  /** What chaseOrEvadeEnemy decided and did. */
  datatype Tactic =
    | Chase(step: Option<Direction>)                 // moved at most one step
    | Evade(from: RobotInfo, heading: Direction, resolved: Direction)  // the enemy evaded, the heading away from it, the heading moved in
    | Hold                                           // evade with no enemy sensed: nothing to do

  /**
   * The heading tryMoveTo(dir) moves in and the remembered heading it leaves:
   * `dir` itself and no change when it is movable, otherwise bugNav's answer.
   */
  function TryMoveHeading(canMove: Direction -> bool, current: Option<Direction>, dir: Direction)
    : (Direction, Option<Direction>)
  {
    if canMove(dir) then (dir, current)
    else (BugNavSpec(canMove, current, dir).0, Some(BugNavSpec(canMove, current, dir).1))
  }

  /**
   * The state one tryMoveTo(dir) call leaves, starting at `at` with `budget`
   * moves, move log `before` and remembered heading `current`: the remembered
   * heading is `current'`, the robot has moved greedily in the resolved
   * heading, and the next move in it is not allowed.
   */
  ghost predicate TriedMove(rc: RobotController, at: Location, budget: nat, before: seq<Direction>,
                            current: Option<Direction>, dir: Direction, current': Option<Direction>)
    reads rc
  {
    var (resolved, next) := TryMoveHeading(CanMoveFrom(rc.open, at, budget), current, dir);
    && current' == next
    && rc.MovedFrom(at, budget, before, resolved, Advance(rc.open, at, budget, resolved))
    && !rc.CanMove(resolved)
  }

  /** The state after at most one chase step: unchanged, or one logged move onto a square with a current. */
  ghost predicate Stepped(rc: RobotController, at: Location, budget: nat, before: seq<Direction>,
                          step: Option<Direction>)
    reads rc
  {
    match step
    case None => rc.moves == before && rc.location == at && rc.moveBudget == budget
    case Some(d) =>
      && rc.moves == before + [d]
      && rc.location == Add(at, d)
      && rc.moveBudget == budget - 1
      && rc.hasCurrent(rc.location)
  }

  /**
   * What chaseOrEvadeEnemy(targetLocation) does from (at, budget, before,
   * current): a launcher that with its allies outnumbers the enemies takes the
   * chase step; otherwise the robot runs tryMoveTo away from the nearest enemy,
   * or holds when no enemy is sensed.
   */
  ghost predicate ChasedOrEvaded(rc: RobotController, at: Location, budget: nat, before: seq<Direction>,
                                 current: Option<Direction>, current': Option<Direction>,
                                 targetLocation: Location, startingPoint: int, tactic: Tactic)
    requires 0 <= startingPoint < 7
    reads rc
  {
    var allies := ScanForRobots(rc.sensed, rc.myTeam, "ally");
    var enemies := ScanForRobots(rc.sensed, rc.myTeam, "enemy");
    var canMove := CanMoveFrom(rc.open, at, budget);
    && (tactic.Chase? <==> ShouldChase(|allies|, |enemies|, rc.myType))
    && (tactic.Hold? <==> !ShouldChase(|allies|, |enemies|, rc.myType) && enemies == [])
    && (tactic.Chase? ==>
          && current' == current
          && tactic.step == ChaseMove(canMove, rc.hasCurrent, at, rc.directionTo(at, targetLocation),
                                      FirstOpen(canMove, CyclicOrder(startingPoint), Center))
          && Stepped(rc, at, budget, before, tactic.step))
    && (tactic.Evade? ==>
          && Scan(at, RobotLocation, enemies).item == Some(tactic.from)
          && tactic.heading == Opposite(rc.directionTo(at, tactic.from.location))
          && tactic.resolved == TryMoveHeading(canMove, current, tactic.heading).0
          && TriedMove(rc, at, budget, before, current, tactic.heading, current'))
    && (tactic.Hold? ==> current' == current && Stepped(rc, at, budget, before, None))
  }

  /**
   * As written, a robot with no remembered heading that calls
   * tryMoveTo(rc, MapLocation) while every heading is blocked (the movement
   * cooldown not ready, say) gets Center from getDirectionsTo, and bugNav
   * remembers that Center. From then on every bugNav call answers Center and
   * keeps Center, whatever is movable.
   */
  lemma BlockedTurnRemembersCenter(canMove: Direction -> bool, later: Direction -> bool, approxDir: Direction,
                                   mood: int, startingPoint: int, direction: Direction)
    requires 0 <= startingPoint < 7
    requires forall d :: !canMove(d)
    ensures var heading := FirstOpen(canMove, Preferences(approxDir, mood),
                                     FirstOpen(canMove, CyclicOrder(startingPoint), Center));
            && heading == Center
            && TryMoveHeading(canMove, None, heading) == (Center, Some(Center))
            && BugNavSpec(later, Some(Center), direction) == (Center, Center)
  {
    FirstOpenCases(canMove, CyclicOrder(startingPoint), Center);
    var fallback := FirstOpen(canMove, CyclicOrder(startingPoint), Center);
    FirstOpenCases(canMove, Preferences(approxDir, mood), fallback);
    CenterStartIsStuck(canMove, None, Center);
    CenterStartIsStuck(later, Some(Center), direction);
  }

  class Base {
    /** The heading bugNav keeps between calls; None is Java's null. */
    var currentDirection: Option<Direction>
    /** RobotPlayer.closestTargetCoord: the key of the closest target found so far. */
    var closestTargetCoord: int

    constructor ()
      ensures currentDirection == None && closestTargetCoord == 0
    {
      currentDirection := None;
      closestTargetCoord := 0;
    }

    /**
     * bugNav: remember `direction` if nothing is remembered; keep the remembered
     * heading if it is movable; otherwise probe up to eight headings, rotating
     * left after each failure, and on success return the movable heading and
     * remember it rotated one step right. Center when every probe fails.
     */
    method BugNav(canMove: Direction -> bool, direction: Direction) returns (dir: Direction)
      modifies this`currentDirection
      ensures var start := if old(currentDirection).None? then direction else old(currentDirection).value;
              canMove(start) ==> dir == start && currentDirection == Some(start)
      ensures dir == BugNavSpec(canMove, old(currentDirection), direction).0
      ensures currentDirection == Some(BugNavSpec(canMove, old(currentDirection), direction).1)
      ensures dir == Center || canMove(dir)
    {
      ghost var failures := BugNavOutcome(canMove, currentDirection, direction);
      ghost var start := StartHeading(currentDirection, direction);
      dir := Center;
      if currentDirection.None? {
        currentDirection := Some(direction);
      }
      if canMove(currentDirection.value) {
        return currentDirection.value;
      }
      if !canMove(currentDirection.value) {
        // Keep the obstacle on the right while going around it.
        for i := 0 to 8
          invariant currentDirection.Some?
          invariant ProbeLeft(canMove, currentDirection.value, 8 - i) == ProbeLeft(canMove, start, 8)
          invariant dir == Center
        {
          if canMove(currentDirection.value) {
            dir := currentDirection.value;
            currentDirection := Some(RotateRight(currentDirection.value));
            break;
          } else {
            currentDirection := Some(RotateLeft(currentDirection.value));
          }
        }
      }
    }

    /**
     * bugNav with a corrected start: a Center request with nothing remembered
     * (or a remembered Center) starts the probes from North instead, so the
     * remembered heading is always a compass heading.
     */
    method CompassBugNav(canMove: Direction -> bool, direction: Direction) returns (dir: Direction)
      modifies this`currentDirection
      ensures dir == CompassBugNavSpec(canMove, old(currentDirection), direction).0
      ensures currentDirection == Some(CompassBugNavSpec(canMove, old(currentDirection), direction).1)
      ensures dir == Center <==> forall i :: 0 <= i < 8 ==> !canMove(Compass[i])
      ensures dir != Center ==> canMove(dir)
      ensures currentDirection.value != Center
    {
      CompassBugNavFindsAnOpening(canMove, currentDirection, direction);
      if StartHeading(currentDirection, direction) == Center {
        currentDirection := Some(North);
      }
      dir := BugNav(canMove, direction);
    }

    /**
     * tryMoveTo(rc, dir): consult bugNav only when `dir` itself is blocked,
     * then keep moving in the resolved heading while moving is allowed. The
     * robot ends with the next move in that heading not allowed.
     */
    method TryMoveTo(rc: RobotController, dir: Direction) returns (resolved: Direction)
      modifies this`currentDirection, rc`location, rc`moveBudget, rc`moves
      ensures resolved == TryMoveHeading(CanMoveFrom(rc.open, old(rc.location), old(rc.moveBudget)),
                                         old(currentDirection), dir).0
      ensures TriedMove(rc, old(rc.location), old(rc.moveBudget), old(rc.moves), old(currentDirection),
                        dir, currentDirection)
    {
      resolved := dir;
      if !rc.CanMove(resolved) {
        resolved := BugNav(CanMoveFrom(rc.open, rc.location, rc.moveBudget), resolved);
      }
      KeepMoving(rc, resolved);
    }

    /** The loop of tryMoveTo: move in `d` for as long as moving is allowed. */
    static method KeepMoving(rc: RobotController, d: Direction)
      modifies rc`location, rc`moveBudget, rc`moves
      ensures rc.MovedFrom(old(rc.location), old(rc.moveBudget), old(rc.moves), d,
                           Advance(rc.open, old(rc.location), old(rc.moveBudget), d))
      ensures !rc.CanMove(d)
    {
      ghost var at, budget, before := rc.location, rc.moveBudget, rc.moves;
      ghost var total := Advance(rc.open, at, budget, d);
      ghost var n := 0;
      while rc.CanMove(d)
        invariant rc.MovedFrom(at, budget, before, d, n)
        invariant n + Advance(rc.open, rc.location, rc.moveBudget, d) == total
        decreases rc.moveBudget
      {
        rc.Move(d);
        n := n + 1;
        assert Repeat(d, n) == Repeat(d, n - 1) + [d];
      }
    }

    /** tryMoveTo(rc, MapLocation): pick a heading with getDirectionsTo, then tryMoveTo. */
    method TryMoveToward(rc: RobotController, to: Location, mood: int, startingPoint: int)
      returns (heading: Direction, resolved: Direction)
      requires 0 <= startingPoint < 7
      modifies this`currentDirection, rc`location, rc`moveBudget, rc`moves
      ensures var canMove := CanMoveFrom(rc.open, old(rc.location), old(rc.moveBudget));
              heading == FirstOpen(canMove, Preferences(rc.directionTo(old(rc.location), to), mood),
                                   FirstOpen(canMove, CyclicOrder(startingPoint), Center))
      ensures resolved == TryMoveHeading(CanMoveFrom(rc.open, old(rc.location), old(rc.moveBudget)),
                                         old(currentDirection), heading).0
      ensures TriedMove(rc, old(rc.location), old(rc.moveBudget), old(rc.moves), old(currentDirection),
                        heading, currentDirection)
    {
      heading := GetDirectionsTo(CanMoveFrom(rc.open, rc.location, rc.moveBudget),
                                 rc.directionTo(rc.location, to), mood, startingPoint);
      resolved := TryMoveTo(rc, heading);
    }
    /**
     * findNearest(rc, startIndex, endIndex): visit the shared-array slots in
     * [startIndex, endIndex) in order and remember a slot's key in
     * closestTargetCoord whenever its square is strictly nearer than the best
     * so far, starting from the 3600 ceiling; answer the square the remembered
     * key decodes to.
     */
    method FindNearestInComms(rc: RobotController, startIndex: int, endIndex: int) returns (nearest: Location)
      requires 0 <= startIndex <= endIndex <= |rc.shared|
      modifies this`closestTargetCoord
      ensures closestTargetCoord == SliceBest(rc.location, rc.shared, startIndex, endIndex, old(closestTargetCoord)).1
      ensures nearest == Decode(closestTargetCoord)
    {
      var currentLocation := rc.location;
      var distance := Ceiling;
      var i := startIndex;
      while i != endIndex
        invariant startIndex <= i <= endIndex
        invariant (distance, closestTargetCoord) == SliceBest(currentLocation, rc.shared, startIndex, i, old(closestTargetCoord))
        decreases endIndex - i
      {
        var newDistance := KeyDist(currentLocation, rc.shared[i]);
        if distance > newDistance {
          distance := newDistance;
          closestTargetCoord := rc.shared[i];
        }
        i := i + 1;
      }
      nearest := Decode(closestTargetCoord);
    }

    /**
     * The first half of returnToHQ: the remembered target, or, when none is
     * remembered (key 0), the result of the search over the headquarters
     * listed in the shared array (slot 0 holds ten times their number). The
     * search only takes a headquarters within squared distance 3600, so the
     * key can stay 0, which decodes to (0, 0).
     */
    method LocateHQ(rc: RobotController) returns (hqLocation: Location)
      requires closestTargetCoord == 0 ==>
                 |rc.shared| > 0 && rc.shared[0] >= 0 && HqSection + rc.shared[0] / 10 <= |rc.shared|
      modifies this`closestTargetCoord
      ensures old(closestTargetCoord) != 0 ==> closestTargetCoord == old(closestTargetCoord)
      ensures old(closestTargetCoord) == 0 ==>
                closestTargetCoord == SliceBest(rc.location, rc.shared, HqSection, HqSection + rc.shared[0] / 10, 0).1
      ensures hqLocation == Decode(closestTargetCoord)
    {
      // Decoding is pure, so decoding the cached key only when it is used
      // gives the same location as decoding it first and then overwriting it.
      if closestTargetCoord != 0 {
        hqLocation := Decode(closestTargetCoord);
      } else {
        var hqCount := JavaDiv(rc.shared[0], 10);
        hqLocation := FindNearestInComms(rc, HqSection, HqSection + hqCount);
      }
    }

    /** returnToHQ: locate the headquarters, then tryMoveTo(rc, MapLocation) toward it. */
    method ReturnToHQ(rc: RobotController, mood: int, startingPoint: int) returns (hqLocation: Location)
      requires 0 <= startingPoint < 7
      requires closestTargetCoord == 0 ==>
                 |rc.shared| > 0 && rc.shared[0] >= 0 && HqSection + rc.shared[0] / 10 <= |rc.shared|
      modifies this`closestTargetCoord, this`currentDirection, rc`location, rc`moveBudget, rc`moves
      ensures old(closestTargetCoord) != 0 ==> closestTargetCoord == old(closestTargetCoord)
      ensures old(closestTargetCoord) == 0 ==>
                closestTargetCoord == SliceBest(old(rc.location), rc.shared, HqSection, HqSection + rc.shared[0] / 10, 0).1
      ensures hqLocation == Decode(closestTargetCoord)
      ensures TriedMove(rc, old(rc.location), old(rc.moveBudget), old(rc.moves), old(currentDirection),
                        FirstOpen(CanMoveFrom(rc.open, old(rc.location), old(rc.moveBudget)),
                                  Preferences(rc.directionTo(old(rc.location), hqLocation), mood),
                                  FirstOpen(CanMoveFrom(rc.open, old(rc.location), old(rc.moveBudget)),
                                            CyclicOrder(startingPoint), Center)),
                        currentDirection)
    {
      hqLocation := LocateHQ(rc);
      ghost var key := closestTargetCoord;
      var heading, resolved := TryMoveToward(rc, hqLocation, mood, startingPoint);
      assert closestTargetCoord == key;
    }

    /** writeToCommsArray: write only when the controller allows it. */
    method WriteToCommsArray(rc: RobotController, index: int, val: int)
      modifies rc`shared
      ensures rc.shared == if old(rc.CanWriteShared(index, val)) then old(rc.shared)[index := val] else old(rc.shared)
    {
      if rc.CanWriteShared(index, val) {
        rc.WriteShared(index, val);
      }
    }

    /**
     * attackNearestEnemy: find the nearest enemy and attack it if it is not a
     * headquarters and can be attacked; answer that enemy (None when there is none).
     */
    method AttackNearestEnemy(rc: RobotController, enemies: seq<RobotInfo>) returns (target: Option<RobotInfo>)
      modifies rc`actionBudget, rc`attacks
      ensures target == Scan(rc.location, RobotLocation, enemies).item
      ensures target.None? <==> enemies == []
      ensures var fire := target.Some? && target.value.rtype != Headquarters
                          && old(rc.CanAttack(target.value.location));
              rc.attacks == old(rc.attacks) + (if fire then [target.value.location] else [])
              && rc.actionBudget == old(rc.actionBudget) - (if fire then 1 else 0)
    {
      target := FindNearestRobot(rc.location, enemies);
      if target.Some? && target.value.rtype != Headquarters && rc.CanAttack(target.value.location) {
        rc.Attack(target.value.location);
      }
    }

    /**
     * chaseEnemy: step toward the target only onto a square with a current;
     * failing that, try the random-scan heading under the same condition.
     */
    method ChaseEnemy(rc: RobotController, targetLocation: Location, startingPoint: int)
      returns (step: Option<Direction>)
      requires 0 <= startingPoint < 7
      modifies rc`location, rc`moveBudget, rc`moves
      ensures var canMove := CanMoveFrom(rc.open, old(rc.location), old(rc.moveBudget));
              step == ChaseMove(canMove, rc.hasCurrent, old(rc.location),
                                rc.directionTo(old(rc.location), targetLocation),
                                FirstOpen(canMove, CyclicOrder(startingPoint), Center))
      ensures Stepped(rc, old(rc.location), old(rc.moveBudget), old(rc.moves), step)
    {
      var canMove := CanMoveFrom(rc.open, rc.location, rc.moveBudget);
      var dir := rc.directionTo(rc.location, targetLocation);
      step := None;
      if rc.CanMove(dir) && rc.hasCurrent(Add(rc.location, dir)) {
        rc.Move(dir);
        step := Some(dir);
      } else {
        dir := GetRandDirection(canMove, startingPoint);
        if rc.CanMove(dir) && rc.hasCurrent(Add(rc.location, dir)) {
          rc.Move(dir);
          step := Some(dir);
        }
      }
    }

    /** evadeRobot: tryMoveTo in the heading opposite to the robot's direction. */
    method EvadeRobot(rc: RobotController, robot: RobotInfo) returns (heading: Direction, resolved: Direction)
      modifies this`currentDirection, rc`location, rc`moveBudget, rc`moves
      ensures heading == Opposite(rc.directionTo(old(rc.location), robot.location))
      ensures resolved == TryMoveHeading(CanMoveFrom(rc.open, old(rc.location), old(rc.moveBudget)),
                                         old(currentDirection), heading).0
      ensures TriedMove(rc, old(rc.location), old(rc.moveBudget), old(rc.moves), old(currentDirection),
                        heading, currentDirection)
    {
      heading := Opposite(rc.directionTo(rc.location, robot.location));
      resolved := TryMoveTo(rc, heading);
    }

    /** evadeEnemies: evade the nearest enemy, if any. */
    method EvadeEnemies(rc: RobotController, enemies: seq<RobotInfo>) returns (tactic: Tactic)
      modifies this`currentDirection, rc`location, rc`moveBudget, rc`moves
      ensures enemies == [] <==> tactic.Hold?
      ensures enemies == [] ==>
                currentDirection == old(currentDirection)
                && Stepped(rc, old(rc.location), old(rc.moveBudget), old(rc.moves), None)
      ensures enemies != [] ==>
                && tactic.Evade?
                && Scan(old(rc.location), RobotLocation, enemies).item == Some(tactic.from)
                && tactic.heading == Opposite(rc.directionTo(old(rc.location), tactic.from.location))
                && tactic.resolved == TryMoveHeading(CanMoveFrom(rc.open, old(rc.location), old(rc.moveBudget)),
                                                     old(currentDirection), tactic.heading).0
                && TriedMove(rc, old(rc.location), old(rc.moveBudget), old(rc.moves), old(currentDirection),
                             tactic.heading, currentDirection)
    {
      tactic := Hold;
      if |enemies| > 0 {
        var nearestEnemy := FindNearestRobot(rc.location, enemies);
        var heading, resolved := EvadeRobot(rc, nearestEnemy.value);
        tactic := Evade(nearestEnemy.value, heading, resolved);
      }
    }

    /**
     * chaseOrEvadeEnemy: sense allies and enemies again; a launcher that with
     * its allies outnumbers the enemies chases, everyone else evades.
     */
    method ChaseOrEvadeEnemy(rc: RobotController, targetLocation: Location, startingPoint: int)
      returns (tactic: Tactic)
      requires 0 <= startingPoint < 7
      modifies this`currentDirection, rc`location, rc`moveBudget, rc`moves
      ensures ChasedOrEvaded(rc, old(rc.location), old(rc.moveBudget), old(rc.moves), old(currentDirection),
                             currentDirection, targetLocation, startingPoint, tactic)
    {
      var allies := ScanForRobots(rc.sensed, rc.myTeam, "ally");
      var enemies := ScanForRobots(rc.sensed, rc.myTeam, "enemy");
      if |allies| + 1 > |enemies| && rc.myType == Launcher {
        var step := ChaseEnemy(rc, targetLocation, startingPoint);
        tactic := Chase(step);
      } else {
        tactic := EvadeEnemies(rc, enemies);
      }
    }

    /**
     * attackEnemy: with enemies in sight, fire at each eligible enemy while the
     * action cooldown allows, taking the last one fired at as the target
     * (enemies[0] if none), then chase or evade with that target.
     */
    method AttackEnemy(rc: RobotController, startingPoint: int) returns (target: Option<Location>, tactic: Tactic)
      requires 0 <= startingPoint < 7
      modifies this`currentDirection, rc`location, rc`moveBudget, rc`moves, rc`actionBudget, rc`attacks
      ensures var enemies := ScanForRobots(rc.sensed, rc.myTeam, "enemy");
              enemies == [] ==>
                && target.None? && tactic.Hold?
                && currentDirection == old(currentDirection)
                && Stepped(rc, old(rc.location), old(rc.moveBudget), old(rc.moves), None)
                && rc.attacks == old(rc.attacks) && rc.actionBudget == old(rc.actionBudget)
      ensures var enemies := ScanForRobots(rc.sensed, rc.myTeam, "enemy");
              enemies != [] ==>
                var v := Volleys(rc.attackable, old(rc.location), enemies,
                                 Volley(enemies[0].location, old(rc.actionBudget), []));
                && target == Some(v.target)
                && rc.attacks == old(rc.attacks) + v.hits
                && rc.actionBudget == v.budget
                && ChasedOrEvaded(rc, old(rc.location), old(rc.moveBudget), old(rc.moves), old(currentDirection),
                                  currentDirection, v.target, startingPoint, tactic)
    {
      var enemies := ScanForRobots(rc.sensed, rc.myTeam, "enemy");
      target := None;
      tactic := Hold;
      if |enemies| > 0 {
        var at := rc.location;
        var targetLocation := enemies[0].location;
        ghost var v0 := Volley(targetLocation, rc.actionBudget, []);
        ghost var before := rc.attacks;
        for i := 0 to |enemies|
          invariant rc.location == at
          invariant var v := Volleys(rc.attackable, at, enemies[..i], v0);
                    targetLocation == v.target && rc.actionBudget == v.budget && rc.attacks == before + v.hits
          modifies rc`actionBudget, rc`attacks
        {
          assert enemies[..i + 1][..i] == enemies[..i];
          var enemy := enemies[i];
          if enemy.rtype != Headquarters && rc.CanAttack(enemy.location) {
            targetLocation := enemy.location;
            rc.Attack(targetLocation);
          }
        }
        assert enemies[..|enemies|] == enemies;
        target := Some(targetLocation);
        tactic := ChaseOrEvadeEnemy(rc, targetLocation, startingPoint);
      }
    }

    /**
     * attackEnemy0: with enemies in sight, attack the nearest one (if the
     * guard allows) and chase or evade with it as the target.
     */
    method AttackEnemy0(rc: RobotController, startingPoint: int) returns (target: Option<RobotInfo>, tactic: Tactic)
      requires 0 <= startingPoint < 7
      modifies this`currentDirection, rc`location, rc`moveBudget, rc`moves, rc`actionBudget, rc`attacks
      ensures var enemies := ScanForRobots(rc.sensed, rc.myTeam, "enemy");
              enemies == [] ==>
                && target.None? && tactic.Hold?
                && currentDirection == old(currentDirection)
                && Stepped(rc, old(rc.location), old(rc.moveBudget), old(rc.moves), None)
                && rc.attacks == old(rc.attacks) && rc.actionBudget == old(rc.actionBudget)
      ensures var enemies := ScanForRobots(rc.sensed, rc.myTeam, "enemy");
              enemies != [] ==>
                && target.Some?
                && target == Scan(old(rc.location), RobotLocation, enemies).item
                && (var fire := target.value.rtype != Headquarters && old(rc.CanAttack(target.value.location));
                    && rc.attacks == old(rc.attacks) + (if fire then [target.value.location] else [])
                    && rc.actionBudget == old(rc.actionBudget) - (if fire then 1 else 0))
                && ChasedOrEvaded(rc, old(rc.location), old(rc.moveBudget), old(rc.moves), old(currentDirection),
                                  currentDirection, target.value.location, startingPoint, tactic)
    {
      var enemies := ScanForRobots(rc.sensed, rc.myTeam, "enemy");
      target := None;
      tactic := Hold;
      if |enemies| > 0 {
        target := AttackNearestEnemy(rc, enemies);
        tactic := ChaseOrEvadeEnemy(rc, target.value.location, startingPoint);
      }
    }

    /** findNearestWell: the nearest sensed well, by the as-written search; None when no well is sensed. */
    method FindNearestWell(rc: RobotController) returns (closest: Option<Location>)
      ensures closest == Scan(rc.location, Here, rc.wells).item
      ensures closest.None? <==> rc.wells == []
      ensures closest.Some? ==> closest.value in rc.wells
    {
      var wellLocs := [];
      for i := 0 to |rc.wells|
        invariant wellLocs == rc.wells[..i]
      {
        wellLocs := wellLocs + [rc.wells[i]];
      }
      assert wellLocs == rc.wells;
      closest := FindNearest(rc.location, wellLocs);
    }
  }
}
