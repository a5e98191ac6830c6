/**
 * The combat rules as pure functions: which enemies attackEnemy fires at and
 * which target it hands on, the force comparison of chaseOrEvadeEnemy, and the
 * one step chaseEnemy may take.
 */
module Combat {
  import opened Geometry
  import opened Robots
  import opened Wrappers

  /** An enemy attackEnemy may fire at: not a headquarters and attackable from `at`. */
  predicate Eligible(attackable: (Location, Location) -> bool, at: Location, e: RobotInfo)
  {
    e.rtype != Headquarters && attackable(at, e.location)
  }

  /** The state of attackEnemy's loop: target location, attacks still allowed, squares hit. */
  datatype Volley = Volley(target: Location, budget: nat, hits: seq<Location>)

  /** One iteration: fire at an eligible enemy while the action cooldown allows it. */
  function AttackStep(attackable: (Location, Location) -> bool, at: Location, v: Volley, e: RobotInfo): Volley
  {
    if Eligible(attackable, at, e) && v.budget > 0
    then Volley(e.location, v.budget - 1, v.hits + [e.location])
    else v
  }

  /** The loop over all enemies, in order. */
  function Volleys(attackable: (Location, Location) -> bool, at: Location, enemies: seq<RobotInfo>, v0: Volley): Volley
  {
    if enemies == [] then v0
    else AttackStep(attackable, at, Volleys(attackable, at, enemies[..|enemies| - 1], v0), enemies[|enemies| - 1])
  }

  /** Locations of the eligible enemies, in order. */
  function EligibleLocations(attackable: (Location, Location) -> bool, at: Location, enemies: seq<RobotInfo>): seq<Location>
  {
    if enemies == [] then []
    else
      var last := enemies[|enemies| - 1];
      EligibleLocations(attackable, at, enemies[..|enemies| - 1])
        + (if Eligible(attackable, at, last) then [last.location] else [])
  }

  /**
   * Every attack spends one action, hits an eligible enemy, and the attacks are
   * a prefix of the eligible enemies in order; the target is the last square
   * hit, or the initial target if nothing was hit.
   */
  lemma {:induction false} VolleysSpec(attackable: (Location, Location) -> bool, at: Location, enemies: seq<RobotInfo>, v0: Volley)
    requires v0.hits == []
    ensures var v := Volleys(attackable, at, enemies, v0);
            && v.budget + |v.hits| == v0.budget
            && v.hits <= EligibleLocations(attackable, at, enemies)
            && (v.hits == [] ==> v.target == v0.target)
            && (v.hits != [] ==> v.target == v.hits[|v.hits| - 1])
            && (v.budget > 0 ==> v.hits == EligibleLocations(attackable, at, enemies))
  {
    if enemies != [] {
      VolleysSpec(attackable, at, enemies[..|enemies| - 1], v0);
    }
  }

  /**
   * When the action cooldown allows a single attack, the only square hit is
   * that of the first eligible enemy in sensing order, and it becomes the
   * target; with no eligible enemy nothing is hit and the target is unchanged.
   */
  lemma SingleAttackHitsFirstEligible(attackable: (Location, Location) -> bool, at: Location, enemies: seq<RobotInfo>, v0: Volley)
    requires v0.hits == [] && v0.budget == 1
    ensures var v := Volleys(attackable, at, enemies, v0);
            var eligible := EligibleLocations(attackable, at, enemies);
            && (eligible == [] ==> v == v0)
            && (eligible != [] ==> v.hits == [eligible[0]] && v.target == eligible[0] && v.budget == 0)
  {
    VolleysSpec(attackable, at, enemies, v0);
  }

  /** With enough actions, every eligible enemy is hit and the last one is the target. */
  lemma UnlimitedAttacksHitAllEligible(attackable: (Location, Location) -> bool, at: Location, enemies: seq<RobotInfo>, v0: Volley)
    requires v0.hits == [] && v0.budget > |enemies|
    ensures var v := Volleys(attackable, at, enemies, v0);
            var eligible := EligibleLocations(attackable, at, enemies);
            && v.hits == eligible
            && (eligible != [] ==> v.target == eligible[|eligible| - 1])
  {
    VolleysSpec(attackable, at, enemies, v0);
    EligibleLocationsBound(attackable, at, enemies);
  }

  lemma {:induction false} EligibleLocationsBound(attackable: (Location, Location) -> bool, at: Location, enemies: seq<RobotInfo>)
    ensures |EligibleLocations(attackable, at, enemies)| <= |enemies|
  {
    if enemies != [] {
      EligibleLocationsBound(attackable, at, enemies[..|enemies| - 1]);
    }
  }

  /** A square lies in EligibleLocations exactly when an eligible enemy stands on it. */
  lemma {:induction false} EligibleLocationsMembers(attackable: (Location, Location) -> bool, at: Location, enemies: seq<RobotInfo>, l: Location)
    ensures l in EligibleLocations(attackable, at, enemies) <==>
            exists e :: e in enemies && Eligible(attackable, at, e) && e.location == l
  {
    if enemies != [] {
      var init := enemies[..|enemies| - 1];
      var last := enemies[|enemies| - 1];
      EligibleLocationsMembers(attackable, at, init, l);
      assert enemies == init + [last];
      if Eligible(attackable, at, last) && last.location == l {
        assert last in enemies;
      }
    }
  }

  /**
   * chaseOrEvadeEnemy's force comparison: chase when the allies plus this robot
   * outnumber the enemies and this robot is a launcher. Counting itself, a
   * launcher chases exactly when the enemies are no more than its allies.
   */
  function ShouldChase(allies: int, enemies: int, myType: RobotType): (chase: bool)
    ensures chase <==> myType == Launcher && enemies <= allies
  {
    allies + 1 > enemies && myType == Launcher
  }

  /** More allies never turn a chase into an evasion; more enemies never turn an evasion into a chase. */
  lemma ChaseIsMonotone(allies: int, enemies: int, moreAllies: int, fewerEnemies: int, t: RobotType)
    requires allies <= moreAllies && fewerEnemies <= enemies
    ensures ShouldChase(allies, enemies, t) ==> ShouldChase(moreAllies, fewerEnemies, t)
  {
  }

  /** A step chaseEnemy may take: allowed and onto a square with a current. */
  predicate ChaseStepAllowed(canMove: Direction -> bool, hasCurrent: Location -> bool, at: Location, d: Direction)
  {
    canMove(d) && hasCurrent(Add(at, d))
  }

  /**
   * chaseEnemy: step toward the target if that step is allowed, else step in
   * the fallback (random scan) heading if that is allowed, else stay.
   */
  function ChaseMove(canMove: Direction -> bool, hasCurrent: Location -> bool, at: Location,
                     toward: Direction, fallback: Direction): Option<Direction>
  {
    if ChaseStepAllowed(canMove, hasCurrent, at, toward) then Some(toward)
    else if ChaseStepAllowed(canMove, hasCurrent, at, fallback) then Some(fallback)
    else None
  }

  /**
   * A chase moves at most once, only onto a square with a current, and prefers
   * the heading toward the target; it stays exactly when neither heading allows it.
   */
  lemma ChaseMoveSpec(canMove: Direction -> bool, hasCurrent: Location -> bool, at: Location,
                      toward: Direction, fallback: Direction)
    ensures var m := ChaseMove(canMove, hasCurrent, at, toward, fallback);
            && (m.Some? ==> canMove(m.value) && hasCurrent(Add(at, m.value))
                            && (m.value == toward || m.value == fallback))
            && (ChaseStepAllowed(canMove, hasCurrent, at, toward) ==> m == Some(toward))
            && (m.None? <==> !ChaseStepAllowed(canMove, hasCurrent, at, toward)
                             && !ChaseStepAllowed(canMove, hasCurrent, at, fallback))
  {
  }
}
