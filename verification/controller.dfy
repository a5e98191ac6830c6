/**
 * The part of the game's RobotController that the robot code consults during
 * one turn, reduced to what the decisions depend on: where the robot stands,
 * which neighbouring squares it may step onto, how many moves and actions its
 * cooldowns still allow this turn, what it has sensed, and the shared array.
 * Moves, attacks and shared-array writes are recorded, not simulated.
 */
module Controller {
  import opened Geometry
  import opened Robots

  /** Largest value a shared-array slot holds (16 bits). */
  const MaxSharedValue := 65535

  class RobotController {
    /** Whether the square next to `at` in direction `d` can be stepped onto. */
    const open: (Location, Direction) -> bool
    /** Whether a square has a current (senseMapInfo(..).getCurrentDirection() != null). */
    const hasCurrent: Location -> bool
    /** Whether a robot at the first square can attack the second (range and visibility). */
    const attackable: (Location, Location) -> bool
    /** MapLocation.directionTo, whose rounding belongs to the game library. */
    const directionTo: (Location, Location) -> Direction
    const myTeam: Team
    const myType: RobotType
    /** Every other robot sensed this turn, in the order sensing reports them. */
    const sensed: seq<RobotInfo>
    /** The squares of the wells sensed this turn, in the order sensing reports them. */
    const wells: seq<Location>
    /** Whether this robot may write the shared array this turn. */
    const mayWriteShared: bool

    var location: Location
    /** Moves the movement cooldown still allows this turn. */
    var moveBudget: nat
    /** Attacks the action cooldown still allows this turn. */
    var actionBudget: nat
    /** Moves made this turn, in order. */
    var moves: seq<Direction>
    /** Squares attacked this turn, in order. */
    var attacks: seq<Location>
    var shared: seq<int>

    constructor (open: (Location, Direction) -> bool, hasCurrent: Location -> bool,
                 attackable: (Location, Location) -> bool, directionTo: (Location, Location) -> Direction,
                 myTeam: Team, myType: RobotType, sensed: seq<RobotInfo>, wells: seq<Location>,
                 mayWriteShared: bool,
                 location: Location, moveBudget: nat, actionBudget: nat, shared: seq<int>)
      ensures this.open == open && this.hasCurrent == hasCurrent
      ensures this.attackable == attackable && this.directionTo == directionTo
      ensures this.myTeam == myTeam && this.myType == myType && this.sensed == sensed && this.wells == wells
      ensures this.mayWriteShared == mayWriteShared
      ensures this.location == location && this.moveBudget == moveBudget
      ensures this.actionBudget == actionBudget && this.shared == shared
      ensures moves == [] && attacks == []
    {
      this.open := open;
      this.hasCurrent := hasCurrent;
      this.attackable := attackable;
      this.directionTo := directionTo;
      this.myTeam := myTeam;
      this.myType := myType;
      this.sensed := sensed;
      this.wells := wells;
      this.mayWriteShared := mayWriteShared;
      this.location := location;
      this.moveBudget := moveBudget;
      this.actionBudget := actionBudget;
      this.moves := [];
      this.attacks := [];
      this.shared := shared;
    }

    function CanMove(d: Direction): bool
      reads this
    {
      CanMoveFrom(open, location, moveBudget)(d)
    }

    function CanAttack(target: Location): bool
      reads this
    {
      actionBudget > 0 && attackable(location, target)
    }

    function CanWriteShared(index: int, value: int): bool
      reads this
    {
      mayWriteShared && 0 <= index < |shared| && 0 <= value <= MaxSharedValue
    }

    method Move(d: Direction)
      requires CanMove(d)
      modifies this`location, this`moveBudget, this`moves
      ensures location == Add(old(location), d)
      ensures moveBudget == old(moveBudget) - 1
      ensures moves == old(moves) + [d]
    {
      location := Add(location, d);
      moveBudget := moveBudget - 1;
      moves := moves + [d];
    }

    method Attack(target: Location)
      requires CanAttack(target)
      modifies this`actionBudget, this`attacks
      ensures actionBudget == old(actionBudget) - 1
      ensures attacks == old(attacks) + [target]
    {
      actionBudget := actionBudget - 1;
      attacks := attacks + [target];
    }

    method WriteShared(index: int, value: int)
      requires CanWriteShared(index, value)
      modifies this`shared
      ensures shared == old(shared)[index := value]
    {
      shared := shared[index := value];
    }

    /**
     * After moving `n` times in direction `d` from (at, budget, before), this
     * is the state: the moves are logged, the budget is spent, the robot has
     * walked `n` squares.
     */
    ghost predicate MovedFrom(at: Location, budget: nat, before: seq<Direction>, d: Direction, n: nat)
      reads this
    {
      && n <= budget
      && moves == before + Repeat(d, n)
      && moveBudget == budget - n
      && location == Walk(at, d, n)
    }
  }

  /** The canMove snapshot of a robot at `at` with `budget` moves left. */
  function CanMoveFrom(open: (Location, Direction) -> bool, at: Location, budget: nat): Direction -> bool
  {
    (d: Direction) => budget > 0 && open(at, d)
  }

  /** `n` copies of `d`. */
  function Repeat(d: Direction, n: nat): seq<Direction>
  {
    seq(n, _ => d)
  }

  /** The square reached after `n` steps in direction `d`. */
  function Walk(at: Location, d: Direction, n: nat): Location
  {
    if n == 0 then at else Add(Walk(at, d, n - 1), d)
  }

  /** How many moves in direction `d` succeed in a row from `at` with `budget` moves left. */
  function Advance(open: (Location, Direction) -> bool, at: Location, budget: nat, d: Direction): (n: nat)
    ensures n <= budget
    decreases budget
  {
    if budget > 0 && open(at, d) then 1 + Advance(open, Add(at, d), budget - 1, d) else 0
  }

  /** After `Advance` moves the next move in the same direction is not allowed. */
  lemma {:induction false} AdvanceStopsBlocked(open: (Location, Direction) -> bool, at: Location, budget: nat, d: Direction)
    ensures var n := Advance(open, at, budget, d);
            !CanMoveFrom(open, Walk(at, d, n), budget - n)(d)
            && forall k :: 0 <= k < n ==> CanMoveFrom(open, Walk(at, d, k), budget - k)(d)
    decreases budget
  {
    var n := Advance(open, at, budget, d);
    if n > 0 {
      var next := Add(at, d);
      AdvanceStopsBlocked(open, next, budget - 1, d);
      WalkShift(at, d, n - 1);
      forall k | 0 <= k < n
        ensures CanMoveFrom(open, Walk(at, d, k), budget - k)(d)
      {
        if k > 0 {
          WalkShift(at, d, k - 1);
        }
      }
    }
  }

  /** Walking one step and then `n` more is walking `n + 1` steps. */
  lemma {:induction false} WalkShift(at: Location, d: Direction, n: nat)
    ensures Walk(Add(at, d), d, n) == Walk(at, d, n + 1)
  {
    if n > 0 {
      WalkShift(at, d, n - 1);
    }
  }
}
