# PoonPoon robot base — a Dafny model

This project models `Base`, the abstract class every robot of the PoonPoon
Battlecode 2023 player extends. It covers:

- **Bug navigation**. `bugNav` and the heading `currentDirection` it keeps
  between calls. `tryMoveTo` resolves a blocked heading through `bugNav` and
  then moves while moving is allowed.
- **Heading choice**. `getRandDirection` scans the eight compass headings
  cyclically. `getDirectionsTo` tries up to three preferred turns, with a
  `switch` that falls through, and then falls back to the cyclic scan.
- **Nearest searches**. The running-best scans over map locations, over
  robots and over sensed wells (`findNearestWell`). The shared-array search
  from a 3600 ceiling, which records its winner in the robot's
  `closestTargetCoord`. `returnToHQ`, which uses that
  cached key or searches the headquarters section.
- **Combat**. `attackEnemy` fires at every eligible enemy the action cooldown
  allows. `attackEnemy0` and `attackNearestEnemy` fire at the nearest
  enemy. The force comparison of `chaseOrEvadeEnemy`.
  `chaseEnemy` only steps onto squares whose `getCurrentDirection()` is not
  null (`hasCurrent`). `evadeRobot` and
  `evadeEnemies` head the opposite way.
- **Helpers**. The coordinate codec `x*100 + y` with Java's truncating `/` and
  `%`, the team and type filters of `scanForRobots`, `initialMapQuadrant`,
  the shared-array layout constants and `writeToCommsArray`.

How the model is laid out:

- Pure logic is written as functions and lemmas. That covers the codec,
  quadrants, filters, the specifications of the scans, bugNav's outcome and
  the combat rules.
- Code that changes state step by step is written as methods with loops,
  each proved against those functions.
- `Base` is a class with the two fields the code updates in place:
  - `currentDirection`.
  - `closestTargetCoord`. In the Java code this is a static field of the
    player class. Every Battlecode robot runs its own copy of the player,
    so it is modelled as per-robot state, starting at Java's default 0.
- The game's `RobotController` is the class `Controller.RobotController`. It
  holds:
  - the squares that can be entered and the squares whose
    `getCurrentDirection()` is not null;
  - which squares can be attacked;
  - the robots and wells sensed this turn;
  - the shared array;
  - how many moves and attacks the two cooldowns still allow this turn.

  Moves, attacks and shared-array writes are recorded in logs.
- `MapLocation.directionTo` is an uninterpreted function of the controller,
  because its rounding belongs to the game library.
- The two random draws become parameters. `mood` is any integer: values
  other than 0 and 1 take the `default` branch. `startingPoint` lies in
  0..6, the range of `nextInt(7)`.

Where the code does something a reader might not expect, the model follows
the code:

- `attackEnemy` starts from `enemies[0]` as its target, not from the nearest
  enemy.
- `attackEnemy` fires at every eligible enemy while `canAttack` allows it.
  The target ends up being the last enemy fired at. With the cooldown
  allowing one attack, this is the first eligible enemy
  (`Combat.SingleAttackHitsFirstEligible`).
- `chaseEnemy` falls back to the cyclic-scan heading, under the same
  current-tile condition, instead of standing still.
- `tryMoveTo(rc, MapLocation)` picks its heading with `getDirectionsTo`
  before `bugNav` is consulted.
- `returnToHQ` with no cached key walks toward (0, 0) when no listed
  headquarters is within squared distance 3600 (the search's starting
  ceiling) or when slot 0 lists none (`Nearest.FarHeadquartersIsIgnored`).
- `chaseOrEvadeEnemy` does not head for a headquarters when it does not
  chase: it evades the nearest enemy (`evadeEnemies`), and holds still when
  no enemy is sensed.

## Model

| member | source | states |
|---|---|---|
| Geometry.DistanceSquared | src/PoonPoon/Base.java:308 | squared distance is never negative and is 0 exactly for the same square |
| Geometry.RotateRightUndoesRotateLeft | src/PoonPoon/Base.java:374-378 | a right rotation undoes a left one; BugNavOutcome uses it to show the heading remembered after a success is the last heading that failed |
| Geometry.EightLeftRotationsIdentity | src/PoonPoon/Base.java:371-380 | eight left rotations give back the heading they started from |
| Geometry.EightRotationsCoverCompass | src/PoonPoon/Base.java:371-380 | from any compass heading, every compass heading is reached within eight left rotations |
| Codec.JavaDiv | src/PoonPoon/Base.java:272 | Java's integer division truncates toward zero: the quotient agrees with floor division for non-negative dividends and is never positive for non-positive ones |
| Codec.JavaRem | src/PoonPoon/Base.java:272 | Java's remainder completes the division identity and takes the sign of the dividend |
| Codec.Encode | src/PoonPoon/Base.java:267-269 | on a Battlecode map (coordinates 0..59) the key lies in 0..5959, so it fits a 16-bit shared-array slot |
| Codec.Decode | src/PoonPoon/Base.java:271-273 | every key decodes to a square that encodes back to the key; non-negative keys give x >= 0 and 0 <= y <= 99 |
| Codec.RoundTrip | src/PoonPoon/Base.java:267-273 | decoding an encoded square gives the square back exactly when x and y do not have opposite signs and abs(y) <= 99 |
| Codec.EncodeInjective | src/PoonPoon/Base.java:267-269 | on squares with x >= 0 and 0 <= y <= 99, distinct squares get distinct keys |
| Setup.SectionLayout | src/PoonPoon/Base.java:17-25 | the sections start at 1, 5, 9, 13, 17, 21 and 25, each exactly four slots after the previous one; the elixir-well section and the island section both start at index 25 |
| Setup.InitialMapQuadrant | src/PoonPoon/Base.java:47-64 | the result is 1 to 4, and each quadrant holds exactly for its region relative to the truncated half-width and half-height; squares on the middle column or middle row go to 1 or 4, as the if-chain orders them |
| Robots.Opponent | src/PoonPoon/Base.java:140 | the opponent of A or B is the other playing team |
| Robots.OfTeam | src/PoonPoon/Base.java:149 | a team scan is no longer than what was sensed and holds only sensed robots of that team |
| Robots.ScanForRobots | src/PoonPoon/Base.java:136-150 | the scan holds only sensed robots: of the opponent team for "enemy", of the own team for every other status |
| Robots.UnknownStatusMeansAlly | src/PoonPoon/Base.java:138-148 | every status other than "enemy" gives the same scan as "ally" |
| Robots.OfTeamMembers | src/PoonPoon/Base.java:136-150 | a robot is in a team scan exactly when it was sensed and is on that team |
| Robots.AlliesAndEnemiesDisjoint | src/PoonPoon/Base.java:139-144 | for a playing team, no robot is both in the ally scan and in the enemy scan |
| Robots.OfTypeMembers | src/PoonPoon/Base.java:347-356 | a robot is in the type filter exactly when it is in the input and has that type |
| Robots.OfTypeAppend | src/PoonPoon/Base.java:350-355 | the type filter distributes over concatenation, so the relative order of the input is kept |
| Robots.ScanForRobotsOfType | src/PoonPoon/Base.java:347-356 | the list the loop builds is the type filter of the team scan, in sensing order, and every element has the requested type |
| Nearest.ScanShape | src/PoonPoon/Base.java:303-315 | the scan keeps nothing exactly on empty input; otherwise it keeps an input element with its own distance |
| Nearest.ScanFindsFirstNearest | src/PoonPoon/Base.java:303-315 | when every candidate is at positive distance, the scan keeps the first candidate of minimal squared distance |
| Nearest.ZeroDistanceIsReplaced | src/PoonPoon/Base.java:309-311 | a candidate at distance 0 is kept with distance 0, and the next candidate replaces it whatever its distance |
| Nearest.ZeroDistanceCandidateLost | src/PoonPoon/Base.java:306-312 | standing on the first candidate, the search answers the second, farther one |
| Nearest.FindNearestBy | src/PoonPoon/Base.java:303-315 | the running-best loop computes the scan; the answer is None exactly on empty input and is otherwise one of the inputs |
| Nearest.FindNearest | src/PoonPoon/Base.java:303-315 | findNearest over locations: null exactly on an empty array, otherwise an element of the array, as the scan defines it |
| Nearest.FindNearestRobot | src/PoonPoon/Base.java:333-345 | findNearestRobot: null exactly on an empty array, otherwise one of the robots, as the scan defines it |
| Nearest.ScanFlaggedFindsFirstNearest | src/PoonPoon/Base.java:303-315 | with an explicit "nothing yet" flag, the first nearest candidate wins on every non-empty input |
| Nearest.ScansAgreeWithoutZeroDistance | src/PoonPoon/Base.java:333-345 | when no candidate is at distance 0 (robots never share the searcher's square), the as-written and the flagged search agree |
| Nearest.FindNearestFlagged | src/PoonPoon/Base.java:303-315 | the corrected search: None exactly on empty input, otherwise the first candidate of minimal distance |
| Nearest.FarHeadquartersIsIgnored | src/PoonPoon/Base.java:286-296 | standing at (50, 40) with one headquarters listed at (2, 2), squared distance 3748, the search from key 0 answers key 0, which decodes to (0, 0) |
| Nearest.SliceBestSpec | src/PoonPoon/Base.java:284-297 | over indices [start, end): if no entry is nearer than 3600 the remembered key is unchanged; otherwise it becomes the first entry of minimal distance, which is below 3600 |
| Navigation.ProbeLeftSpec | src/PoonPoon/Base.java:369-380 | the probes fail on the first i left rotations; the i-th is then returned with the remembered heading one step right of it, or all probes fail and Center is returned with the heading rotated k times |
| Navigation.BugNavOutcome | src/PoonPoon/Base.java:361-383 | bugNav makes at most eight probes: a movable start heading (the remembered one, else the argument) is kept unchanged; otherwise the first movable left rotation is returned and remembered one step right, which is the last heading that failed; after eight failures Center is returned and the remembered heading is back where it started |
| Navigation.BugNavFindsAnOpening | src/PoonPoon/Base.java:361-383 | from a compass heading, bugNav returns Center exactly when no compass heading is movable, and otherwise a movable heading |
| Navigation.ProbeLeftFromCenter | src/PoonPoon/Base.java:371-380 | probing from Center answers Center and leaves Center, since Center rotates to Center |
| Navigation.CenterStartIsStuck | src/PoonPoon/Base.java:363-382 | when the start heading is Center, bugNav answers Center and remembers Center, whatever is movable |
| Navigation.CompassStart | src/PoonPoon/Base.java:363-365 | the corrected start is never Center, and equals bugNav's start whenever that is a compass heading |
| Navigation.CompassBugNavFindsAnOpening | src/PoonPoon/Base.java:358-383 | with the corrected start, for every remembered heading and argument: Center exactly when no compass heading is movable, otherwise a movable heading, and the remembered heading is never Center |
| Navigation.FirstOpenCases | src/PoonPoon/Base.java:103-113 | the first-movable choice is a movable candidate, or the fallback when no candidate is movable |
| Navigation.FirstOpenAt | src/PoonPoon/Base.java:103-113 | the first movable candidate in order is the one chosen |
| Navigation.CyclicOrder | src/PoonPoon/Base.java:103-112 | the scan order is the direction table read from startingPoint to the end, then from the start up to startingPoint |
| Navigation.CyclicScanSpec | src/PoonPoon/Base.java:100-114 | the cyclic scan answers Center exactly when no compass heading is movable, and otherwise a movable heading |
| Navigation.GetRandDirection | src/PoonPoon/Base.java:100-114 | the two loops return the first movable heading in cyclic order from startingPoint; Center exactly when none of the eight is movable |
| Navigation.GetDirectionsTo | src/PoonPoon/Base.java:72-94 | with fall-through, mood 0 tries straight, right, left, mood 1 tries right, left, and other moods try left, then the cyclic scan; toward a compass heading the answer is Center exactly when all eight headings are blocked, and otherwise movable |
| Controller.AdvanceStopsBlocked | src/PoonPoon/Base.java:160-162 | after the greedy moves the next move in that heading is not allowed, and every earlier move was |
| Combat.VolleysSpec | src/PoonPoon/Base.java:181-189 | each attack spends one action; the squares hit are a prefix of the eligible enemies in order, and all of them while actions remain; the target is the last square hit, or enemies[0]'s if none |
| Combat.SingleAttackHitsFirstEligible | src/PoonPoon/Base.java:182-189 | with one action available, exactly the first eligible enemy (not an HQ, attackable) in sensing order is hit and becomes the target |
| Combat.UnlimitedAttacksHitAllEligible | src/PoonPoon/Base.java:182-189 | with enough actions, every eligible enemy is hit in order and the last one is the target |
| Combat.EligibleLocationsMembers | src/PoonPoon/Base.java:183 | a square is among those fired at exactly when a sensed enemy on it is not an HQ and can be attacked |
| Combat.ChaseIsMonotone | src/PoonPoon/Base.java:228 | more allies or fewer enemies never turn a chase into an evasion |
| Combat.ShouldChase | src/PoonPoon/Base.java:228 | counting itself, the robot chases exactly when it is a launcher and the enemies are no more than its allies |
| Combat.ChaseMoveSpec | src/PoonPoon/Base.java:235-247 | a chase moves at most once, only onto a square whose `getCurrentDirection()` is not null (`hasCurrent`), prefers the heading toward the target, and stays exactly when neither heading qualifies |
| PoonPoon.Base.constructor | src/PoonPoon/Base.java:28 | a new robot has no remembered heading and no remembered target key |
| PoonPoon.Base.BugNav | src/PoonPoon/Base.java:361-383 | fast path: the remembered heading (the argument if none) is returned and kept when movable; otherwise the returned and the new remembered heading are those of the bugNav specification; the result is Center or movable |
| PoonPoon.Base.CompassBugNav | src/PoonPoon/Base.java:361-383 | the corrected bugNav: Center exactly when no compass heading is movable, otherwise a movable heading, and the remembered heading is always a compass heading |
| PoonPoon.BlockedTurnRemembersCenter | src/PoonPoon/Base.java:152-158 | with every heading blocked and nothing remembered, getDirectionsTo answers Center, tryMoveTo remembers Center, and every later bugNav answers Center whatever is movable |
| PoonPoon.Base.TryMoveTo | src/PoonPoon/Base.java:156-163 | the resolved heading is `dir` when movable (remembered heading unchanged), else bugNav's answer with bugNav's new remembered heading; the robot then moves in it as far as the moves allow and ends unable to move on |
| PoonPoon.Base.KeepMoving | src/PoonPoon/Base.java:160-162 | the loop moves exactly as many times as the greedy advance allows, logs each move, and stops unable to move |
| PoonPoon.Base.TryMoveToward | src/PoonPoon/Base.java:152-154 | the heading is getDirectionsTo's choice toward the target, and the resolved heading, the remembered heading and the moves are tryMoveTo's for it |
| PoonPoon.Base.FindNearestInComms | src/PoonPoon/Base.java:284-297 | the remembered key becomes the slice search's winner (unchanged if no entry beats 3600), and the answer is its decoding |
| PoonPoon.Base.LocateHQ | src/PoonPoon/Base.java:207-212 | the cached key is kept when non-zero; otherwise it becomes the result of the headquarters-slot search: the first nearest listed headquarters within squared distance 3600, or still 0 when none is that near or none is listed; the answer decodes the key, so a key of 0 gives (0, 0) |
| PoonPoon.Base.ReturnToHQ | src/PoonPoon/Base.java:206-216 | a non-zero cached key is kept and decoded; a zero key becomes the result of the search over the headquarters slots after slot 0, counted by slot 0 divided by ten: the first nearest listed headquarters within squared distance 3600, or still 0, which decodes to (0, 0), when none is that near or none is listed; the robot then runs tryMoveTo toward the decoded square, with its heading, remembered heading and moves stated |
| PoonPoon.Base.WriteToCommsArray | src/PoonPoon/Base.java:275-279 | the slot is written exactly when the controller allows the write; nothing else changes |
| PoonPoon.Base.AttackNearestEnemy | src/PoonPoon/Base.java:196-201 | the answer is the as-written nearest enemy; it is attacked, once, exactly when it exists, is not an HQ and can be attacked |
| PoonPoon.Base.ChaseEnemy | src/PoonPoon/Base.java:235-247 | the step taken is the chase rule's: toward the target, else the cyclic-scan heading, and only onto a square whose `getCurrentDirection()` is not null; no move, or exactly one logged move that spends one move of the budget |
| PoonPoon.Base.EvadeRobot | src/PoonPoon/Base.java:252-255 | the heading is the opposite of the direction to the robot; the resolved heading, the remembered heading and the moves are tryMoveTo's for it |
| PoonPoon.Base.EvadeEnemies | src/PoonPoon/Base.java:260-265 | with no enemies nothing changes; otherwise the robot runs tryMoveTo away from the as-written nearest enemy, with the resolved heading, the remembered heading and the moves stated |
| PoonPoon.Base.ChaseOrEvadeEnemy | src/PoonPoon/Base.java:224-233 | the robot chases exactly when it is a launcher and allies plus one outnumber the enemies, taking the chase step toward the target; otherwise it runs tryMoveTo away from the nearest enemy, or holds still when no enemy is sensed; the moves and the remembered heading are stated in each case |
| PoonPoon.Base.AttackEnemy | src/PoonPoon/Base.java:178-192 | with no enemies nothing changes; otherwise the attacks, the remaining actions and the target follow the attack loop's specification, and the robot then chases or evades exactly as chaseOrEvadeEnemy does with that target |
| PoonPoon.Base.AttackEnemy0 | src/PoonPoon/Base.java:170-176 | with no enemies nothing changes; otherwise the as-written nearest enemy is attacked exactly when it is not an HQ and can be attacked, and the robot chases or evades with its square as the target |
| PoonPoon.Base.FindNearestWell | src/PoonPoon/Base.java:321-327 | the nearest sensed well by the as-written search: None exactly when no well is sensed, otherwise one of the sensed wells |

## Left out

- I/O and the game engine. Every `RobotController` query is a field or
  function of the controller model, fixed for the turn.
  - Sensing is not refreshed after a move or a kill within the same call.
  - `senseMapInfo(..).getCurrentDirection() != null` is the predicate
    `hasCurrent`.
- `setIndicatorString` is not modelled, because it never affects a decision.
- `GameActionException` is not modelled. Every action is guarded by its
  `can…` check, so the guarded calls cannot throw in the model.
- `java.util.Random` is replaced by the parameters `mood` and
  `startingPoint`.
- `MapLocation.directionTo` is uninterpreted. The exact heading the library
  picks is not modelled, so no lemma names a concrete evade heading.
- `getExploreDirection` is not modelled. It discards the value of
  `MapLocation.add`, and its effect depends on library code that is not part
  of this model.
- A sensed well (`WellInfo`) is reduced to its square, the only part
  `findNearestWell` reads.
- The unused `currentdirection` field, `initialRobotCount` and
  `quadRadiusFraction` (which is always 0) are not modelled, because no code
  reads them.
- The abstract `run` and the `RobotPlayer` class are not part of this model.
- Codec.Encode: 32-bit overflow of `x*100 + y` is not modelled. Battlecode
  maps are at most 60 by 60, so keys stay far below the limit.
- Controller.RobotController: `open(at, Center)` is left free, so the model
  allows `canMove(Center)`, and a "move" in Center then stays on the same
  square. The game refuses it because the robot occupies its own square; no
  proved property depends on that case.
- The game engine's movement cooldown is a move budget in the model.
  - `tryMoveTo`'s loop ends when the budget runs out or the square ahead is
    closed.
  - The engine's real cooldown arithmetic is not modelled.
- The action cooldown is an attack budget, with the same caveat as the move
  budget.
- PoonPoon.Base.ReturnToHQ: the requires demands what the shared array
  guarantees when no key is cached:
  - slot 0 holds a non-negative count;
  - the headquarters slots it names exist.

  An out-of-range read, which throws in the game, is not modelled.
- PoonPoon.Base.FindNearestInComms: the requires asks for
  `startIndex <= endIndex`, both within the shared array, which every call
  meets. With `startIndex > endIndex` the `!=` loop runs past `endIndex`
  until a shared-array read throws; that case is not modelled.
- PoonPoon.Base.LocateHQ: the cached key is decoded only when it is used.
  Decoding has no effect, so this matches decoding it first and then
  overwriting it.
- A shared-array value is any integer, apart from the write guard's 0..65535
  range.

## Findings

| source | as written | input that shows it | evidently intended | confidence | as-written member | corrected member |
|---|---|---|---|---|---|---|
| src/PoonPoon/Base.java:306-312 | a running best distance of 0 doubles as the "nothing kept yet" marker, so once a candidate at distance 0 is kept, the next candidate replaces it | standing at (3, 4), the locations [(3, 4), (9, 9)] give (9, 9) | the first candidate of minimal distance, here (3, 4) | high, not executed | Nearest.ZeroDistanceCandidateLost | Nearest.FindNearestFlagged |
| src/PoonPoon/Base.java:363-365 | with nothing remembered, the requested heading becomes the remembered one even when it is Center; Center rotates to Center, so from then on every bugNav answers Center | the robot's first `tryMoveTo(rc, MapLocation)` happens while every heading is blocked (say the movement cooldown is not ready): getDirectionsTo answers Center and bugNav remembers it; on later turns a blocked request is answered with Center even when every other heading is open | the remembered heading stays a compass heading, so bugNav answers Center only when nothing is movable | high, not executed | PoonPoon.BlockedTurnRemembersCenter | PoonPoon.Base.CompassBugNav |

The same loop in `findNearestRobot` (src/PoonPoon/Base.java:333-345) keeps
the as-written test in the combat model. No other robot stands on the
searching robot's square, so every candidate there is at positive distance.
`Nearest.ScansAgreeWithoutZeroDistance` proves that both searches then give
the same answer.

`PoonPoon.Base.TryMoveTo` keeps the as-written `bugNav` call, so the movement
model reproduces the stuck heading. `PoonPoon.Base.CompassBugNav` is the
corrected navigation: it replaces a Center start by North before probing,
and `Navigation.CompassBugNavFindsAnOpening` proves that it then finds an
opening whenever there is one, whatever heading was remembered.
