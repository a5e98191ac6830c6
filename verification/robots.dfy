/**
 * Sensed robots and the two ways the code narrows a sensing result: by team
 * (scanForRobots with a status string) and by robot type (the overload that
 * also takes a type and copies matching robots into a list).
 */
module Robots {
  import opened Geometry

  datatype Team = A | B | Neutral

  /** Team.opponent(): A and B swap, Neutral stays Neutral. */
  function Opponent(t: Team): (o: Team)
    ensures (t == Neutral) <==> (o == Neutral)
    ensures t != Neutral ==> o != t && o != Neutral
  {
    match t
    case A => B
    case B => A
    case Neutral => Neutral
  }

  datatype RobotType = Headquarters | Carrier | Launcher | Amplifier | Destabilizer | Booster

  /** What sensing reports about one other robot. */
  datatype RobotInfo = RobotInfo(id: int, team: Team, rtype: RobotType, location: Location)

  function RobotLocation(r: RobotInfo): Location
  {
    r.location
  }

  /** The robots of team `t`, in sensing order. */
  function OfTeam(robots: seq<RobotInfo>, t: Team): (r: seq<RobotInfo>)
    ensures |r| <= |robots|
    ensures forall i :: 0 <= i < |r| ==> r[i].team == t && r[i] in robots
  {
    if robots == [] then []
    else
      var last := robots[|robots| - 1];
      OfTeam(robots[..|robots| - 1], t) + (if last.team == t then [last] else [])
  }

  /**
   * scanForRobots(rc, status): "enemy" selects the opponent of the own team;
   * "ally" and every other string select the own team.
   */
  function ScanForRobots(sensed: seq<RobotInfo>, myTeam: Team, status: string): (r: seq<RobotInfo>)
    ensures |r| <= |sensed|
    ensures status == "enemy" ==> forall i :: 0 <= i < |r| ==> r[i] in sensed && r[i].team == Opponent(myTeam)
    ensures status != "enemy" ==> forall i :: 0 <= i < |r| ==> r[i] in sensed && r[i].team == myTeam
  {
    OfTeam(sensed, if status == "enemy" then Opponent(myTeam) else myTeam)
  }

  /** Any status other than "enemy" behaves exactly like "ally". */
  lemma UnknownStatusMeansAlly(sensed: seq<RobotInfo>, myTeam: Team, status: string)
    requires status != "enemy"
    ensures ScanForRobots(sensed, myTeam, status) == ScanForRobots(sensed, myTeam, "ally")
  {
  }

  /** A robot is in a team scan exactly when it was sensed and belongs to that team. */
  lemma {:induction false} OfTeamMembers(robots: seq<RobotInfo>, t: Team, x: RobotInfo)
    ensures x in OfTeam(robots, t) <==> x in robots && x.team == t
  {
    if robots != [] {
      var init := robots[..|robots| - 1];
      OfTeamMembers(init, t, x);
      assert robots == init + [robots[|robots| - 1]];
    }
  }

  /** For a robot on team A or B, the ally and enemy scans share no robot. */
  lemma AlliesAndEnemiesDisjoint(sensed: seq<RobotInfo>, myTeam: Team, x: RobotInfo)
    requires myTeam != Neutral
    ensures !(x in ScanForRobots(sensed, myTeam, "ally") && x in ScanForRobots(sensed, myTeam, "enemy"))
  {
    OfTeamMembers(sensed, myTeam, x);
    OfTeamMembers(sensed, Opponent(myTeam), x);
  }

  /** The robots of type `k`, in sensing order (the reference for the list-building loop). */
  function OfType(robots: seq<RobotInfo>, k: RobotType): seq<RobotInfo>
  {
    if robots == [] then []
    else
      var last := robots[|robots| - 1];
      OfType(robots[..|robots| - 1], k) + (if last.rtype == k then [last] else [])
  }

  /** Filtering by type keeps exactly the robots of that type. */
  lemma {:induction false} OfTypeMembers(robots: seq<RobotInfo>, k: RobotType, x: RobotInfo)
    ensures x in OfType(robots, k) <==> x in robots && x.rtype == k
  {
    if robots != [] {
      var init := robots[..|robots| - 1];
      OfTypeMembers(init, k, x);
      assert robots == init + [robots[|robots| - 1]];
    }
  }

  /** Filtering by type commutes with concatenation, so the relative order is kept. */
  lemma {:induction false} OfTypeAppend(a: seq<RobotInfo>, b: seq<RobotInfo>, k: RobotType)
    ensures OfType(a + b, k) == OfType(a, k) + OfType(b, k)
    decreases |b|
  {
    if b == [] {
      assert a + b == a;
    } else {
      var init := b[..|b| - 1];
      OfTypeAppend(a, init, k);
      assert (a + b)[..|a + b| - 1] == a + init;
    }
  }

  /**
   * scanForRobots(rc, allyOrEnemy, type): the loop copies each robot of the
   * requested type into a list, in sensing order.
   */
  method ScanForRobotsOfType(sensed: seq<RobotInfo>, myTeam: Team, allyOrEnemy: string, k: RobotType)
    returns (targets: seq<RobotInfo>)
    ensures targets == OfType(ScanForRobots(sensed, myTeam, allyOrEnemy), k)
    ensures forall i :: 0 <= i < |targets| ==> targets[i].rtype == k
  {
    var robots := ScanForRobots(sensed, myTeam, allyOrEnemy);
    targets := [];
    for i := 0 to |robots|
      invariant targets == OfType(robots[..i], k)
    {
      assert robots[..i + 1][..i] == robots[..i];
      if robots[i].rtype == k {
        targets := targets + [robots[i]];
      }
    }
    assert robots[..|robots|] == robots;
    forall i | 0 <= i < |targets|
      ensures targets[i].rtype == k
    {
      OfTypeMembers(robots, k, targets[i]);
    }
  }
}
