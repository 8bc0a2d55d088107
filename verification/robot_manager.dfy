/** The command gate: thin transitions over the location engine for MOVE,
    LEFT/RIGHT, PLACE and REPORT, with the replies the caller sees reduced to
    small result values. */
module RobotManager {
  import opened Optional
  import opened Compass
  import opened SimulationAreaManager
  import opened LocationManager

  /** Reply to MOVE: refused before placement, moved, or failed. */
  datatype MoveReply = NotPlaced | Moved | MoveFailed

  /** Reply to LEFT or RIGHT. */
  datatype TurnReply = Turned | TurnFailed

  /** Reply to PLACE. The second reply's wording claims a default placement
      that the engine never performs. */
  datatype PlaceReply = PlacedAt | PlacedAtDefault

  /** MOVE: refused, with nothing changed, while the robot is unplaced;
      otherwise one step along the stored facing, succeeding exactly when the
      engine's guarded move does. */
  function MoveRobot(s: Location): (r: (Location, MoveReply))
    ensures !IsPlaced(s) ==> r == (s, NotPlaced)
    ensures IsPlaced(s) ==> r.1 != NotPlaced
    ensures IsPlaced(s) ==>
      var e := LocationManager.MoveRobot(s, s.facing, 1);
      e.Some? && r.0 == e.value.state && (r.1 == Moved <==> e.value.ok)
    ensures IsPlaced(s) ==>
      (r.1 == Moved <==> ParseFacing(s.facing).Some?
                         && CheckLocation(s.area, HandleMove(s.pos.value, s.facing, 1)))
    ensures r.0.area == s.area && r.0.facing == s.facing
    ensures r.1 != Moved ==> r.0 == s
  {
    if !IsPlaced(s) then (s, NotPlaced)
    else
      var e := LocationManager.MoveRobot(s, s.facing, 1);
      if e.value.ok then (e.value.state, Moved) else (e.value.state, MoveFailed)
  }

  /** LEFT or RIGHT, with no placement guard: success is exactly the engine's
      rotation succeeding, so an unplaced robot (no facing) fails unchanged. */
  function TurnRobot(s: Location, rotation: string): (r: (Location, TurnReply))
    ensures r.1 == Turned <==> UpdateRotation(s, rotation).ok
    ensures r.0 == UpdateRotation(s, rotation).state
    ensures s.facing.None? ==> r == (s, TurnFailed)
  {
    var o := UpdateRotation(s, rotation);
    (o.state, if o.ok then Turned else TurnFailed)
  }

  /** PLACE: succeeds exactly when the engine's placement does. */
  function PlaceRobot(s: Location, location: Option<(int, int, string)>): (r: (Location, PlaceReply))
    ensures r.1 == PlacedAt <==> SetStartPosition(s, location).ok
    ensures r.0 == SetStartPosition(s, location).state
    ensures r.1 == PlacedAtDefault ==> r.0 == s
  {
    var o := SetStartPosition(s, location);
    (o.state, if o.ok then PlacedAt else PlacedAtDefault)
  }

  /** REPORT, with no placement guard: the stored triple. */
  function ReportRobotLocation(s: Location): (r: Triple)
    ensures r.facing == s.facing
    ensures r.x.Some? <==> IsPlaced(s)
    ensures r.y.Some? <==> IsPlaced(s)
    ensures IsPlaced(s) ==> r.x == Some(s.pos.value.x) && r.y == Some(s.pos.value.y)
  {
    ToString(s)
  }

  /** One command as it reaches the gate. */
  datatype Command = Place(x: int, y: int, f: string) | Move | Turn(rotation: string) | Report

  /** The state after one command. */
  function Exec(s: Location, c: Command): Location
  {
    match c
    case Place(x, y, f) => PlaceRobot(s, Some((x, y, f))).0
    case Move => MoveRobot(s).0
    case Turn(rotation) => TurnRobot(s, rotation).0
    case Report => s
  }

  /** The state after a sequence of commands, in order. */
  function Run(s: Location, cmds: seq<Command>): Location
    decreases |cmds|
  {
    if |cmds| == 0 then s else Run(Exec(s, cmds[0]), cmds[1..])
  }

  /** Whether every PLACE in the sequence names a point on the given area. */
  predicate PlacesInside(area: Area, cmds: seq<Command>)
  {
    forall i :: 0 <= i < |cmds| && cmds[i].Place? ==> CheckLocation(area, Point(cmds[i].x, cmds[i].y))
  }

  /** Whether the sequence holds a PLACE. */
  predicate HasPlace(cmds: seq<Command>)
  {
    exists i :: 0 <= i < |cmds| && cmds[i].Place?
  }

  /** No command changes the area. */
  lemma {:induction false} RunKeepsArea(s: Location, cmds: seq<Command>)
    ensures Run(s, cmds).area == s.area
    decreases |cmds|
  {
    if |cmds| > 0 {
      RunKeepsArea(Exec(s, cmds[0]), cmds[1..]);
    }
  }

  /** Once placed, the robot stays placed whatever follows; and a sequence
      holding a PLACE leaves any robot placed. */
  lemma {:induction false} RunKeepsPlaced(s: Location, cmds: seq<Command>)
    ensures IsPlaced(s) || HasPlace(cmds) ==> IsPlaced(Run(s, cmds))
    decreases |cmds|
  {
    if |cmds| > 0 {
      var t := Exec(s, cmds[0]);
      RunKeepsPlaced(t, cmds[1..]);
    }
  }

  /** A robot placed on the table stays on the table under any sequence of
      commands whose placements are themselves on the table: moves never
      leave the inclusive rectangle. */
  lemma {:induction false} RunStaysInside(s: Location, cmds: seq<Command>)
    requires Inside(s)
    requires PlacesInside(s.area, cmds)
    ensures Inside(Run(s, cmds))
    decreases |cmds|
  {
    if |cmds| > 0 {
      var t := Exec(s, cmds[0]);
      RunStaysInside(t, cmds[1..]);
    }
  }

  /** Before any PLACE, every command leaves a fresh engine exactly as it was:
      MOVE is refused, and LEFT or RIGHT fail on the missing facing. */
  lemma {:induction false} UnplacedIgnoresCommands(area: Area, cmds: seq<Command>)
    requires !HasPlace(cmds)
    ensures Run(Init(area), cmds) == Init(area)
    decreases |cmds|
  {
    if |cmds| > 0 {
      UnplacedIgnoresCommands(area, cmds[1..]);
    }
  }

  /** The runner treats REPORT as a pure query, so a report inside a
      sequence leaves the state as it was and a second report agrees with
      the first. */
  lemma ReportIsReadOnly(s: Location)
    ensures Run(s, [Report]) == s
    ensures ReportRobotLocation(Run(s, [Report])) == ReportRobotLocation(s)
  {
  }

  /** The table used by the scenarios: 5 by 5. */
  const Table: Area := Area(5, 5)

  /** PLACE 0,0,NORTH; MOVE; REPORT shows (0,1,NORTH). */
  lemma ScenarioPlaceMove()
    ensures ReportRobotLocation(Run(Init(Table), [Place(0, 0, "NORTH"), Move]))
         == Triple(Some(0), Some(1), Some("NORTH"))
  {
  }

  /** PLACE 0,0,NORTH; LEFT; REPORT shows (0,0,WEST). */
  lemma ScenarioPlaceLeft()
    ensures ReportRobotLocation(Run(Init(Table), [Place(0, 0, "NORTH"), Turn("LEFT")]))
         == Triple(Some(0), Some(0), Some("WEST"))
  {
  }

  /** PLACE 1,2,EAST; MOVE; MOVE; LEFT; MOVE; REPORT shows (3,3,NORTH). */
  lemma ScenarioPlaceMoveMoveLeftMove()
    ensures ReportRobotLocation(Run(Init(Table), [Place(1, 2, "EAST"), Move, Move, Turn("LEFT"), Move]))
         == Triple(Some(3), Some(3), Some("NORTH"))
  {
  }

  /** On the far corner facing NORTH, MOVE is rejected and the robot stays put;
      so is a MOVE SOUTH from the origin. */
  lemma ScenarioBoundaryRejection()
    ensures
      var s := PlaceRobot(Init(Table), Some((5, 5, "NORTH"))).0;
      MoveRobot(s) == (s, MoveFailed) && ReportRobotLocation(s) == Triple(Some(5), Some(5), Some("NORTH"))
    ensures
      var s := PlaceRobot(Init(Table), Some((0, 0, "SOUTH"))).0;
      MoveRobot(s) == (s, MoveFailed)
  {
  }

  /** PLACE 0,0,NORTH; PLACE 2,2,SOUTH reports (2,2,SOUTH), and a PLACE off
      the table is stored as given. */
  lemma ScenarioReplacement()
    ensures ReportRobotLocation(Run(Init(Table), [Place(0, 0, "NORTH"), Place(2, 2, "SOUTH")]))
         == Triple(Some(2), Some(2), Some("SOUTH"))
    ensures ReportRobotLocation(Run(Init(Table), [Place(0, 0, "NORTH"), Place(9, -1, "UP")]))
         == Triple(Some(9), Some(-1), Some("UP"))
  {
  }
}
