/** The location engine: the robot's position and facing on a fixed area,
    the inclusive-bounds check, the move calculator, and the guarded
    placement, rotation and move transitions. */
module LocationManager {
  import opened Optional
  import opened Compass
  import opened SimulationAreaManager

  /** A grid point `(x, y)`. */
  datatype Point = Point(x: int, y: int)

  /** The engine's state. The source keeps `x` and `y` in two fields, but
      every assignment sets or clears both together, so one optional point
      stands for the pair. `facing` is whatever token placement stored, or
      `None` before placement. */
  datatype Location = Location(area: Area, pos: Option<Point>, facing: Option<string>)

  /** The result of a mutating call: the new state and the boolean the source
      returns. */
  datatype Outcome = Outcome(state: Location, ok: bool)

  /** What a report shows: the two coordinates and the facing, each possibly
      unset. */
  datatype Triple = Triple(x: Option<int>, y: Option<int>, facing: Option<string>)

  /** Whether a point lies on the table; both bounds are inclusive at both ends. */
  predicate CheckLocation(area: Area, p: Point)
    ensures CheckLocation(area, p) <==> 0 <= p.x <= area.width && 0 <= p.y <= area.height
  {
    !(p.x < 0 || p.x > area.width || p.y < 0 || p.y > area.height)
  }

  /** The inclusive rectangle, stated as intervals: the four corners are on
      the table and each point one step beyond an edge is off it. */
  lemma CheckLocationInclusive(area: Area, p: Point)
    ensures CheckLocation(area, p) <==> 0 <= p.x <= area.width && 0 <= p.y <= area.height
    ensures area.width >= 0 && area.height >= 0 ==>
      && CheckLocation(area, Point(0, 0))
      && CheckLocation(area, Point(area.width, 0))
      && CheckLocation(area, Point(0, area.height))
      && CheckLocation(area, Point(area.width, area.height))
    ensures !CheckLocation(area, Point(-1, p.y)) && !CheckLocation(area, Point(area.width + 1, p.y))
    ensures !CheckLocation(area, Point(p.x, -1)) && !CheckLocation(area, Point(p.x, area.height + 1))
  {
  }

  /** The unit step of each facing, as an independent reference: NORTH is +y,
      EAST is +x, SOUTH is -y and WEST is -x. */
  function Delta(d: Direction): Point
  {
    match d
    case North => Point(0, 1)
    case East => Point(1, 0)
    case South => Point(0, -1)
    case West => Point(-1, 0)
  }

  /** The move calculator: the candidate point `distance` units along the
      given facing. An unrecognised facing, or none, yields the input point. */
  function HandleMove(current: Point, direction: Option<string>, distance: int): (r: Point)
    ensures ParseFacing(direction).None? ==> r == current
    ensures ParseFacing(direction).Some? ==>
      var u := Delta(ParseFacing(direction).value);
      r == Point(current.x + distance * u.x, current.y + distance * u.y)
  {
    if direction == Some("NORTH") then Point(current.x, current.y + distance)
    else if direction == Some("EAST") then Point(current.x + distance, current.y)
    else if direction == Some("SOUTH") then Point(current.x, current.y - distance)
    else if direction == Some("WEST") then Point(current.x - distance, current.y)
    else current
  }

  /** A move with a recognised facing and a non-zero distance changes exactly
      one coordinate, by exactly `distance` in magnitude; otherwise it changes
      nothing. */
  lemma MoveChangesOneAxis(current: Point, direction: Option<string>, distance: int)
    ensures var r := HandleMove(current, direction, distance);
      r != current <==> ParseFacing(direction).Some? && distance != 0
    ensures var r := HandleMove(current, direction, distance);
      (r.x == current.x || r.y == current.y)
    ensures var r := HandleMove(current, direction, distance);
      ParseFacing(direction).Some? ==>
        (r.x - current.x) + (r.y - current.y) == distance || (r.x - current.x) + (r.y - current.y) == -distance
  {
  }

  /** A fresh engine: nothing set yet. */
  function Init(area: Area): (s: Location)
    ensures s.area == area && s.pos.None? && s.facing.None?
  {
    Location(area, None, None)
  }

  /** Placement is judged on the coordinates alone; the facing is not consulted:
      placed exactly when a report would show both coordinates set. */
  predicate IsPlaced(s: Location)
    ensures IsPlaced(s) <==> ToString(s).x.Some? && ToString(s).y.Some?
  {
    s.pos.Some?
  }

  /** Whether the robot is placed and on the table. */
  predicate Inside(s: Location)
  {
    s.pos.Some? && CheckLocation(s.area, s.pos.value)
  }

  /** PLACE: given a location, overwrite both coordinates and the facing
      with no bounds or facing check, and succeed; given none, fail and
      change nothing. */
  function SetStartPosition(s: Location, location: Option<(int, int, string)>): (r: Outcome)
    ensures r.ok <==> location.Some?
    ensures !r.ok ==> r.state == s
    ensures r.ok ==> r.state.pos == Some(Point(location.value.0, location.value.1))
    ensures r.ok ==> r.state.facing == Some(location.value.2)
    ensures r.state.area == s.area
  {
    match location
    case Some((x, y, f)) => Outcome(s.(pos := Some(Point(x, y)), facing := Some(f)), true)
    case None => Outcome(s, false)
  }

  /** Rotation with the exception caught: succeeds exactly when the token is
      LEFT or RIGHT and the stored facing is one of the four names, turning the
      facing a quarter turn; otherwise fails and changes nothing. Position and
      area are never touched. */
  function UpdateRotation(s: Location, rotation: string): (r: Outcome)
    ensures r.ok <==> (rotation == "LEFT" || rotation == "RIGHT") && ParseFacing(s.facing).Some?
    ensures !r.ok ==> r.state == s
    ensures r.state.pos == s.pos && r.state.area == s.area
    ensures r.ok && rotation == "RIGHT" ==> r.state.facing == Some(Name(Clockwise(ParseFacing(s.facing).value)))
    ensures r.ok && rotation == "LEFT" ==> r.state.facing == Some(Name(CounterClockwise(ParseFacing(s.facing).value)))
  {
    match HandleRotation(rotation, s.facing)
    case Some(f) => Outcome(s.(facing := Some(f)), true)
    case None => Outcome(s, false)
  }

  /** The guarded move. The candidate is committed, with result true, only if
      it differs from the current point and lies on the table; otherwise the
      result is false and nothing changes. Facing and area never change. On an
      unplaced engine an unrecognised facing gives false, but a recognised one
      makes the source add a number to `None`, an escaping exception modelled
      as `None`. */
  function MoveRobot(s: Location, direction: Option<string>, distance: int): (r: Option<Outcome>)
    ensures r.None? <==> s.pos.None? && ParseFacing(direction).Some?
    ensures r.Some? ==> r.value.state.area == s.area && r.value.state.facing == s.facing
    ensures r.Some? && !r.value.ok ==> r.value.state == s
    ensures s.pos.None? && r.Some? ==> r.value == Outcome(s, false)
    ensures r.Some? && r.value.ok ==> r.value.state.pos.Some? && CheckLocation(s.area, r.value.state.pos.value)
    ensures s.pos.Some? ==> r.Some?
    ensures s.pos.Some? ==>
      (r.value.ok <==> (ParseFacing(direction).Some? && distance != 0
                        && CheckLocation(s.area, HandleMove(s.pos.value, direction, distance))))
    ensures s.pos.Some? && r.value.ok ==> r.value.state.pos == Some(HandleMove(s.pos.value, direction, distance))
    ensures Inside(s) ==> r.Some? && Inside(r.value.state)
  {
    match s.pos
    case None =>
      if ParseFacing(direction).None? then Some(Outcome(s, false)) else None
    case Some(p) =>
      var candidate := HandleMove(p, direction, distance);
      MoveChangesOneAxis(p, direction, distance);
      if candidate == p then Some(Outcome(s, false))
      else if CheckLocation(s.area, candidate) then Some(Outcome(s.(pos := Some(candidate)), true))
      else Some(Outcome(s, false))
  }

  /** REPORT's content: whatever is stored, placed or not. */
  function ToString(s: Location): (r: Triple)
    ensures r.x.Some? <==> s.pos.Some?
    ensures r.y.Some? <==> s.pos.Some?
    ensures r.facing == s.facing
    ensures s.pos.Some? ==> r.x.value == s.pos.value.x && r.y.value == s.pos.value.y
  {
    match s.pos
    case None => Triple(None, None, s.facing)
    case Some(p) => Triple(Some(p.x), Some(p.y), s.facing)
  }

  /** A fresh engine is not placed, and reports nothing set. */
  lemma InitNotPlaced(area: Area)
    ensures !IsPlaced(Init(area))
    ensures ToString(Init(area)) == Triple(None, None, None)
  {
  }

  /** Placement marks the robot placed, moves and rotations never unmark it,
      and a failed placement leaves the placed flag as it was. */
  lemma PlacedIsPermanent(s: Location, location: Option<(int, int, string)>, rotation: string,
                          direction: Option<string>, distance: int)
    ensures IsPlaced(SetStartPosition(s, location).state) <==> location.Some? || IsPlaced(s)
    ensures IsPlaced(UpdateRotation(s, rotation).state) == IsPlaced(s)
    ensures IsPlaced(s) ==> IsPlaced(MoveRobot(s, direction, distance).value.state)
  {
  }

  /** Re-placement fully overwrites: the result of a successful placement
      depends only on the area and the new location, not on any earlier state. */
  lemma ReplacementOverwrites(s: Location, t: Location, x: int, y: int, f: string)
    requires s.area == t.area
    ensures SetStartPosition(s, Some((x, y, f))).state == SetStartPosition(t, Some((x, y, f))).state
    ensures ToString(SetStartPosition(s, Some((x, y, f))).state) == Triple(Some(x), Some(y), Some(f))
  {
  }

  /** RIGHT after LEFT and LEFT after RIGHT restore the state, for any stored
      facing that is one of the four names. */
  lemma RotateInverse(s: Location)
    requires ParseFacing(s.facing).Some?
    ensures UpdateRotation(UpdateRotation(s, "LEFT").state, "RIGHT").state == s
    ensures UpdateRotation(UpdateRotation(s, "RIGHT").state, "LEFT").state == s
  {
    var d := ParseFacing(s.facing).value;
    ParseName(Clockwise(d));
    ParseName(CounterClockwise(d));
  }

  /** Four RIGHT turns restore the state, for any of the four facings. */
  lemma RotatePeriodFour(s: Location)
    requires ParseFacing(s.facing).Some?
    ensures
      var r1 := UpdateRotation(s, "RIGHT").state;
      var r2 := UpdateRotation(r1, "RIGHT").state;
      var r3 := UpdateRotation(r2, "RIGHT").state;
      UpdateRotation(r3, "RIGHT").state == s
  {
    var d := ParseFacing(s.facing).value;
    ParseName(Clockwise(d));
    ParseName(Clockwise(Clockwise(d)));
    ParseName(Clockwise(Clockwise(Clockwise(d))));
  }

  /** A stored facing outside the four names, or none at all, makes every
      rotation and every move fail without changing anything. */
  lemma UnknownFacingIsStuck(s: Location, rotation: string, distance: int)
    requires ParseFacing(s.facing).None?
    ensures UpdateRotation(s, rotation) == Outcome(s, false)
    ensures MoveRobot(s, s.facing, distance) == Some(Outcome(s, false))
  {
  }
}
