/** Facing names and the rotation table of the location engine: the cyclic
    list NORTH, EAST, SOUTH, WEST, stepped by +1 for RIGHT and -1 for LEFT
    modulo its length. */
module Compass {
  import opened Optional

  /** The four canonical facings, in the clockwise order of the source's list. */
  datatype Direction = North | East | South | West

  /** The class-level list of facing names, clockwise from NORTH. */
  const Available: seq<string> := ["NORTH", "EAST", "SOUTH", "WEST"]

  /** The token the source stores and prints for a facing. */
  function Name(d: Direction): (s: string)
    ensures s in Available
  {
    match d
    case North => "NORTH"
    case East => "EAST"
    case South => "SOUTH"
    case West => "WEST"
  }

  /** Reads a stored facing token back as a direction; any other token,
      including a lower-case spelling, is not a facing. */
  function Parse(s: string): (r: Option<Direction>)
    ensures r.Some? <==> s in Available
    ensures r.Some? ==> Name(r.value) == s
  {
    if s == "NORTH" then Some(North)
    else if s == "EAST" then Some(East)
    else if s == "SOUTH" then Some(South)
    else if s == "WEST" then Some(West)
    else None
  }

  /** A stored facing, which is `None` before the first placement. */
  function ParseFacing(f: Option<string>): (r: Option<Direction>)
    ensures r.Some? <==> f.Some? && f.value in Available
    ensures r.Some? ==> f == Some(Name(r.value))
  {
    match f
    case None => None
    case Some(s) => Parse(s)
  }

  /** Names and directions are in one-to-one correspondence. */
  lemma ParseName(d: Direction)
    ensures Parse(Name(d)) == Some(d)
  {
  }

  /** Python's `list.index`: the first position holding `x`, or `None` for
      the ValueError it raises when `x` is absent. */
  function IndexOf<T(==)>(xs: seq<T>, x: T): (r: Option<nat>)
    ensures r.None? <==> x !in xs
    ensures r.Some? ==> r.value < |xs| && xs[r.value] == x
    ensures r.Some? ==> forall j :: 0 <= j < r.value ==> xs[j] != x
  {
    if |xs| == 0 then None
    else if xs[0] == x then Some(0)
    else
      match IndexOf(xs[1..], x)
      case None => None
      case Some(i) => Some(i + 1)
  }

  /** The signed index step a rotation token stands for; `None` for any token
      other than LEFT and RIGHT, where the source raises. */
  function RotationFactor(rotation: string): (r: Option<int>)
    ensures r.Some? <==> rotation == "LEFT" || rotation == "RIGHT"
    ensures r == Some(1) <==> rotation == "RIGHT"
    ensures r == Some(-1) <==> rotation == "LEFT"
  {
    if rotation == "RIGHT" then Some(1)
    else if rotation == "LEFT" then Some(-1)
    else None
  }

  /** The quarter turn clockwise, written out as a table independent of the
      list arithmetic. */
  function Clockwise(d: Direction): Direction
  {
    match d
    case North => East
    case East => South
    case South => West
    case West => North
  }

  /** The quarter turn counter-clockwise, as a table. */
  function CounterClockwise(d: Direction): Direction
  {
    match d
    case North => West
    case West => South
    case South => East
    case East => North
  }

  /** The source's rotation step: look up the current facing in the list and
      step the index by the rotation factor modulo the list's length. `None`
      stands for the exception raised by an unknown rotation token or by a
      current facing that is not in the list (including no facing at all).
      RIGHT is the clockwise quarter turn and LEFT the counter-clockwise one. */
  function HandleRotation(rotation: string, current: Option<string>): (r: Option<string>)
    ensures r.Some? <==> RotationFactor(rotation).Some? && ParseFacing(current).Some?
    ensures r.Some? ==> r.value in Available
    ensures r.Some? && rotation == "RIGHT" ==> r == Some(Name(Clockwise(ParseFacing(current).value)))
    ensures r.Some? && rotation == "LEFT" ==> r == Some(Name(CounterClockwise(ParseFacing(current).value)))
  {
    match RotationFactor(rotation)
    case None => None
    case Some(factor) =>
      match current
      case None => None
      case Some(c) =>
        match IndexOf(Available, c)
        case None => None
        case Some(i) => Some(Available[(i + factor) % |Available|])
  }

  /** NORTH turned LEFT wraps to WEST, and WEST turned RIGHT wraps to NORTH. */
  lemma RotationWraps()
    ensures HandleRotation("LEFT", Some("NORTH")) == Some("WEST")
    ensures HandleRotation("RIGHT", Some("WEST")) == Some("NORTH")
  {
  }

  /** LEFT undoes RIGHT and RIGHT undoes LEFT, for every facing. */
  lemma RotationInverse(d: Direction)
    ensures CounterClockwise(Clockwise(d)) == d
    ensures Clockwise(CounterClockwise(d)) == d
  {
  }

  /** Four quarter turns in either sense return to the start, and no fewer do. */
  lemma RotationPeriodFour(d: Direction)
    ensures Clockwise(Clockwise(Clockwise(Clockwise(d)))) == d
    ensures CounterClockwise(CounterClockwise(CounterClockwise(CounterClockwise(d)))) == d
    ensures Clockwise(d) != d
    ensures Clockwise(Clockwise(d)) != d
    ensures Clockwise(Clockwise(Clockwise(d))) != d
  {
  }
}
