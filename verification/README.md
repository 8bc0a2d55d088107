# Toy robot simulator — Dafny model of the state machine

This project models the core of a toy robot simulator. A single robot sits on a
rectangular table, `width` by `height`. The table's valid points run from 0 to
`width` and from 0 to `height`, with both bounds inclusive. The robot accepts
PLACE, MOVE, LEFT, RIGHT and REPORT commands. The model covers three classes:

- the **area holder** (`SimulationAreaManager`), which stores the table's
  `(width, height)` pair and refuses to be built without one;
- the **location engine** (`LocationManager`), which holds the position and
  facing. It provides the inclusive-bounds check, the rotation table over the
  cyclic list NORTH, EAST, SOUTH, WEST, the one-axis move calculator, and the
  guarded placement, rotation and move transitions;
- the **command gate** (`RobotManager`). MOVE is refused before placement and
  always steps one unit along the current facing. LEFT/RIGHT, PLACE and REPORT
  pass straight through to the engine.

Everything is an immutable value with pure transition functions. Each mutator
returns the new state together with the boolean or reply the source returns.
Python's `None` is `Optional.Option`. An exception that escapes to the caller
is modelled as `None` too, and the member's comment says which exception.
Exceptions the source catches become a `false` result.

Files, leaves first: `optional.dfy`, `simulation_area_manager.dfy`,
`compass.dfy` (facing names and the rotation step), `location_manager.dfy`,
`robot_manager.dfy` (the gate, command sequences and the documented scenarios).

In the source, `handle_rotation` and `handle_move` are both class methods of
`LocationManager`. The model splits them. `Compass` holds the class-level list
of facing names and everything computed from that list alone: the names, their
parsing, the list lookup and the rotation step. `handle_move` works on points
and stays in `LocationManager`, next to the bounds check it feeds.

Modelling choices that follow the code, including where it differs from its own docstrings:

- PLACE checks neither bounds nor facing. The engine stores any coordinates
  and any facing token. A facing outside the four names then makes every
  move and every rotation fail without changing anything
  (`LocationManager.UnknownFacingIsStuck`).
- A doc comment on `set_start_position` says that with no location the robot
  is placed at (0,0,NORTH). The code only returns false and changes nothing,
  and the model follows the code. The gate's reply in that case still reads
  "placed at default location" (`PlacedAtDefault`), but the state is unchanged.
- LEFT/RIGHT and REPORT have no placement guard. Before placement the facing is
  `None`, so a rotation fails, and REPORT shows the unset triple.
- `is_placed` tests only the coordinates. The source always sets and clears `x`
  and `y` together, so one optional point stands for the pair.
- The unit-test file constructs the engine with two arguments, but the
  constructor takes one. Its three scenarios are proved here as lemmas about
  the model. That is evidence of the intended behaviour, not of the tests
  passing.

## Model

| member | source | states |
|---|---|---|
| SimulationAreaManager.New | managers/simulation_area_manager.py:17-32 | construction fails exactly when no area is configured; otherwise the stored pair is the configured one |
| SimulationAreaManager.SetSimulationArea | managers/simulation_area_manager.py:34-43 | the stored pair becomes exactly `(x, y)`, whatever was stored before |
| SimulationAreaManager.GetSimulationArea | managers/simulation_area_manager.py:45-59 | fails exactly when nothing is stored; otherwise returns the stored width and height |
| SimulationAreaManager.ConstructedHolderAnswers | managers/simulation_area_manager.py:29-57 | after a successful construction the getter never fails and returns the configured pair |
| SimulationAreaManager.SetThenGet | managers/simulation_area_manager.py:34-57 | setting then getting yields the pair just set |
| Compass.Name | managers/location_manager.py:21 | every facing's token is one of the four listed names |
| Compass.Parse | managers/location_manager.py:21 | a token is a facing exactly when it is one of the four listed names, and then it is that facing's name |
| Compass.IndexOf | managers/location_manager.py:80 | list lookup: absent exactly when the value is not in the list; otherwise the first position holding it |
| Compass.RotationFactor | managers/location_manager.py:73-77 | RIGHT steps +1, LEFT steps -1, and every other token is refused |
| Compass.HandleRotation | managers/location_manager.py:56-83 | succeeds exactly for LEFT/RIGHT on a listed facing; RIGHT gives the clockwise neighbour and LEFT the counter-clockwise one, always a listed name |
| Compass.RotationWraps | managers/location_manager.py:74-80 | the index wraps both ways: NORTH turned LEFT is WEST, WEST turned RIGHT is NORTH |
| Compass.RotationInverse | managers/location_manager.py:74-80 | a LEFT quarter turn and a RIGHT quarter turn undo each other |
| Compass.RotationPeriodFour | managers/location_manager.py:74-80 | four quarter turns restore the facing and no fewer do |
| LocationManager.CheckLocation | managers/location_manager.py:36-53 | a point is on the table iff `0 <= x <= width` and `0 <= y <= height`, inclusive at both ends |
| LocationManager.IsPlaced | managers/location_manager.py:190-192 | true iff the report would show both coordinates set; the facing plays no part |
| LocationManager.CheckLocationInclusive | managers/location_manager.py:36-53 | a point is accepted iff `0 <= x <= width` and `0 <= y <= height`; the corners are accepted and points one step past any edge are rejected |
| LocationManager.HandleMove | managers/location_manager.py:86-115 | the candidate is the point plus `distance` times the facing's unit step (NORTH +y, EAST +x, SOUTH -y, WEST -x); an unrecognised facing returns the point unchanged |
| LocationManager.MoveChangesOneAxis | managers/location_manager.py:101-115 | the candidate differs from the point iff the facing is recognised and the distance non-zero; at most one coordinate changes, by exactly the distance |
| LocationManager.Init | managers/location_manager.py:23-33 | a fresh engine keeps the area and has no position and no facing |
| LocationManager.InitNotPlaced | managers/location_manager.py:31-33 | a fresh engine is not placed and reports the unset triple |
| LocationManager.SetStartPosition | managers/location_manager.py:117-134 | with a location it succeeds and overwrites both coordinates and the facing without any check; without one it fails and changes nothing |
| LocationManager.UpdateRotation | managers/location_manager.py:136-149 | succeeds iff the token is LEFT/RIGHT and the facing is a listed name, turning it the right way; on failure nothing changes; position and area never change |
| LocationManager.MoveRobot | managers/location_manager.py:152-178 | commits the candidate and succeeds iff it differs from the current point and is in bounds; otherwise fails unchanged; facing and area never change; an in-bounds robot stays in bounds; when unplaced it raises with a recognised facing and otherwise fails unchanged |
| LocationManager.ToString | managers/location_manager.py:180-188 | reports the stored coordinates and facing, set or not |
| LocationManager.PlacedIsPermanent | managers/location_manager.py:190-192 | placement marks the robot placed, a failed placement keeps the flag, and rotations and moves never unplace it |
| LocationManager.ReplacementOverwrites | managers/location_manager.py:128-132 | a successful placement's result does not depend on any earlier position or facing |
| LocationManager.RotateInverse | managers/location_manager.py:143-149 | for a listed facing, LEFT then RIGHT and RIGHT then LEFT restore the whole state |
| LocationManager.RotatePeriodFour | managers/location_manager.py:143-149 | for a listed facing, four RIGHT turns restore the whole state |
| LocationManager.UnknownFacingIsStuck | managers/location_manager.py:145-170 | with a facing outside the four names, or none (placed or not), every rotation and every move along that facing fails and changes nothing |
| RobotManager.MoveRobot | managers/robot_manager.py:27-38 | unplaced: refused with the state untouched; placed: exactly the engine's move one step along the stored facing, reported as moved iff it succeeded |
| RobotManager.TurnRobot | managers/robot_manager.py:40-54 | exactly the engine's rotation with no placement guard; with no facing it fails unchanged |
| RobotManager.PlaceRobot | managers/robot_manager.py:56-68 | reports success iff the engine's placement succeeded; the "default" reply leaves the state unchanged |
| RobotManager.ReportRobotLocation | managers/robot_manager.py:70-78 | shows the stored facing and coordinates, whether or not the robot is placed; both coordinates are unset exactly when the robot is unplaced |
| RobotManager.RunKeepsArea | managers/location_manager.py:30 | no sequence of commands changes the area |
| RobotManager.RunKeepsPlaced | managers/location_manager.py:190-192 | once placed, placed after any later commands; any sequence containing a PLACE leaves the robot placed |
| RobotManager.RunStaysInside | managers/location_manager.py:172-178 | a robot on the table stays on it under any commands whose placements are on the table |
| RobotManager.UnplacedIgnoresCommands | managers/robot_manager.py:34-54 | before any PLACE, every MOVE, LEFT, RIGHT and REPORT leaves a fresh engine unchanged |
| RobotManager.ReportIsReadOnly | managers/robot_manager.py:70-78 | in the command runner a REPORT leaves the state as it was, so two reports in a row agree; this holds by the runner's definition, which reflects that `to_string` only reads |
| RobotManager.ScenarioPlaceMove | tests/test_robot_simulator.py:23-37 | on a 5x5 table, PLACE 0,0,NORTH; MOVE reports (0,1,NORTH) |
| RobotManager.ScenarioPlaceLeft | tests/test_robot_simulator.py:39-52 | PLACE 0,0,NORTH; LEFT reports (0,0,WEST) |
| RobotManager.ScenarioPlaceMoveMoveLeftMove | tests/test_robot_simulator.py:54-72 | PLACE 1,2,EAST; MOVE; MOVE; LEFT; MOVE reports (3,3,NORTH) |
| RobotManager.ScenarioBoundaryRejection | managers/location_manager.py:172-178 | on a 5x5 table, MOVE from (5,5,NORTH) or from (0,0,SOUTH) fails and the robot stays put |
| RobotManager.ScenarioReplacement | managers/location_manager.py:128-132 | a second PLACE fully overwrites the first, even when it names a point off the table and an unknown facing |

## Left out

- Command-line parsing, the interactive read loop, YAML configuration loading, logging and printing are I/O around the core. PLACE is modelled as taking two integers and the raw facing token; the loop's splitting of `PLACE X,Y,F` and its integer conversion are not modelled.
- The reply texts are reduced to small result values (`MoveReply`, `TurnReply`, `PlaceReply`), and a report to the `(x, y, facing)` triple. The decimal rendering `(x,y,F)` is not modelled.
- Coordinates and area dimensions are unbounded integers, which matches Python's `int`. Non-integer values that Python's dynamic typing would let through, and an area value that is not a pair, are not modelled.
- The unit-test file is not modelled as code, because its constructor call does not match the constructor. Only its scenarios are kept, as lemmas.
- The area's dimensions are not required to be non-negative, because no code enforces this. With a negative dimension, every move is rejected.
