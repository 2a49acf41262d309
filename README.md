# HeadsUpTello flight controller, modelled in Dafny

`HeadsUpTello` is the supervisory navigation and safety layer over a DJI Tello
drone. It holds the mission limits: ceiling, floor, the takeoff battery
minimum and the operating battery minimum. It also keeps a dead-reckoned pose:
`x`, `y` and a heading `rotation_angle` in degrees. Every operation follows
the same pattern:

1. A battery gate lands the drone when the battery is low.
2. A few integer decisions follow: the shorter rotation arc, 500 cm chunking
   with a remainder, refusal at the ceiling or floor, a stepped climb, or axis
   ordering.
3. Primitive commands go to the drone.
4. The pose is updated.

The model is a Dafny class, `FlightController.HeadsUpTello`:

- Its constant fields are the limits and the barometer reading taken at
  connection.
- Its mutable fields are the pose and `commands`, the append-only sequence of
  primitive commands the drone has received, in order. It stands in for the
  drone object.
- Every method states the exact commands it appends and the new pose and
  heading.
- The command sequences are pure functions of the class: `Gate`,
  `ClockwiseTrace`, `BearingTrace`, `MoveTrace`, `LegsTrace`, `FlyToTrace` and
  so on. So are the recorded poses: `PoseAfterMove`, `PoseAfterLegs` and
  `PoseAfterRoute`.
- The decisions behind those sequences sit in small modules, each with lemmas
  that state what the decision achieves.

Modules:

- `Tello`: the drone's command set, the telemetry snapshot, and an oracle for
  cosine and sine over whole degrees (`Trig`). `Quadrature` states the
  quarter-turn identities. It also holds `Repeat` and `CommandedCm`, the total
  centimetres a command sequence asks for in translation commands.
- `Rotation`: the shorter-arc bearing difference of `rotate_to_bearing`, and
  the commands `rotate_cw`/`rotate_ccw` send, including their rewrite of turns
  over 180 degrees.
- `Chunking`: the `while distance > 500` loop of the directional moves and the
  remainder command.
- `Offsets`: the pose change each directional move records.
- `Envelope`: the battery gates, the ceiling and floor refusals, and the number
  of 20 cm steps the ceiling climb takes.
- `Navigation`: the legs of axis-aligned `fly_to_coordinates`, and the offset
  they add up to.
- `FlightController`: the class.

Inputs from outside the program are parameters:

- Telemetry is a `Telemetry(battery, barometer, height)` snapshot passed to
  each operation. Every reading during one operation sees the same values.
- Cosine and sine are the class constant `trig`. Lemmas that need them assume
  only `Quadrature` and, where a lemma says so, `cos 0 = 1` and `sin 0 = 0`.
- Direct flight in `fly_to_coordinates` takes the bearing and distance to the
  target as `Mode.Direct(bearing, distance)`. In the source these are atan2
  and hypot of the deltas.

Distances and the pose are `real`, because the source mixes float results of
trigonometry into them. Headings, telemetry, limits and command arguments are
`int`. Python's `%` and `//` with a positive divisor agree with Dafny's.

Some behaviours of the code differ from what the method names and docstrings
suggest; the model follows the code:

- `battery_check` lands but does not stop the operation that called it, which
  goes on sending its commands.
- `fly_up` refuses only once the altitude has reached the ceiling. It does not
  refuse a move that would cross the ceiling.
- `rotate_to_bearing` stores the requested bearing as given, not reduced
  modulo 360.
- The ceiling climb ends strictly above the ceiling. It overshoots by more
  than 0 and at most 20 cm.

Three places where the code evidently does not do what its authors meant are
listed under "Findings". The class uses the corrected behaviour there. The
as-written behaviour is modelled beside it, with a lemma that shows the
difference.

## Model

| member | source | states |
|---|---|---|
| FlightController.HeadsUpTello.constructor | flightcontroller.py:39-57 | The limits and the initial barometer reading are taken from the parameters; the pose starts at the origin facing 0, with no commands sent. |
| FlightController.HeadsUpTello.UpdateCoordinates | flightcontroller.py:168-171 | x and y grow by exactly dx and dy; the heading and the commands are unchanged. |
| FlightController.HeadsUpTello.GetCoordinates | flightcontroller.py:162-166 | Returns the pose (the same as `coords`) after the battery gate; the pose is unchanged. |
| FlightController.HeadsUpTello.BatteryCheck | flightcontroller.py:173-179 | Appends Land if and only if the battery is below the operating minimum, otherwise nothing; the pose and heading are unchanged. |
| FlightController.HeadsUpTello.Land | flightcontroller.py:231-236 | Appends exactly one Land. |
| FlightController.HeadsUpTello.Takeoff | flightcontroller.py:216-229 | Sends Takeoff if and only if the battery is strictly above the takeoff minimum, otherwise nothing. |
| FlightController.HeadsUpTello.GetBaro | flightcontroller.py:143-148 | Returns the barometer reading minus the reading at connection, after the battery gate. |
| FlightController.HeadsUpTello.RotateCw | flightcontroller.py:182-197 | The gate, a second gate for a request over 180 (the delegated call's), then one rotation command; the heading becomes (old + degrees) mod 360 for every request (a request over 180 degrees becomes the complementary counter-clockwise turn). |
| FlightController.HeadsUpTello.RotateCcw | flightcontroller.py:199-214 | Symmetric: the gate, a second gate for a request over 180, one rotation command; the heading becomes (old - degrees) mod 360. |
| FlightController.HeadsUpTello.RotateToBearing | flightcontroller.py:420-439 | Gate, then the shorter-arc turn (clockwise for a positive difference, counter-clockwise for a negative one, none for 0); the heading becomes the bearing exactly as given; when the heading already points there, only the gate is sent. |
| FlightController.HeadsUpTello.BearingTraceAtTarget | flightcontroller.py:425-438 | Turning to the bearing already held, and in particular a second turn to the same bearing, sends no rotation. |
| FlightController.HeadsUpTello.BearingTraceIsShortArc | flightcontroller.py:425-435 | What rotate_to_bearing sends is the gate, then, unless the difference is 0, the gate of rotate_cw/rotate_ccw and ShortArcTurn of the difference: so ShortArcTurnReachesBearing (one rotation of at most 180 degrees, reaching the target) holds of it. |
| FlightController.HeadsUpTello.FlyUp | flightcontroller.py:247-258 | Gate, SetSpeed, the gate of get_baro; refused (no Up, reporting height + distance - ceiling) exactly when ceiling - altitude <= 0, otherwise one Up(distance). |
| FlightController.HeadsUpTello.FlyDown | flightcontroller.py:260-271 | Refused (no Down, reporting (height - distance) + floor) exactly when floor - altitude >= 0, otherwise one Down(distance). |
| FlightController.HeadsUpTello.FlyToMissionCeiling | flightcontroller.py:393-405 | Two gates, then exactly ClimbSteps(ceiling - altitude) commands Up(20), through a counted loop. |
| FlightController.HeadsUpTello.SendChunked | flightcontroller.py:287-293 | The 500 cm loop and the remainder command append exactly ChunkedMoves(dir, distance); it reports whether the remainder command was sent. |
| FlightController.HeadsUpTello.MoveForward | flightcontroller.py:273-296 | Gate, SetSpeed, the chunked moves; the pose gains the forward offset (x += d sin h, y += d cos h) only when the remainder command is sent. |
| FlightController.HeadsUpTello.MoveBack | flightcontroller.py:298-321 | As forward, with the negated offset. |
| FlightController.HeadsUpTello.MoveLeft | flightcontroller.py:323-346 | As forward, with the corrected left offset (forward at heading - 90). |
| FlightController.HeadsUpTello.MoveRight | flightcontroller.py:348-371 | As forward, with the corrected right offset (forward at heading + 90). |
| FlightController.HeadsUpTello.Move | flightcontroller.py:238-245 | Gate, one RC command; the raw left-right and forward-back values are added to x and y. |
| FlightController.HeadsUpTello.StrafeAlongX | flightcontroller.py:473-477 | No command and no pose change for a zero delta; otherwise a right move of delta, or a left move of abs(delta), with that move's pose update. |
| FlightController.HeadsUpTello.MoveAlongY | flightcontroller.py:480-484 | No command and no pose change for a zero delta; otherwise a forward move of delta, or a back move of abs(delta), with that move's pose update. |
| FlightController.HeadsUpTello.FlyDirect | flightcontroller.py:451-461 | Direct flight: the bearing turn, then a forward move of the distance, recorded at the new heading; the heading becomes the bearing. |
| FlightController.HeadsUpTello.FlyXThenY | flightcontroller.py:471-484 | The x block and then the y block, their commands and pose updates in that order. |
| FlightController.HeadsUpTello.FlyYThenX | flightcontroller.py:485-498 | The y block and then the x block, their commands and pose updates in that order. |
| FlightController.HeadsUpTello.FlyAxisAligned | flightcontroller.py:469-498 | Axis-aligned flight sends the moves of AxisLegs(dx, dy) in order, X first exactly when abs(dx) > abs(dy), and records each leg's pose update; the heading is unchanged. |
| FlightController.HeadsUpTello.FlyRoute | flightcontroller.py:450-499 | The mode picks direct or axis-aligned travel; the pose is the one those moves record (PoseAfterRoute), and the heading becomes the bearing or stays as it was. |
| FlightController.HeadsUpTello.FlyToCoordinates | flightcontroller.py:441-502 | Gate, SetSpeed(50), the route for the deltas to the target; then (x, y) is exactly the target in both modes. |
| FlightController.HeadsUpTello.GoHome | flightcontroller.py:380-391 | Gate, the flight to (0, 0), the turn to bearing 0; it ends at (0, 0) with heading 0. |
| Rotation.BearingDifference | flightcontroller.py:424-429 | The difference lies in (-180, 180] and turns the heading onto the target, modulo 360. |
| Rotation.BearingDifferenceIsShortest | flightcontroller.py:425-429 | No turn that reaches the target is shorter, and it is the only one in (-180, 180]. |
| Rotation.BearingDifferenceZero | flightcontroller.py:432-435 | The difference is 0 if and only if the heading already points at the target, modulo 360. |
| Rotation.ShortArcTurnReachesBearing | flightcontroller.py:425-435 | At most one rotation of 1 to 180 degrees; it reaches the target; it is empty exactly when the target is already reached. |
| Rotation.ClockwiseCommand | flightcontroller.py:186-195 | A request of at most 180 degrees is sent as it is; a larger one becomes the complementary turn of under 180 degrees; both turn by the request, modulo 360. |
| Rotation.CounterClockwiseCommand | flightcontroller.py:203-212 | Symmetric, for counter-clockwise requests. |
| Rotation.CorrectedRotationsReachRequest | flightcontroller.py:182-214 | The corrected commands leave the heading at old + degrees (clockwise) or old - degrees (counter-clockwise), modulo 360, for every request. |
| Rotation.AsWrittenRewriteMissesHeading | flightcontroller.py:186-188 | As written, a clockwise request between 180 and 360 degrees reaches the requested heading only at 270; 200 degrees from 0 ends at 340. |
| Chunking.Truncate | flightcontroller.py:293 | Python int() on a float: the integer nearest zero within less than 1 of the value. |
| Chunking.ChunkCount | flightcontroller.py:287-289 | The number of 500 cm commands is the least k with distance - 500k <= 500. |
| Chunking.Remainder | flightcontroller.py:287-289 | The distance after the loop is at most 500, positive when the move was over 500, and distance = remainder + 500 * ChunkCount. |
| Chunking.ChunkedMovesShape | flightcontroller.py:287-293 | A chunked move is ChunkCount commands of 500 cm, then the remainder command if it is sent; the same holds as written, with its own guard. |
| Chunking.ChunkedMovesInRange | flightcontroller.py:287-293 | Every command goes in the requested direction and lies between 20 and 500 cm; a 500 cm move is a single command. |
| Chunking.ChunkedMovesTotal | flightcontroller.py:287-293 | For a non-negative distance, the total commanded is at most the distance and less than 20 cm short of it; when the remainder is sent, it is less than 1 cm short. |
| Chunking.AsWrittenSendsBelowMinimum | flightcontroller.py:292-293 | As written, a remainder strictly between 19 and 20 cm is sent as a 19 cm command, which the corrected guard does not send; 519.5 cm is such a move. |
| Offsets.AsWrittenLeftEqualsRight | flightcontroller.py:333-369 | As written, move_left and move_right record the same offset at every heading, and at heading 0 both record (0, -d). |
| Offsets.CorrectedOffsetsAreQuarterTurns | flightcontroller.py:283-369 | Corrected, left is the negation of right and back of forward; right is (d cos h, -d sin h); at heading 0 right is +x and forward is +y. |
| Envelope.ClimbSteps | flightcontroller.py:398-403 | The step count `gap // 20 + 1` (none when that is not positive) is the least count whose climb ends strictly above the gap. |
| Envelope.ClimbReachesCeiling | flightcontroller.py:398-403 | From at or below the ceiling, the climb ends between 0 and 20 cm above it (0 excluded); from above the ceiling, it climbs nothing. |
| Navigation.AxisLegsReachTarget | flightcontroller.py:469-498 | One leg per non-zero delta, with a positive distance and a direction that follows the delta's sign; X first exactly when abs(dx) > abs(dy), a tie going Y first; the legs add up to (dx, dy). |
| Navigation.AxisLegsRecordDeltaAtNorth | flightcontroller.py:469-501 | At heading 0, the corrected offsets of the legs of an axis-aligned flight add up to exactly the delta. |
| FlightController.HeadsUpTello.Coords | flightcontroller.py:118-120 | The recorded pose (x, y); GetCoordinates returns the same. |
| FlightController.HeadsUpTello.Altitude | flightcontroller.py:148 | The barometer reading less the one taken at connection; GetBaro returns it. |
| FlightController.HeadsUpTello.Gate | flightcontroller.py:175-179 | The battery gate's commands: Land below the operating minimum, nothing otherwise (BatteryCheck states it). |
| FlightController.HeadsUpTello.ClockwiseTrace | flightcontroller.py:182-195 | rotate_cw's commands: the gate, a second gate when the request is rewritten, and the ClockwiseCommand of the request. |
| FlightController.HeadsUpTello.CounterClockwiseTrace | flightcontroller.py:199-212 | rotate_ccw's commands, symmetric to ClockwiseTrace. |
| FlightController.HeadsUpTello.BearingTrace | flightcontroller.py:420-435 | rotate_to_bearing's commands: the gate, then rotate_cw or rotate_ccw of the bearing difference by its sign; BearingTraceIsShortArc and BearingTraceAtTarget state what they are. |
| FlightController.HeadsUpTello.MoveTrace | flightcontroller.py:273-293 | A directional move's commands: the gate, SetSpeed, then ChunkedMoves. |
| FlightController.HeadsUpTello.LegsTrace | flightcontroller.py:469-498 | The directional moves of a list of legs, in order, at the default speed. |
| FlightController.HeadsUpTello.DirectTrace | flightcontroller.py:451-461 | Direct flight's commands: the bearing turn, then the forward move. |
| FlightController.HeadsUpTello.AxisTrace | flightcontroller.py:469-498 | Axis-aligned flight's commands: the moves of AxisLegs. |
| FlightController.HeadsUpTello.RouteTrace | flightcontroller.py:450-499 | The travelling commands of fly_to_coordinates by mode. |
| FlightController.HeadsUpTello.FlyToTrace | flightcontroller.py:441-499 | fly_to_coordinates' commands: the gate, SetSpeed(50), then the route for the deltas to the target. |
| FlightController.HeadsUpTello.HeadingAfterFlyTo | flightcontroller.py:451-456 | The heading after fly_to_coordinates: the bearing for direct flight, unchanged otherwise. |
| FlightController.HeadsUpTello.PoseAfterMove | flightcontroller.py:283-369 | The pose after a directional move: the move's offset is added only when its remainder command is sent. |
| FlightController.HeadsUpTello.PoseAfterLegs | flightcontroller.py:469-498 | The pose after a list of legs, each added by PoseAfterMove in order. |
| FlightController.HeadsUpTello.PoseAfterRoute | flightcontroller.py:450-499 | The pose the travelling part of fly_to_coordinates records, before the snap to the target. |
| FlightController.HeadsUpTello.PoseAfterLegsIsSum | flightcontroller.py:469-498 | When every leg's remainder command is sent, the recorded pose moves by exactly the sum of the legs' offsets. |
| FlightController.HeadsUpTello.AxisFlightReachesTarget | flightcontroller.py:469-501 | Facing heading 0, with each non-zero delta's remainder sent, axis-aligned flight dead-reckons exactly to (px + dx, py + dy), the position the snap then records. |
| Rotation.ShortArcTurn | flightcontroller.py:432-435 | The single rotation for a bearing difference: clockwise for a positive one, counter-clockwise for a negative one, none for 0 (ShortArcTurnReachesBearing states what it achieves). |
| Rotation.ClockwiseHeadingAsWritten | flightcontroller.py:186-193 | The heading rotate_cw leaves as written, delegating a request over 180 as degrees - 180 to rotate_ccw (AsWrittenRewriteMissesHeading states where it goes wrong). |
| Rotation.CounterClockwiseHeadingAsWritten | flightcontroller.py:203-210 | The heading rotate_ccw leaves as written, symmetric to ClockwiseHeadingAsWritten. |
| Chunking.FinalSent | flightcontroller.py:292 | The corrected remainder guard: at least 20 cm. |
| Chunking.FinalSentAsWritten | flightcontroller.py:292 | The remainder guard as written: more than 19. |
| Chunking.FinalMove | flightcontroller.py:292-293 | The remainder command: Move(dir, int(remainder)) when FinalSent holds, nothing otherwise. |
| Chunking.ChunkedMoves | flightcontroller.py:287-293 | The translation commands of a move: 500 cm while more than 500 remain, then the remainder under the corrected guard (ChunkedMovesShape, ChunkedMovesInRange and ChunkedMovesTotal state what they are). |
| Chunking.ChunkedMovesAsWritten | flightcontroller.py:287-293 | The same commands under the as-written guard (AsWrittenSendsBelowMinimum states where they differ). |
| Offsets.ForwardOffset | flightcontroller.py:283-294 | move_forward's record: x += d sin h, y += d cos h, the cos/sin pair stored swapped by update_coordinates(dy, dx). |
| Offsets.BackOffset | flightcontroller.py:308-319 | move_back's record, the negation of the forward one (CorrectedOffsetsAreQuarterTurns). |
| Offsets.LeftOffset | flightcontroller.py:333-344 | The corrected left record: forward at heading - 90, the negation of right (CorrectedOffsetsAreQuarterTurns). |
| Offsets.RightOffset | flightcontroller.py:358-369 | The corrected right record: forward at heading + 90, (d cos h, -d sin h) (CorrectedOffsetsAreQuarterTurns). |
| Offsets.LeftOffsetAsWritten | flightcontroller.py:333-344 | move_left's record as written: (-d cos(h + 90), -d sin(h + 90)). |
| Offsets.RightOffsetAsWritten | flightcontroller.py:358-369 | move_right's record as written: (d cos(h - 90), d sin(h - 90)); AsWrittenLeftEqualsRight shows it equals the left one. |
| Offsets.BodyOffset | flightcontroller.py:283-369 | The record of a move in each direction; vertical moves record none. |
| Navigation.XLegs | flightcontroller.py:473-477 | The x block: no leg for a zero delta, right by delta when positive, left by abs(delta) when negative. |
| Navigation.YLegs | flightcontroller.py:480-484 | The y block: no leg for a zero delta, forward by delta when positive, back by abs(delta) when negative. |
| Navigation.AxisLegs | flightcontroller.py:471-498 | The legs in order: x then y when abs(dx) > abs(dy), otherwise y then x (AxisLegsReachTarget states what they are). |
| Envelope.BatteryGate | flightcontroller.py:175-177 | Land exactly when the battery is below the operating minimum (BatteryCheck). |
| Envelope.TakeoffCommands | flightcontroller.py:219-227 | Takeoff exactly when the battery is strictly above the takeoff minimum (Takeoff). |
| Envelope.AscentRefused | flightcontroller.py:252 | fly_up's refusal: ceiling - altitude <= 0 (FlyUp). |
| Envelope.DescentRefused | flightcontroller.py:265 | fly_down's refusal: floor - altitude >= 0 (FlyDown). |

## Left out

- Logging, the connection lifecycle (connect, disconnect, destructor) and the camera stream (`streamon`, `get_frame_read`): these are I/O and library configuration.
- The telemetry pass-throughs `yaw`, `get_battery`, `get_temperature` and `height`: they forward to the drone library. `get_barometer` forwards to the library after the battery gate. Their values come in as the `Telemetry` parameter.
- `flip`: it forwards to the library after the battery gate and holds no decision.
- `flyto_mission_floor`: it subtracts the floor from the method object `get_baro` without calling it, which raises a TypeError in Python. It has no behaviour to model.
- Floating-point trigonometry: cosine and sine are the `trig` oracle over whole degrees. atan2 and hypot of direct flight are the bearing and distance carried by `Mode.Direct`. The model does not tie them to the deltas.
- Fractional headings: the source can hold a float heading after a direct flight, and `rotate_cw`/`rotate_ccw` apply `int()` to the request. The model keeps headings and rotation requests as integers.
- Telemetry that changes during one operation: each operation sees one snapshot. Two gates in one operation always agree.
- The drone's own limits and motion: the model records the commands sent and assumes the drone accepts every one of them. In the source a rejected command raises out of the operation, so nothing after it runs, not even a move's `update_coordinates`; the 19 cm command under "Findings" is such a case. The model does not capture that early exit.
- FlightController.HeadsUpTello.FlyToCoordinates: for direct flight, the model does not relate the bearing it is given to the frame it uses for the pose. The source's atan2 measures the bearing from +x, counter-clockwise, while its pose update treats the heading as a compass bearing from +y. That mismatch is not stated.
- Rotation.ClockwiseCommand: the corrected rewrite is meant for requests up to 360 degrees. From 360 on, the complementary turn it sends has a zero or negative argument, which the drone does not accept; the source sends rotations of at most 180 degrees from rotate_to_bearing, and reduces no request modulo 360 anywhere.
- Rotation.CounterClockwiseCommand: the same range as ClockwiseCommand.
- FlightController.HeadsUpTello.AxisFlightReachesTarget: stated only at heading 0 and only when each remainder command is sent, for the same reason as the next line; a dropped remainder leaves the recorded pose short of the target until the snap.
- Navigation.AxisLegsRecordDeltaAtNorth: stated only at heading 0. At any other heading, the axis-aligned legs do not point along the axes their deltas are measured on, and the source snaps the pose to the target regardless.

## Findings

| source | as written | input that shows it | evidently intended | confidence | as-written member | corrected member |
|---|---|---|---|---|---|---|
| flightcontroller.py:186-188 | `rotate_cw(d)` for d > 180 calls `rotate_ccw(d - 180)` (and `rotate_ccw` likewise calls `rotate_cw`) | `rotate_cw(200)` from heading 0 turns 20 degrees counter-clockwise and ends at 340 instead of 200 | the complementary turn `rotate_ccw(360 - d)`, which reaches (old + d) mod 360 | not executed | Rotation.AsWrittenRewriteMissesHeading | Rotation.ClockwiseCommand |
| flightcontroller.py:333-369 | `move_left` uses the angle heading + 90 with both terms negated; `move_right` uses heading - 90 unnegated; both record (dx, dy) unswapped | at heading 0, a left move and a right move both record (0, -d), a move backwards | right is forward at heading + 90 and left is forward at heading - 90 in the forward move's frame, so left is the negation of right | not executed | Offsets.AsWrittenLeftEqualsRight | Offsets.CorrectedOffsetsAreQuarterTurns |
| flightcontroller.py:292-293 | the remainder command is sent when the remainder is `> 19`, then truncated with `int()` | a move of 519.5 cm leaves 19.5 cm and sends a 19 cm command, below the drone's 20 cm minimum | send the remainder only when it is at least 20 cm, so every command is 20 to 500 cm | not executed | Chunking.AsWrittenSendsBelowMinimum | Chunking.ChunkedMovesInRange |
