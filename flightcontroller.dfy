/** HeadsUpTello: the supervisory navigation and safety layer over the drone.
    It keeps a dead-reckoned pose (x, y and a heading in whole degrees), holds
    the mission's limits, and turns each request into primitive commands,
    which it appends to `commands` in the order the drone receives them. */
module FlightController {
  import opened Tello
  import Rotation
  import Chunking
  import Offsets
  import Envelope
  import Navigation

  /** How fly_to_coordinates travels. Direct flight carries the bearing and
      distance to the target (the source's atan2 and hypot). */
  datatype Mode = Direct(bearing: int, distance: real) | AxisAligned

  /** What fly_up and fly_down report: done, or refused with the figure the
      refusal is logged with (in cm). */
  datatype Outcome = Flown | Refused(overshoot: int)

  /** Speed fly_to_coordinates sets before travelling, and the default speed
      of the directional moves. */
  const TravelSpeed := 50
  const MoveSpeed := 20

  class HeadsUpTello {
    const ceiling: int
    const floor: int
    const minFlyBattery: int
    const minOpBattery: int
    const initialBarometer: int
    const trig: Trig

    var x: real
    var y: real
    var rotationAngle: int
    var commands: seq<Command>

    /** Captures the barometer reference and starts at the origin facing 0. */
    constructor (ceiling: int, floor: int, minTakeoffPower: int, minOperatingPower: int,
                 barometer: int, trig: Trig)
      ensures this.ceiling == ceiling && this.floor == floor
      ensures minFlyBattery == minTakeoffPower && minOpBattery == minOperatingPower
      ensures initialBarometer == barometer && this.trig == trig
      ensures x == 0.0 && y == 0.0 && rotationAngle == 0 && commands == []
    {
      this.ceiling := ceiling;
      this.floor := floor;
      minFlyBattery := minTakeoffPower;
      minOpBattery := minOperatingPower;
      initialBarometer := barometer;
      this.trig := trig;
      x, y := 0.0, 0.0;
      rotationAngle := 0;
      commands := [];
    }

    // ---- the command sequences each operation sends ----

    function Gate(t: Telemetry): seq<Command> {
      Envelope.BatteryGate(t.battery, minOpBattery)
    }

    /** The zero-referenced altitude get_baro reports. */
    function Altitude(t: Telemetry): int {
      t.barometer - initialBarometer
    }

    function ClockwiseTrace(degrees: int, t: Telemetry): seq<Command> {
      Gate(t) + (if degrees > 180 then Gate(t) else []) + [Rotation.ClockwiseCommand(degrees)]
    }

    function CounterClockwiseTrace(degrees: int, t: Telemetry): seq<Command> {
      Gate(t) + (if degrees > 180 then Gate(t) else []) + [Rotation.CounterClockwiseCommand(degrees)]
    }

    function BearingTrace(target: int, heading: int, t: Telemetry): seq<Command> {
      var d := Rotation.BearingDifference(target, heading);
      Gate(t) + (if d > 0 then ClockwiseTrace(d, t) else if d < 0 then CounterClockwiseTrace(-d, t) else [])
    }

    /** Turning to the bearing the drone already has sends only the battery
        gate, so a second rotate_to_bearing to the same target turns nothing. */
    lemma BearingTraceAtTarget(target: int, heading: int, t: Telemetry)
      requires heading % 360 == target % 360
      ensures BearingTrace(target, heading, t) == Gate(t)
      ensures BearingTrace(target, target, t) == Gate(t)
    {
      Rotation.BearingDifferenceZero(target, heading);
      Rotation.BearingDifferenceZero(target, target);
    }

    /** What rotate_to_bearing sends is the shorter-arc turn: the gate, then,
        unless the heading already points at the target, the gate of the one
        primitive rotation and that rotation of at most 180 degrees. */
    lemma BearingTraceIsShortArc(target: int, heading: int, t: Telemetry)
      ensures var d := Rotation.BearingDifference(target, heading);
        BearingTrace(target, heading, t)
          == Gate(t) + (if d == 0 then [] else Gate(t) + Rotation.ShortArcTurn(d))
    {
    }

    function MoveTrace(dir: Direction, distance: real, speed: int, t: Telemetry): seq<Command> {
      Gate(t) + [SetSpeed(speed)] + Chunking.ChunkedMoves(dir, distance)
    }

    function LegsTrace(legs: seq<Navigation.Leg>, t: Telemetry): seq<Command> {
      if legs == [] then []
      else MoveTrace(legs[0].direction, legs[0].distance, MoveSpeed, t) + LegsTrace(legs[1..], t)
    }

    function DirectTrace(bearing: int, distance: real, heading: int, t: Telemetry): seq<Command> {
      BearingTrace(bearing, heading, t) + MoveTrace(Forward, distance, MoveSpeed, t)
    }

    function AxisTrace(dx: real, dy: real, t: Telemetry): seq<Command> {
      LegsTrace(Navigation.AxisLegs(dx, dy), t)
    }

    function RouteTrace(mode: Mode, dx: real, dy: real, heading: int, t: Telemetry): seq<Command> {
      match mode
      case Direct(bearing, distance) => DirectTrace(bearing, distance, heading, t)
      case AxisAligned => AxisTrace(dx, dy, t)
    }

    function FlyToTrace(tx: real, ty: real, mode: Mode, px: real, py: real, heading: int,
                        t: Telemetry): seq<Command> {
      Gate(t) + [SetSpeed(TravelSpeed)] + RouteTrace(mode, tx - px, ty - py, heading, t)
    }

    static function HeadingAfterFlyTo(mode: Mode, heading: int): int {
      match mode
      case Direct(bearing, _) => bearing
      case AxisAligned => heading
    }

    /** The recorded position after a directional move: the move's offset is
        added only when its remainder command is sent. */
    function PoseAfterMove(dir: Direction, distance: real, heading: int, px: real, py: real): (real, real) {
      if Chunking.FinalSent(Chunking.Remainder(distance)) then
        var o := Offsets.BodyOffset(trig, dir, heading, distance);
        (px + o.dx, py + o.dy)
      else (px, py)
    }

    /** The recorded position after the moves of a sequence of legs, all
        flown at one heading. */
    function PoseAfterLegs(legs: seq<Navigation.Leg>, heading: int, px: real, py: real): (real, real)
      decreases |legs|
    {
      if legs == [] then (px, py)
      else
        var p := PoseAfterMove(legs[0].direction, legs[0].distance, heading, px, py);
        PoseAfterLegs(legs[1..], heading, p.0, p.1)
    }

    /** The recorded position after the travelling part of fly_to_coordinates,
        before the pose is set to the target. */
    function PoseAfterRoute(mode: Mode, dx: real, dy: real, heading: int, px: real, py: real): (real, real) {
      match mode
      case Direct(bearing, distance) => PoseAfterMove(Forward, distance, bearing, px, py)
      case AxisAligned => PoseAfterLegs(Navigation.AxisLegs(dx, dy), heading, px, py)
    }

    lemma {:induction false} PoseAfterLegsAppend(a: seq<Navigation.Leg>, b: seq<Navigation.Leg>,
                                                 heading: int, px: real, py: real)
      ensures PoseAfterLegs(a + b, heading, px, py)
        == var p := PoseAfterLegs(a, heading, px, py); PoseAfterLegs(b, heading, p.0, p.1)
      decreases |a|
    {
      if a == [] {
        assert a + b == b;
      } else {
        assert (a + b)[1..] == a[1..] + b;
        var p := PoseAfterMove(a[0].direction, a[0].distance, heading, px, py);
        PoseAfterLegsAppend(a[1..], b, heading, p.0, p.1);
      }
    }

    /** When every leg's remainder command is sent, the recorded position
        moves by exactly the sum of the legs' offsets. */
    lemma {:induction false} PoseAfterLegsIsSum(legs: seq<Navigation.Leg>, heading: int, px: real, py: real)
      requires forall leg | leg in legs :: Chunking.FinalSent(Chunking.Remainder(leg.distance))
      ensures PoseAfterLegs(legs, heading, px, py)
        == (px + Navigation.SumBody(trig, heading, legs).dx, py + Navigation.SumBody(trig, heading, legs).dy)
      decreases |legs|
    {
      if legs != [] {
        var p := PoseAfterMove(legs[0].direction, legs[0].distance, heading, px, py);
        assert legs[0] in legs;
        assert forall leg | leg in legs[1..] :: leg in legs;
        PoseAfterLegsIsSum(legs[1..], heading, p.0, p.1);
      }
    }

    /** Facing heading 0, when the remainder of each non-zero delta is sent,
        axis-aligned flight dead-reckons exactly to the target, the position
        fly_to_coordinates then records. */
    lemma AxisFlightReachesTarget(dx: real, dy: real, px: real, py: real)
      requires Quadrature(trig) && trig.cos(0) == 1.0 && trig.sin(0) == 0.0
      requires dx != 0.0 ==> Chunking.FinalSent(Chunking.Remainder(Navigation.Abs(dx)))
      requires dy != 0.0 ==> Chunking.FinalSent(Chunking.Remainder(Navigation.Abs(dy)))
      ensures PoseAfterRoute(AxisAligned, dx, dy, 0, px, py) == (px + dx, py + dy)
    {
      Navigation.AxisLegsReachTarget(dx, dy);
      var legs := Navigation.AxisLegs(dx, dy);
      forall leg | leg in legs
        ensures Chunking.FinalSent(Chunking.Remainder(leg.distance))
      {
        assert leg in Navigation.XLegs(dx) || leg in Navigation.YLegs(dy);
      }
      PoseAfterLegsIsSum(legs, 0, px, py);
      Navigation.AxisLegsRecordDeltaAtNorth(trig, dx, dy);
    }

    // ---- pose ----

    function Coords(): (real, real)
      reads this
    {
      (x, y)
    }

    method UpdateCoordinates(dx: real, dy: real)
      modifies this
      ensures x == old(x) + dx && y == old(y) + dy
      ensures rotationAngle == old(rotationAngle) && commands == old(commands)
    {
      x := x + dx;
      y := y + dy;
    }

    method GetCoordinates(t: Telemetry) returns (cx: real, cy: real)
      modifies this
      ensures (cx, cy) == old(Coords()) == Coords()
      ensures rotationAngle == old(rotationAngle)
      ensures commands == old(commands) + Gate(t)
    {
      BatteryCheck(t);
      cx, cy := x, y;
    }

    // ---- safety envelope ----

    method Land()
      modifies this
      ensures commands == old(commands) + [Command.Land]
      ensures x == old(x) && y == old(y) && rotationAngle == old(rotationAngle)
    {
      commands := commands + [Command.Land];
    }

    /** Lands when the battery is below the operating minimum; the calling
        operation goes on either way. */
    method BatteryCheck(t: Telemetry)
      modifies this
      ensures commands == old(commands) + Gate(t)
      ensures |Gate(t)| <= 1 && (Gate(t) == [Command.Land] <==> t.battery < minOpBattery)
      ensures x == old(x) && y == old(y) && rotationAngle == old(rotationAngle)
    {
      if t.battery < minOpBattery {
        Land();
      }
    }

    method Takeoff(t: Telemetry)
      modifies this
      ensures commands == old(commands) + Envelope.TakeoffCommands(t.battery, minFlyBattery)
      ensures (Command.Takeoff in commands[|old(commands)|..]) <==> t.battery > minFlyBattery
      ensures x == old(x) && y == old(y) && rotationAngle == old(rotationAngle)
    {
      if t.battery > minFlyBattery {
        commands := commands + [Command.Takeoff];
      }
    }

    method GetBaro(t: Telemetry) returns (altitude: int)
      modifies this
      ensures altitude == Altitude(t)
      ensures commands == old(commands) + Gate(t)
      ensures x == old(x) && y == old(y) && rotationAngle == old(rotationAngle)
    {
      BatteryCheck(t);
      altitude := t.barometer - initialBarometer;
    }

    // ---- rotation ----

    /** Turns clockwise; the heading ends at old + degrees, modulo 360. */
    method RotateCw(degrees: int, t: Telemetry)
      modifies this
      decreases if degrees > 180 then 1 else 0
      ensures rotationAngle == (old(rotationAngle) + degrees) % 360
      ensures commands == old(commands) + ClockwiseTrace(degrees, t)
      ensures x == old(x) && y == old(y)
    {
      BatteryCheck(t);
      if degrees > 180 {
        RotateCcw(360 - degrees, t);
        Rotation.SameDirection(old(rotationAngle) - (360 - degrees), old(rotationAngle) + degrees);
        return;
      }
      rotationAngle := (rotationAngle + degrees) % 360;
      commands := commands + [Command.RotateCw(degrees)];
    }

    /** Turns counter-clockwise; the heading ends at old - degrees, modulo 360. */
    method RotateCcw(degrees: int, t: Telemetry)
      modifies this
      decreases if degrees > 180 then 1 else 0
      ensures rotationAngle == (old(rotationAngle) - degrees) % 360
      ensures commands == old(commands) + CounterClockwiseTrace(degrees, t)
      ensures x == old(x) && y == old(y)
    {
      BatteryCheck(t);
      if degrees > 180 {
        RotateCw(360 - degrees, t);
        Rotation.SameDirection(old(rotationAngle) + (360 - degrees), old(rotationAngle) - degrees);
        return;
      }
      rotationAngle := (rotationAngle - degrees) % 360;
      commands := commands + [Command.RotateCcw(degrees)];
    }

    /** Turns the shorter way to an absolute bearing, which then becomes the
        heading exactly as given; a second call with the same bearing sends
        no rotation. */
    method RotateToBearing(degrees: int, t: Telemetry)
      modifies this
      ensures rotationAngle == degrees
      ensures commands == old(commands) + BearingTrace(degrees, old(rotationAngle), t)
      ensures old(rotationAngle) % 360 == degrees % 360 ==> commands == old(commands) + Gate(t)
      ensures x == old(x) && y == old(y)
    {
      BatteryCheck(t);
      var difference := Rotation.BearingDifference(degrees, rotationAngle);
      Rotation.BearingDifferenceZero(degrees, old(rotationAngle));
      if difference > 0 {
        RotateCw(difference, t);
      } else if difference < 0 {
        RotateCcw(-difference, t);
      }
      rotationAngle := degrees;
    }

    // ---- vertical moves ----

    /** Refuses, after setting the speed, when the altitude has reached the
        ceiling, reporting by how much the move would end above it. */
    method FlyUp(distance: int, speed: int, t: Telemetry) returns (outcome: Outcome)
      modifies this
      ensures var refused := Envelope.AscentRefused(ceiling, Altitude(t));
        && commands == old(commands) + Gate(t) + [SetSpeed(speed)] + Gate(t)
             + (if refused then [] else [Command.Move(Up, distance)])
        && outcome == (if refused then Refused(t.height + distance - ceiling) else Flown)
      ensures x == old(x) && y == old(y) && rotationAngle == old(rotationAngle)
    {
      BatteryCheck(t);
      commands := commands + [SetSpeed(speed)];
      var altitude := GetBaro(t);
      if ceiling - altitude <= 0 {
        outcome := Refused((t.height + distance) - ceiling);
        return;
      }
      commands := commands + [Command.Move(Up, distance)];
      outcome := Flown;
    }

    /** Refuses, after setting the speed, when the altitude has reached the
        floor; the refusal carries the source's logged figure
        (height - distance) + floor. */
    method FlyDown(distance: int, speed: int, t: Telemetry) returns (outcome: Outcome)
      modifies this
      ensures var refused := Envelope.DescentRefused(floor, Altitude(t));
        && commands == old(commands) + Gate(t) + [SetSpeed(speed)] + Gate(t)
             + (if refused then [] else [Command.Move(Down, distance)])
        && outcome == (if refused then Refused((t.height - distance) + floor) else Flown)
      ensures x == old(x) && y == old(y) && rotationAngle == old(rotationAngle)
    {
      BatteryCheck(t);
      commands := commands + [SetSpeed(speed)];
      var altitude := GetBaro(t);
      if floor - altitude >= 0 {
        outcome := Refused((t.height - distance) + floor);
        return;
      }
      commands := commands + [Command.Move(Down, distance)];
      outcome := Flown;
    }

    /** Climbs in 20 cm steps until strictly above the ceiling. */
    method FlyToMissionCeiling(t: Telemetry)
      modifies this
      ensures commands == old(commands) + Gate(t) + Gate(t)
        + Repeat(Command.Move(Up, 20), Envelope.ClimbSteps(ceiling - Altitude(t)))
      ensures x == old(x) && y == old(y) && rotationAngle == old(rotationAngle)
    {
      BatteryCheck(t);
      var altitude := GetBaro(t);
      var diff := ceiling - altitude;
      var steps := Envelope.ClimbSteps(diff);
      ghost var before := commands;
      for i := 0 to steps
        invariant commands == before + Repeat(Command.Move(Up, 20), i)
        invariant x == old(x) && y == old(y) && rotationAngle == old(rotationAngle)
      {
        commands := commands + [Command.Move(Up, 20)];
      }
    }

    // ---- directional moves ----

    /** The `while distance > 500` loop and the remainder command shared by
        the four directional moves; reports whether the remainder was sent. */
    method SendChunked(dir: Direction, distance: real) returns (finalSent: bool)
      modifies this
      ensures commands == old(commands) + Chunking.ChunkedMoves(dir, distance)
      ensures finalSent == Chunking.FinalSent(Chunking.Remainder(distance))
      ensures x == old(x) && y == old(y) && rotationAngle == old(rotationAngle)
    {
      var remaining := distance;
      ghost var i: nat := 0;
      while remaining > 500.0
        invariant i <= Chunking.ChunkCount(distance)
        invariant remaining == distance - 500.0 * i as real
        invariant commands + Chunking.ChunkedMoves(dir, remaining)
          == old(commands) + Chunking.ChunkedMoves(dir, distance)
        invariant x == old(x) && y == old(y) && rotationAngle == old(rotationAngle)
        decreases Chunking.ChunkCount(distance) - i
      {
        assert (commands + [Command.Move(dir, 500)]) + Chunking.ChunkedMoves(dir, remaining - 500.0)
          == commands + ([Command.Move(dir, 500)] + Chunking.ChunkedMoves(dir, remaining - 500.0));
        commands := commands + [Command.Move(dir, 500)];
        remaining := remaining - 500.0;
        i := i + 1;
      }
      finalSent := Chunking.FinalSent(remaining);
      if finalSent {
        commands := commands + [Command.Move(dir, Chunking.Truncate(remaining))];
      }
    }

    method MoveForward(distance: real, speed: int, t: Telemetry)
      modifies this
      ensures commands == old(commands) + MoveTrace(Forward, distance, speed, t)
      ensures (x, y) == PoseAfterMove(Forward, distance, old(rotationAngle), old(x), old(y))
      ensures rotationAngle == old(rotationAngle)
    {
      BatteryCheck(t);
      commands := commands + [SetSpeed(speed)];
      var o := Offsets.ForwardOffset(trig, rotationAngle, distance);
      var sent := SendChunked(Forward, distance);
      if sent {
        UpdateCoordinates(o.dx, o.dy);
      }
    }

    method MoveBack(distance: real, speed: int, t: Telemetry)
      modifies this
      ensures commands == old(commands) + MoveTrace(Back, distance, speed, t)
      ensures (x, y) == PoseAfterMove(Back, distance, old(rotationAngle), old(x), old(y))
      ensures rotationAngle == old(rotationAngle)
    {
      BatteryCheck(t);
      commands := commands + [SetSpeed(speed)];
      var o := Offsets.BackOffset(trig, rotationAngle, distance);
      var sent := SendChunked(Back, distance);
      if sent {
        UpdateCoordinates(o.dx, o.dy);
      }
    }

    method MoveLeft(distance: real, speed: int, t: Telemetry)
      modifies this
      ensures commands == old(commands) + MoveTrace(Left, distance, speed, t)
      ensures (x, y) == PoseAfterMove(Left, distance, old(rotationAngle), old(x), old(y))
      ensures rotationAngle == old(rotationAngle)
    {
      BatteryCheck(t);
      commands := commands + [SetSpeed(speed)];
      var o := Offsets.LeftOffset(trig, rotationAngle, distance);
      var sent := SendChunked(Left, distance);
      if sent {
        UpdateCoordinates(o.dx, o.dy);
      }
    }

    method MoveRight(distance: real, speed: int, t: Telemetry)
      modifies this
      ensures commands == old(commands) + MoveTrace(Right, distance, speed, t)
      ensures (x, y) == PoseAfterMove(Right, distance, old(rotationAngle), old(x), old(y))
      ensures rotationAngle == old(rotationAngle)
    {
      BatteryCheck(t);
      commands := commands + [SetSpeed(speed)];
      var o := Offsets.RightOffset(trig, rotationAngle, distance);
      var sent := SendChunked(Right, distance);
      if sent {
        UpdateCoordinates(o.dx, o.dy);
      }
    }

    /** RC velocities: sent as they are, and added to the recorded position. */
    method Move(leftRight: int, forwardBack: int, upDown: int, yaw: int, t: Telemetry)
      modifies this
      ensures commands == old(commands) + Gate(t) + [RcControl(leftRight, forwardBack, upDown, yaw)]
      ensures x == old(x) + leftRight as real && y == old(y) + forwardBack as real
      ensures rotationAngle == old(rotationAngle)
    {
      BatteryCheck(t);
      commands := commands + [RcControl(leftRight, forwardBack, upDown, yaw)];
      UpdateCoordinates(leftRight as real, forwardBack as real);
    }

    // ---- flying to coordinates ----

    /** The x-axis block of axis-aligned flight: skipped when the delta is 0,
        otherwise right or left by the delta's sign. */
    method StrafeAlongX(delta: real, t: Telemetry)
      modifies this
      ensures commands == old(commands) + LegsTrace(Navigation.XLegs(delta), t)
      ensures (x, y) == PoseAfterLegs(Navigation.XLegs(delta), old(rotationAngle), old(x), old(y))
      ensures rotationAngle == old(rotationAngle)
    {
      if delta != 0.0 {
        if delta > 0.0 {
          MoveRight(delta, MoveSpeed, t);
        } else {
          MoveLeft(Navigation.Abs(delta), MoveSpeed, t);
        }
      }
    }

    /** The y-axis block of axis-aligned flight: forward or back by sign. */
    method MoveAlongY(delta: real, t: Telemetry)
      modifies this
      ensures commands == old(commands) + LegsTrace(Navigation.YLegs(delta), t)
      ensures (x, y) == PoseAfterLegs(Navigation.YLegs(delta), old(rotationAngle), old(x), old(y))
      ensures rotationAngle == old(rotationAngle)
    {
      if delta != 0.0 {
        if delta > 0.0 {
          MoveForward(delta, MoveSpeed, t);
        } else {
          MoveBack(Navigation.Abs(delta), MoveSpeed, t);
        }
      }
    }

    lemma {:induction false} LegsTraceAppend(a: seq<Navigation.Leg>, b: seq<Navigation.Leg>, t: Telemetry)
      ensures LegsTrace(a + b, t) == LegsTrace(a, t) + LegsTrace(b, t)
      decreases |a|
    {
      if a == [] {
        assert a + b == b;
      } else {
        assert (a + b)[1..] == a[1..] + b;
        LegsTraceAppend(a[1..], b, t);
      }
    }

    /** Direct flight: turn to the bearing of the target, then go forward
        the distance to it. */
    method FlyDirect(bearing: int, distance: real, t: Telemetry)
      modifies this
      ensures commands == old(commands) + DirectTrace(bearing, distance, old(rotationAngle), t)
      ensures (x, y) == PoseAfterMove(Forward, distance, bearing, old(x), old(y))
      ensures rotationAngle == bearing
    {
      RotateToBearing(bearing, t);
      MoveForward(distance, MoveSpeed, t);
    }

    /** The x block, then the y block. */
    method FlyXThenY(deltaX: real, deltaY: real, t: Telemetry)
      modifies this
      ensures commands == old(commands) + LegsTrace(Navigation.XLegs(deltaX) + Navigation.YLegs(deltaY), t)
      ensures (x, y) == PoseAfterLegs(Navigation.XLegs(deltaX) + Navigation.YLegs(deltaY), old(rotationAngle), old(x), old(y))
      ensures rotationAngle == old(rotationAngle)
    {
      StrafeAlongX(deltaX, t);
      MoveAlongY(deltaY, t);
      LegsTraceAppend(Navigation.XLegs(deltaX), Navigation.YLegs(deltaY), t);
      PoseAfterLegsAppend(Navigation.XLegs(deltaX), Navigation.YLegs(deltaY), old(rotationAngle), old(x), old(y));
    }

    /** The y block, then the x block. */
    method FlyYThenX(deltaX: real, deltaY: real, t: Telemetry)
      modifies this
      ensures commands == old(commands) + LegsTrace(Navigation.YLegs(deltaY) + Navigation.XLegs(deltaX), t)
      ensures (x, y) == PoseAfterLegs(Navigation.YLegs(deltaY) + Navigation.XLegs(deltaX), old(rotationAngle), old(x), old(y))
      ensures rotationAngle == old(rotationAngle)
    {
      MoveAlongY(deltaY, t);
      StrafeAlongX(deltaX, t);
      LegsTraceAppend(Navigation.YLegs(deltaY), Navigation.XLegs(deltaX), t);
      PoseAfterLegsAppend(Navigation.YLegs(deltaY), Navigation.XLegs(deltaX), old(rotationAngle), old(x), old(y));
    }

    /** Axis-aligned flight: the longer axis first, a tie going along y first. */
    method FlyAxisAligned(deltaX: real, deltaY: real, t: Telemetry)
      modifies this
      ensures commands == old(commands) + AxisTrace(deltaX, deltaY, t)
      ensures (x, y) == PoseAfterLegs(Navigation.AxisLegs(deltaX, deltaY), old(rotationAngle), old(x), old(y))
      ensures rotationAngle == old(rotationAngle)
    {
      if Navigation.Abs(deltaX) > Navigation.Abs(deltaY) {
        FlyXThenY(deltaX, deltaY, t);
      } else {
        FlyYThenX(deltaX, deltaY, t);
      }
    }

    /** The travelling part of fly_to_coordinates, by mode. */
    method FlyRoute(mode: Mode, deltaX: real, deltaY: real, t: Telemetry)
      modifies this
      ensures commands == old(commands) + RouteTrace(mode, deltaX, deltaY, old(rotationAngle), t)
      ensures (x, y) == PoseAfterRoute(mode, deltaX, deltaY, old(rotationAngle), old(x), old(y))
      ensures rotationAngle == HeadingAfterFlyTo(mode, old(rotationAngle))
    {
      match mode {
        case Direct(bearing, distance) =>
          FlyDirect(bearing, distance, t);
        case AxisAligned =>
          FlyAxisAligned(deltaX, deltaY, t);
      }
    }

    /** Flies to (tx, ty) and then records exactly that position. Direct
        flight turns to the bearing and goes forward; axis-aligned flight
        moves along the longer axis first and keeps the heading. */
    method FlyToCoordinates(tx: real, ty: real, mode: Mode, t: Telemetry)
      modifies this
      ensures commands == old(commands) + FlyToTrace(tx, ty, mode, old(x), old(y), old(rotationAngle), t)
      ensures x == tx && y == ty
      ensures rotationAngle == HeadingAfterFlyTo(mode, old(rotationAngle))
    {
      BatteryCheck(t);
      commands := commands + [SetSpeed(TravelSpeed)];
      ghost var start := commands;
      assert start == old(commands) + (Gate(t) + [SetSpeed(TravelSpeed)]);
      var deltaX := tx - x;
      var deltaY := ty - y;
      ghost var route := RouteTrace(mode, deltaX, deltaY, old(rotationAngle), t);
      assert FlyToTrace(tx, ty, mode, old(x), old(y), old(rotationAngle), t)
        == Gate(t) + [SetSpeed(TravelSpeed)] + route;
      FlyRoute(mode, deltaX, deltaY, t);
      assert commands == start + route;
      assert commands == old(commands) + (Gate(t) + [SetSpeed(TravelSpeed)] + route);
      x := tx;
      y := ty;
    }

    /** Flies to the origin, turns back to bearing 0 and records the origin. */
    method GoHome(mode: Mode, t: Telemetry)
      modifies this
      ensures commands == old(commands) + Gate(t)
        + FlyToTrace(0.0, 0.0, mode, old(x), old(y), old(rotationAngle), t)
        + BearingTrace(0, HeadingAfterFlyTo(mode, old(rotationAngle)), t)
      ensures x == 0.0 && y == 0.0 && rotationAngle == 0
    {
      BatteryCheck(t);
      FlyToCoordinates(0.0, 0.0, mode, t);
      RotateToBearing(0, t);
      x := 0.0;
      y := 0.0;
    }
  }
}
