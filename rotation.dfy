/** Heading arithmetic of the flight controller: the shorter-arc difference
    that rotate_to_bearing turns through, and the commands the primitive
    rotations send. Headings are whole degrees; `%` is Euclidean, which agrees
    with Python's `%` for the positive modulus 360 used throughout. */
module Rotation {
  import opened Tello

  function Abs(n: int): nat {
    if n < 0 then -n else n
  }

  /** Signed clockwise turn a command makes, in degrees. */
  function Turn(c: Command): int {
    match c
    case RotateCw(n) => n
    case RotateCcw(n) => -n
    case _ => 0
  }

  function TotalTurn(cs: seq<Command>): int {
    if cs == [] then 0 else TotalTurn(cs[..|cs| - 1]) + Turn(cs[|cs| - 1])
  }

  /** a and b name the same direction exactly when they differ by whole turns. */
  lemma SameDirection(a: int, b: int)
    ensures a % 360 == b % 360 <==> (a - b) % 360 == 0
    ensures a % 360 == b % 360 ==> a - b == 360 * (a / 360 - b / 360)
  {
    assert a == 360 * (a / 360) + a % 360;
    assert b == 360 * (b / 360) + b % 360;
    var q := a / 360 - b / 360;
    assert a - b == 360 * q + (a % 360 - b % 360);
    if (a - b) % 360 == 0 {
      var k := (a - b) / 360;
      assert a - b == 360 * k;
      assert a % 360 - b % 360 == 360 * (k - q);
      assert -360 < a % 360 - b % 360 < 360;
    }
  }

  /** The turn rotate_to_bearing makes from `heading` to `target`: it lies in
      (-180, 180] and faces the drone the way `target` names. */
  function BearingDifference(target: int, heading: int): (d: int)
    ensures -180 < d <= 180
    ensures (heading + d) % 360 == target % 360
  {
    var difference := (target - heading) % 360;
    SameDirection(heading + difference, target);
    if difference > 180 then
      SameDirection(heading + difference - 360, heading + difference);
      difference - 360
    else
      difference
  }

  /** The difference is the shortest turn to the target, and the only one in
      (-180, 180]. */
  lemma {:induction false} BearingDifferenceIsShortest(target: int, heading: int, e: int)
    requires (heading + e) % 360 == target % 360
    ensures Abs(BearingDifference(target, heading)) <= Abs(e)
    ensures -180 < e <= 180 ==> e == BearingDifference(target, heading)
  {
    var d := BearingDifference(target, heading);
    SameDirection(heading + e, heading + d);
    var q := (heading + e) / 360 - (heading + d) / 360;
    assert e - d == 360 * q;
    if q > 0 {
      assert e >= d + 360;
    } else if q < 0 {
      assert e <= d - 360;
    }
  }

  /** Already facing the target is exactly the case in which no turn is made. */
  lemma BearingDifferenceZero(target: int, heading: int)
    ensures BearingDifference(target, heading) == 0 <==> heading % 360 == target % 360
  {
    if heading % 360 == target % 360 {
      BearingDifferenceIsShortest(target, heading, 0);
    }
  }

  /** The rotation commands rotate_to_bearing issues for a difference d. */
  function ShortArcTurn(d: int): seq<Command> {
    if d > 0 then [RotateCw(d)] else if d < 0 then [RotateCcw(-d)] else []
  }

  /** rotate_to_bearing sends at most one rotation, of at most 180 degrees,
      which faces the drone the way the target names, and none when it
      already does. */
  lemma {:induction false} ShortArcTurnReachesBearing(target: int, heading: int)
    ensures var cs := ShortArcTurn(BearingDifference(target, heading));
      && |cs| <= 1
      && (forall c | c in cs :: (c.RotateCw? || c.RotateCcw?) && 0 < c.degrees <= 180)
      && (heading + TotalTurn(cs)) % 360 == target % 360
      && (cs == [] <==> heading % 360 == target % 360)
  {
    var d := BearingDifference(target, heading);
    var cs := ShortArcTurn(d);
    BearingDifferenceZero(target, heading);
    if cs != [] {
      assert cs[..0] == [];
      assert TotalTurn(cs) == Turn(cs[0]) == d;
    }
  }

  /** The command rotate_cw sends for a request of `degrees`, with its rewrite
      of turns over 180 degrees into the complementary counter-clockwise turn
      (the corrected form; see ClockwiseHeadingAsWritten). The rewrite is meant
      for requests up to 360 degrees: from 360 on, the complementary turn's
      argument is zero or negative, which the drone does not accept. */
  function ClockwiseCommand(degrees: int): (c: Command)
    ensures c.RotateCw? || c.RotateCcw?
    ensures (Turn(c) - degrees) % 360 == 0
    ensures degrees <= 180 ==> c == RotateCw(degrees)
    ensures 180 < degrees < 540 ==> c.RotateCcw? && Abs(c.degrees) < 180
  {
    if degrees > 180 then RotateCcw(360 - degrees) else RotateCw(degrees)
  }

  /** The command rotate_ccw sends for a request of `degrees` (corrected form,
      meant, like ClockwiseCommand, for requests up to 360 degrees). */
  function CounterClockwiseCommand(degrees: int): (c: Command)
    ensures c.RotateCw? || c.RotateCcw?
    ensures (Turn(c) + degrees) % 360 == 0
    ensures degrees <= 180 ==> c == RotateCcw(degrees)
    ensures 180 < degrees < 540 ==> c.RotateCw? && Abs(c.degrees) < 180
  {
    if degrees > 180 then RotateCw(360 - degrees) else RotateCcw(degrees)
  }

  /** After the corrected rotations the heading is the requested one, for
      every request. */
  lemma CorrectedRotationsReachRequest(heading: int, degrees: int)
    ensures (heading + Turn(ClockwiseCommand(degrees))) % 360 == (heading + degrees) % 360
    ensures (heading + Turn(CounterClockwiseCommand(degrees))) % 360 == (heading - degrees) % 360
  {
    SameDirection(heading + Turn(ClockwiseCommand(degrees)), heading + degrees);
    SameDirection(heading + Turn(CounterClockwiseCommand(degrees)), heading - degrees);
  }

  /** The heading rotate_cw leaves AS WRITTEN in the source: a request over
      180 degrees becomes a counter-clockwise request of degrees - 180. */
  function ClockwiseHeadingAsWritten(heading: int, degrees: int): int
    decreases degrees
  {
    if degrees > 180 then CounterClockwiseHeadingAsWritten(heading, degrees - 180)
    else (heading + degrees) % 360
  }

  /** The heading rotate_ccw leaves as written in the source. */
  function CounterClockwiseHeadingAsWritten(heading: int, degrees: int): int
    decreases degrees
  {
    if degrees > 180 then ClockwiseHeadingAsWritten(heading, degrees - 180)
    else (heading - degrees) % 360
  }

  /** As written, a clockwise request between 180 and 360 degrees ends on the
      requested heading only for 270 degrees; 200 degrees from north ends on
      340 instead of 200. */
  lemma {:induction false} AsWrittenRewriteMissesHeading(heading: int, degrees: int)
    requires 180 < degrees <= 360
    ensures ClockwiseHeadingAsWritten(heading, degrees) == (heading + degrees) % 360 <==> degrees == 270
    ensures ClockwiseHeadingAsWritten(0, 200) == 340 != (0 + 200) % 360
  {
    var a := heading - (degrees - 180);
    var b := heading + degrees;
    assert ClockwiseHeadingAsWritten(heading, degrees) == a % 360;
    SameDirection(b, a);
    assert b - a == 2 * degrees - 180;
    if degrees != 270 {
      assert 180 < b - a <= 540 && b - a != 360;
    }
  }
}
