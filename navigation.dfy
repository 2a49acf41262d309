/** The legs of an axis-aligned fly_to_coordinates: at most one strafe along
    x (right or left) and one move along y (forward or back), the longer axis
    first, never rotating. */
module Navigation {
  import opened Tello
  import opened Offsets

  /** One directional move of a positive distance. */
  datatype Leg = Leg(direction: Direction, distance: real)

  function Abs(r: real): real {
    if r < 0.0 then -r else r
  }

  function XLegs(dx: real): seq<Leg> {
    if dx == 0.0 then [] else if dx > 0.0 then [Leg(Right, dx)] else [Leg(Left, Abs(dx))]
  }

  function YLegs(dy: real): seq<Leg> {
    if dy == 0.0 then [] else if dy > 0.0 then [Leg(Forward, dy)] else [Leg(Back, Abs(dy))]
  }

  function AxisLegs(dx: real, dy: real): seq<Leg> {
    if Abs(dx) > Abs(dy) then XLegs(dx) + YLegs(dy) else YLegs(dy) + XLegs(dx)
  }

  predicate OnXAxis(leg: Leg) {
    leg.direction == Left || leg.direction == Right
  }

  /** The displacement a leg makes in the frame the axis-aligned mode assumes:
      right is +x, forward is +y. */
  function AxisOffset(leg: Leg): Offset {
    match leg.direction
    case Right => Offset(leg.distance, 0.0)
    case Left => Offset(-leg.distance, 0.0)
    case Forward => Offset(0.0, leg.distance)
    case Back => Offset(0.0, -leg.distance)
    case _ => Offset(0.0, 0.0)
  }

  function SumAxis(legs: seq<Leg>): Offset {
    if legs == [] then Offset(0.0, 0.0)
    else
      var o := AxisOffset(legs[0]);
      var rest := SumAxis(legs[1..]);
      Offset(o.dx + rest.dx, o.dy + rest.dy)
  }

  /** The legs are the offsets the corrected pose update records at heading h. */
  function SumBody(t: Trig, heading: int, legs: seq<Leg>): Offset {
    if legs == [] then Offset(0.0, 0.0)
    else
      var o := BodyOffset(t, legs[0].direction, heading, legs[0].distance);
      var rest := SumBody(t, heading, legs[1..]);
      Offset(o.dx + rest.dx, o.dy + rest.dy)
  }

  /** Each axis with a non-zero delta gets exactly one leg of positive
      distance in the direction of the delta's sign; x goes first exactly
      when |dx| > |dy| (a tie goes y first); the legs add up to the delta. */
  lemma {:induction false} AxisLegsReachTarget(dx: real, dy: real)
    ensures var legs := AxisLegs(dx, dy);
      && |legs| == (if dx == 0.0 then 0 else 1) + (if dy == 0.0 then 0 else 1)
      && (forall leg | leg in legs :: leg.distance > 0.0 && leg.direction in {Forward, Back, Left, Right})
      && (forall leg | leg in legs && OnXAxis(leg) :: (leg.direction == Right <==> dx > 0.0))
      && (forall leg | leg in legs && !OnXAxis(leg) :: (leg.direction == Forward <==> dy > 0.0))
      && (dx != 0.0 && dy != 0.0 ==> (OnXAxis(legs[0]) <==> Abs(dx) > Abs(dy)))
      && SumAxis(legs) == Offset(dx, dy)
  {
    var xs, ys := XLegs(dx), YLegs(dy);
    var legs := AxisLegs(dx, dy);
    SumAxisAppend(xs, ys);
    SumAxisAppend(ys, xs);
    assert xs == [] || xs == [xs[0]];
    assert ys == [] || ys == [ys[0]];
    if xs != [] { assert SumAxis(xs) == AxisOffset(xs[0]); }
    if ys != [] { assert SumAxis(ys) == AxisOffset(ys[0]); }
  }

  lemma {:induction false} SumAxisAppend(a: seq<Leg>, b: seq<Leg>)
    ensures SumAxis(a + b) == Offset(SumAxis(a).dx + SumAxis(b).dx, SumAxis(a).dy + SumAxis(b).dy)
    decreases |a|
  {
    if a == [] {
      assert a + b == b;
    } else {
      assert (a + b)[1..] == a[1..] + b;
      SumAxisAppend(a[1..], b);
    }
  }

  lemma {:induction false} SumBodyAtNorth(t: Trig, legs: seq<Leg>)
    requires Quadrature(t) && t.cos(0) == 1.0 && t.sin(0) == 0.0
    requires forall leg | leg in legs :: leg.direction in {Forward, Back, Left, Right}
    ensures SumBody(t, 0, legs) == SumAxis(legs)
  {
    if legs != [] {
      var leg := legs[0];
      CorrectedOffsetsAreQuarterTurns(t, 0, leg.distance);
      assert BodyOffset(t, leg.direction, 0, leg.distance) == AxisOffset(leg);
      SumBodyAtNorth(t, legs[1..]);
    }
  }

  /** With the corrected pose updates and the drone facing heading 0, the
      legs of an axis-aligned flight record exactly the requested delta. */
  lemma AxisLegsRecordDeltaAtNorth(t: Trig, dx: real, dy: real)
    requires Quadrature(t) && t.cos(0) == 1.0 && t.sin(0) == 0.0
    ensures SumBody(t, 0, AxisLegs(dx, dy)) == Offset(dx, dy)
  {
    AxisLegsReachTarget(dx, dy);
    SumBodyAtNorth(t, AxisLegs(dx, dy));
  }
}
