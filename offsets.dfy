/** The change of recorded position a body-frame move makes. Headings are
    bearings in whole degrees (0 is the +y axis, clockwise positive); the
    forward rule is the source's: dx = d cos h, dy = d sin h, recorded as
    x += dy, y += dx. */
module Offsets {
  import opened Tello

  datatype Offset = Offset(dx: real, dy: real)

  function Negate(o: Offset): Offset {
    Offset(-o.dx, -o.dy)
  }

  function ForwardOffset(t: Trig, heading: int, d: real): Offset {
    Offset(d * t.sin(heading), d * t.cos(heading))
  }

  function BackOffset(t: Trig, heading: int, d: real): Offset {
    Offset(-d * t.sin(heading), -d * t.cos(heading))
  }

  /** Right is forward after a quarter turn clockwise (the corrected rule;
      see RightOffsetAsWritten). */
  function RightOffset(t: Trig, heading: int, d: real): Offset {
    ForwardOffset(t, heading + 90, d)
  }

  /** Left is forward after a quarter turn counter-clockwise (corrected). */
  function LeftOffset(t: Trig, heading: int, d: real): Offset {
    ForwardOffset(t, heading - 90, d)
  }

  /** The offset a move in `dir` records; vertical moves record none. */
  function BodyOffset(t: Trig, dir: Direction, heading: int, d: real): Offset {
    match dir
    case Forward => ForwardOffset(t, heading, d)
    case Back => BackOffset(t, heading, d)
    case Left => LeftOffset(t, heading, d)
    case Right => RightOffset(t, heading, d)
    case _ => Offset(0.0, 0.0)
  }

  /** move_left as written: angle heading + 90, dx = -d cos, dy = -d sin,
      recorded unswapped. */
  function LeftOffsetAsWritten(t: Trig, heading: int, d: real): Offset {
    Offset(-d * t.cos(heading + 90), -d * t.sin(heading + 90))
  }

  /** move_right as written: angle heading - 90, dx = d cos, dy = d sin,
      recorded unswapped. */
  function RightOffsetAsWritten(t: Trig, heading: int, d: real): Offset {
    Offset(d * t.cos(heading - 90), d * t.sin(heading - 90))
  }

  /** As written, move_left and move_right record the same offset at every
      heading, and at heading 0 both record a move backwards along y. */
  lemma AsWrittenLeftEqualsRight(t: Trig, heading: int, d: real)
    requires Quadrature(t)
    ensures LeftOffsetAsWritten(t, heading, d) == RightOffsetAsWritten(t, heading, d)
    ensures t.cos(0) == 1.0 && t.sin(0) == 0.0 ==>
      RightOffsetAsWritten(t, 0, d) == LeftOffsetAsWritten(t, 0, d) == Offset(0.0, -d)
  {
    var s, c := t.sin(heading), t.cos(heading);
    assert t.cos(heading + 90) == -s && t.sin(heading + 90) == c;
    assert c == -t.sin(heading - 90) && s == t.cos(heading - 90);
    assert t.cos(90) == -t.sin(0) && t.sin(90) == t.cos(0);
    assert t.cos(0) == -t.sin(-90) && t.sin(0) == t.cos(-90);
  }

  /** Corrected, left mirrors right, and the four moves are the four quarter
      turns of forward; at heading 0 right is +x and forward is +y. */
  lemma CorrectedOffsetsAreQuarterTurns(t: Trig, heading: int, d: real)
    requires Quadrature(t)
    ensures LeftOffset(t, heading, d) == Negate(RightOffset(t, heading, d))
    ensures BackOffset(t, heading, d) == Negate(ForwardOffset(t, heading, d))
    ensures RightOffset(t, heading, d) == Offset(d * t.cos(heading), -d * t.sin(heading))
    ensures t.cos(0) == 1.0 && t.sin(0) == 0.0 ==>
      RightOffset(t, 0, d) == Offset(d, 0.0) && ForwardOffset(t, 0, d) == Offset(0.0, d)
  {
    var s, c := t.sin(heading), t.cos(heading);
    assert t.cos(heading + 90) == -s && t.sin(heading + 90) == c;
    assert c == -t.sin(heading - 90) && s == t.cos(heading - 90);
    assert t.cos(90) == -t.sin(0) && t.sin(90) == t.cos(0);
  }
}
