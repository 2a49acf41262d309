/** The primitive interface of the drone that the flight controller drives:
    the commands it can send, the readings it takes, and the trigonometry
    it uses to dead-reckon. */
module Tello {

  /** Body-frame directions of the drone's translation commands. */
  datatype Direction = Forward | Back | Left | Right | Up | Down

  /** One primitive command sent to the drone. */
  datatype Command =
    | Takeoff
    | Land
    | SetSpeed(cmPerSecond: int)
    | RotateCw(degrees: int)
    | RotateCcw(degrees: int)
    | Move(direction: Direction, cm: int)
    | RcControl(leftRight: int, forwardBack: int, upDown: int, yaw: int)

  /** The readings the drone reports during one operation: battery percent,
      raw barometer and height, all in the drone's own units. */
  datatype Telemetry = Telemetry(battery: int, barometer: int, height: int)

  /** Cosine and sine of an angle given in whole degrees. The model does not
      compute them; it only relies on the quarter-turn identities below where
      a lemma says so. */
  datatype Trig = Trig(cos: int -> real, sin: int -> real)

  /** A quarter turn: cos(a + 90) == -sin(a) and sin(a + 90) == cos(a). */
  ghost predicate Quadrature(t: Trig) {
    forall a: int, b: int | b == a + 90 :: t.cos(b) == -t.sin(a) && t.sin(b) == t.cos(a)
  }

  /** n copies of one command, in order. */
  function Repeat(c: Command, n: nat): (s: seq<Command>)
    ensures |s| == n
    ensures forall i :: 0 <= i < n ==> s[i] == c
  {
    if n == 0 then [] else Repeat(c, n - 1) + [c]
  }

  /** Total centimetres commanded by the translation commands of a trace. */
  function CommandedCm(cs: seq<Command>): int {
    if cs == [] then 0
    else (if cs[|cs| - 1].Move? then cs[|cs| - 1].cm else 0) + CommandedCm(cs[..|cs| - 1])
  }

  lemma {:induction false} CommandedCmAppend(a: seq<Command>, b: seq<Command>)
    ensures CommandedCm(a + b) == CommandedCm(a) + CommandedCm(b)
    decreases |b|
  {
    if b == [] {
      assert a + b == a;
    } else {
      var b' := b[..|b| - 1];
      assert (a + b)[..|a + b| - 1] == a + b';
      CommandedCmAppend(a, b');
    }
  }

  lemma {:induction false} CommandedCmRepeat(dir: Direction, cm: int, n: nat)
    ensures CommandedCm(Repeat(Move(dir, cm), n)) == cm * n
  {
    if n > 0 {
      var s := Repeat(Move(dir, cm), n);
      assert s[..|s| - 1] == Repeat(Move(dir, cm), n - 1);
      CommandedCmRepeat(dir, cm, n - 1);
    }
  }
}
