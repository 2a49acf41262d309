/** How a directional move of some distance is split into the drone's
    translation commands: 500 cm pieces while more than 500 cm remain, then
    one command for the remainder if it is large enough. */
module Chunking {
  import opened Tello

  /** Python's int() on a float: truncation toward zero. */
  function Truncate(r: real): (n: int)
    ensures r >= 0.0 ==> 0.0 <= n as real <= r < n as real + 1.0
    ensures r < 0.0 ==> n as real - 1.0 < r <= n as real <= 0.0
  {
    if r >= 0.0 then r.Floor else -((-r).Floor)
  }

  /** How many times the `while distance > 500` loop runs: the least k for
      which distance - 500 * k is at most 500. */
  function ChunkCount(distance: real): (k: nat)
    ensures distance - 500.0 * k as real <= 500.0
    ensures k > 0 ==> distance - 500.0 * (k - 1) as real > 500.0
    decreases if distance > 500.0 then distance.Floor else 0
  {
    if distance > 500.0 then 1 + ChunkCount(distance - 500.0) else 0
  }

  /** The distance left when the loop stops. */
  function Remainder(distance: real): (r: real)
    ensures r <= 500.0
    ensures distance > 500.0 ==> 0.0 < r
    ensures distance <= 500.0 ==> r == distance
    ensures distance == r + 500.0 * ChunkCount(distance) as real
  {
    distance - 500.0 * ChunkCount(distance) as real
  }

  /** Whether the remainder command is sent: the drone accepts no translation
      shorter than 20 cm (the corrected guard; see FinalSentAsWritten). */
  predicate FinalSent(remainder: real) {
    remainder >= 20.0
  }

  /** The remainder guard as written in the source, `remaining > 19`. */
  predicate FinalSentAsWritten(remainder: real) {
    remainder > 19.0
  }

  /** The command for the remainder, if it is sent. */
  function FinalMove(dir: Direction, remainder: real): seq<Command> {
    if FinalSent(remainder) then [Move(dir, Truncate(remainder))] else []
  }

  /** The translation commands of a move of `distance` in direction `dir`:
      a 500 cm command while more than 500 cm remain, then the remainder's. */
  function ChunkedMoves(dir: Direction, distance: real): seq<Command>
    decreases if distance > 500.0 then distance.Floor else 0
  {
    if distance > 500.0 then [Move(dir, 500)] + ChunkedMoves(dir, distance - 500.0)
    else FinalMove(dir, distance)
  }

  /** The translation commands as the source writes them, with its guard. */
  function ChunkedMovesAsWritten(dir: Direction, distance: real): seq<Command>
    decreases if distance > 500.0 then distance.Floor else 0
  {
    if distance > 500.0 then [Move(dir, 500)] + ChunkedMovesAsWritten(dir, distance - 500.0)
    else if FinalSentAsWritten(distance) then [Move(dir, Truncate(distance))] else []
  }

  /** A chunked move is ChunkCount(distance) commands of 500 cm followed by
      the remainder's command. */
  lemma {:induction false} ChunkedMovesShape(dir: Direction, distance: real)
    ensures ChunkedMoves(dir, distance)
      == Repeat(Move(dir, 500), ChunkCount(distance)) + FinalMove(dir, Remainder(distance))
    ensures ChunkedMovesAsWritten(dir, distance)
      == Repeat(Move(dir, 500), ChunkCount(distance))
         + (if FinalSentAsWritten(Remainder(distance)) then [Move(dir, Truncate(Remainder(distance)))] else [])
    decreases if distance > 500.0 then distance.Floor else 0
  {
    if distance > 500.0 {
      ChunkedMovesShape(dir, distance - 500.0);
      var k := ChunkCount(distance - 500.0);
      assert Remainder(distance) == Remainder(distance - 500.0);
      RepeatCons(Move(dir, 500), k);
    }
  }

  lemma {:induction false} RepeatCons(c: Command, n: nat)
    ensures [c] + Repeat(c, n) == Repeat(c, n + 1)
  {
    if n > 0 {
      RepeatCons(c, n - 1);
    }
  }

  /** Every command of a chunked move goes the requested way and lies in the
      20..500 cm range the drone accepts; a move of exactly 500 cm is one
      command. */
  lemma {:induction false} ChunkedMovesInRange(dir: Direction, distance: real)
    ensures forall c | c in ChunkedMoves(dir, distance) ::
      c.Move? && c.direction == dir && 20 <= c.cm <= 500
    ensures ChunkedMoves(dir, 500.0) == [Move(dir, 500)]
  {
    ChunkedMovesShape(dir, distance);
    var r := Remainder(distance);
    var tail := FinalMove(dir, r);
    forall c | c in ChunkedMoves(dir, distance)
      ensures c.Move? && c.direction == dir && 20 <= c.cm <= 500
    {
      if c !in Repeat(Move(dir, 500), ChunkCount(distance)) {
        assert c in tail;
      }
    }
    assert ChunkCount(500.0) == 0;
    assert Truncate(500.0) == 500;
  }

  /** A move commands the whole distance but for less than 20 cm of drift,
      and but for the fraction truncated away when the remainder is sent. */
  lemma {:induction false} ChunkedMovesTotal(dir: Direction, distance: real)
    requires distance >= 0.0
    ensures var total := CommandedCm(ChunkedMoves(dir, distance)) as real;
      && distance - 20.0 < total <= distance
      && (FinalSent(Remainder(distance)) ==> distance - 1.0 < total)
  {
    ChunkedMovesShape(dir, distance);
    var k := ChunkCount(distance);
    var r := Remainder(distance);
    var tail := FinalMove(dir, r);
    CommandedCmAppend(Repeat(Move(dir, 500), k), tail);
    CommandedCmRepeat(dir, 500, k);
    if FinalSent(r) {
      assert [Move(dir, Truncate(r))][..0] == [];
      assert CommandedCm(tail) == Truncate(r);
    } else {
      assert CommandedCm(tail) == 0;
      assert 0.0 <= r;
    }
  }

  /** As written, a fractional remainder between 19 and 20 cm is sent as a
      19 cm command, below the drone's 20 cm minimum; 519.5 cm is one such move. */
  lemma {:induction false} AsWrittenSendsBelowMinimum(dir: Direction, distance: real)
    requires 19.0 < Remainder(distance) < 20.0
    ensures Move(dir, 19) in ChunkedMovesAsWritten(dir, distance)
    ensures Move(dir, 19) !in ChunkedMoves(dir, distance)
    ensures 19.0 < Remainder(519.5) < 20.0
  {
    ChunkedMovesShape(dir, distance);
    var r := Remainder(distance);
    assert Truncate(r) == 19;
    var s := ChunkedMovesAsWritten(dir, distance);
    assert s[|s| - 1] == Move(dir, 19);
    ChunkedMovesInRange(dir, distance);
    assert ChunkCount(519.5) == 1;
  }
}
