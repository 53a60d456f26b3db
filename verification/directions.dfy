/**
 The character's four facing directions, the left/right turn cycle, and the
 snap angle of each direction as a number of quarter turns about the vertical
 axis (counter-clockwise, the sign of a left turn).
 */
module Directions {

  /** `Est` keeps the spelling of the program. The default is `North`. */
  datatype Direction = North | West | South | Est

  /** Snap angle in quarter turns: 0, π/2, π and 3π/2 radians. */
  function SnapQuarter(d: Direction): (q: nat)
    ensures q < 4
  {
    match d
    case North => 0
    case West => 1
    case South => 2
    case Est => 3
  }

  /** The direction whose snap angle is `q` quarter turns, for any `q`. */
  function FromQuarter(q: nat): (d: Direction)
    ensures SnapQuarter(d) == q % 4
  {
    match q % 4
    case 0 => North
    case 1 => West
    case 2 => South
    case _ => Est
  }

  lemma QuarterRoundTrip(d: Direction)
    ensures FromQuarter(SnapQuarter(d)) == d
  {
  }

  /** A left turn: North → West → South → Est → North, a positive quarter turn. */
  function LeftOf(d: Direction): (r: Direction)
    ensures SnapQuarter(r) == (SnapQuarter(d) + 1) % 4
  {
    match d
    case North => West
    case West => South
    case South => Est
    case Est => North
  }

  /** A right turn: the reverse cycle, a negative quarter turn. */
  function RightOf(d: Direction): (r: Direction)
    ensures SnapQuarter(r) == (SnapQuarter(d) + 3) % 4
  {
    match d
    case North => Est
    case West => North
    case South => West
    case Est => South
  }

  lemma TurnsAreInverse(d: Direction)
    ensures RightOf(LeftOf(d)) == d
    ensures LeftOf(RightOf(d)) == d
    ensures LeftOf(d) != d && RightOf(d) != d && LeftOf(d) != RightOf(d)
  {
  }

  /** `n` left turns in a row. */
  function LeftTurns(d: Direction, n: nat): Direction
  {
    if n == 0 then d else LeftOf(LeftTurns(d, n - 1))
  }

  /** `n` right turns in a row. */
  function RightTurns(d: Direction, n: nat): Direction
  {
    if n == 0 then d else RightOf(RightTurns(d, n - 1))
  }

  /** After `n` left turns the snap angle has grown by `n` quarter turns, modulo a full turn. */
  lemma {:induction false} LeftTurnsAdvance(d: Direction, n: nat)
    ensures LeftTurns(d, n) == FromQuarter(SnapQuarter(d) + n)
  {
    if n > 0 {
      LeftTurnsAdvance(d, n - 1);
      var q := SnapQuarter(d) + (n - 1);
      assert SnapQuarter(LeftTurns(d, n - 1)) == q % 4;
      assert (q % 4 + 1) % 4 == (q + 1) % 4;
      assert SnapQuarter(LeftTurns(d, n)) == (SnapQuarter(d) + n) % 4;
      QuarterDetermines(LeftTurns(d, n), FromQuarter(SnapQuarter(d) + n));
    }
  }

  /** After `n` right turns the snap angle has shrunk by `n` quarter turns, modulo a full turn. */
  lemma {:induction false} RightTurnsRetreat(d: Direction, n: nat)
    ensures RightTurns(d, n) == FromQuarter(SnapQuarter(d) + 3 * n)
  {
    if n > 0 {
      RightTurnsRetreat(d, n - 1);
      var q := SnapQuarter(d) + 3 * (n - 1);
      assert SnapQuarter(RightTurns(d, n - 1)) == q % 4;
      assert (q % 4 + 3) % 4 == (q + 3) % 4;
      assert SnapQuarter(RightTurns(d, n)) == (SnapQuarter(d) + 3 * n) % 4;
      QuarterDetermines(RightTurns(d, n), FromQuarter(SnapQuarter(d) + 3 * n));
    }
  }

  /** Four turns the same way come back to the start. */
  lemma FourTurnsReturn(d: Direction)
    ensures LeftTurns(d, 4) == d
    ensures RightTurns(d, 4) == d
  {
    LeftTurnsAdvance(d, 4);
    RightTurnsRetreat(d, 4);
    QuarterRoundTrip(d);
  }

  /** The snap angle identifies the direction. */
  lemma QuarterDetermines(a: Direction, b: Direction)
    requires SnapQuarter(a) == SnapQuarter(b)
    ensures a == b
  {
  }
}
