/**
 * The rules of the terminal pong game as pure functions over a snapshot of
 * the game state: one tick of ball physics and scoring, the AI opponent's
 * tracking, the keyboard commands and the glyph shown in each board cell.
 * The imperative `Game` class in module Pong is proved against these.
 */
module Rules {

  /** Board size and glyphs (pong_go/pong.go:12-17). */
  const Width: int := 40
  const Height: int := 10
  const BallChar: char := 'O'
  const PaddleChar: char := '|'
  const EmptySpace: char := ' '

  /** A paddle covers this many consecutive rows, starting at its top row. */
  const PaddleRows: int := 3

  /** The mode is the single byte read at startup. */
  newtype Byte = b: int | 0 <= b < 256

  /** The byte '2' selects two-player mode; any other byte selects the AI opponent. */
  const TwoPlayerMode: Byte := 0x32

  /** Keys handled by the input listener. */
  const UpKey1: char := 'w'
  const DownKey1: char := 's'
  const UpKey2: char := 'o'
  const DownKey2: char := 'l'
  const QuitKey: char := 'q'

  /** A snapshot of the fields of the game. */
  datatype State = State(
    ballX: int, ballY: int,
    ballDirX: int, ballDirY: int,
    paddle1Y: int, paddle2Y: int,
    score1: int, score2: int)
  {
    /**
     * The invariant every reachable state keeps: the ball moves diagonally
     * by one cell, it is on the board strictly between the two goal columns,
     * a ball on the top or bottom row is already heading back inwards, both
     * paddles fit on the board, and scores are non-negative.
     */
    predicate Valid() {
      (ballDirX == -1 || ballDirX == 1) && (ballDirY == -1 || ballDirY == 1) &&
      1 <= ballX <= Width - 2 && 0 <= ballY <= Height - 1 &&
      (ballY == 0 ==> ballDirY == 1) && (ballY == Height - 1 ==> ballDirY == -1) &&
      0 <= paddle1Y <= Height - PaddleRows && 0 <= paddle2Y <= Height - PaddleRows &&
      0 <= score1 && 0 <= score2
    }
  }

  /** The state `main` builds before the game starts (pong_go/pong.go:135-142). */
  const Initial: State :=
    State(Width / 2, Height / 2, -1, 1, Height / 2 - 1, Height / 2 - 1, 0, 0)

  /** Does a paddle whose top row is `top` cover row `row`? */
  predicate InSpan(row: int, top: int) {
    top <= row < top + PaddleRows
  }

  // ---------------------------------------------------------------------
  // One tick of ball physics, in the order the source applies the steps

  function Move(s: State): State {
    s.(ballX := s.ballX + s.ballDirX, ballY := s.ballY + s.ballDirY)
  }

  function WallBounce(s: State): State {
    if s.ballY <= 0 || s.ballY >= Height - 1 then s.(ballDirY := -s.ballDirY) else s
  }

  function PaddleBounce(s: State): State {
    if s.ballX == 1 && InSpan(s.ballY, s.paddle1Y) then s.(ballDirX := -s.ballDirX)
    else if s.ballX == Width - 2 && InSpan(s.ballY, s.paddle2Y) then s.(ballDirX := -s.ballDirX)
    else s
  }

  /**
   * `resetBall`: the ball back in the centre, heading left and down; nothing
   * else changes, and the recentred ball is in a valid position.
   */
  function Recenter(s: State): (r: State)
    ensures r.(ballX := s.ballX, ballY := s.ballY, ballDirX := s.ballDirX, ballDirY := s.ballDirY) == s
    ensures r.ballX == Width / 2 && r.ballY == Height / 2 && r.ballDirX == -1 && r.ballDirY == 1
    ensures (0 <= s.paddle1Y <= Height - PaddleRows && 0 <= s.paddle2Y <= Height - PaddleRows &&
             0 <= s.score1 && 0 <= s.score2) ==> r.Valid()
  {
    s.(ballX := Width / 2, ballY := Height / 2, ballDirX := -1, ballDirY := 1)
  }

  function ScoreOut(s: State): State {
    if s.ballX <= 0 then Recenter(s.(score2 := s.score2 + 1))
    else if s.ballX >= Width - 1 then Recenter(s.(score1 := s.score1 + 1))
    else s
  }

  /**
   * The part of a tick shared by both modes: move, bounce off the walls,
   * bounce off a paddle, then score and recentre. Both bounce checks look at
   * the ball after it has moved.
   */
  function Physics(s: State): (r: State)
    ensures r.paddle1Y == s.paddle1Y && r.paddle2Y == s.paddle2Y
    ensures 1 <= r.ballX <= Width - 2
    ensures s.score1 <= r.score1 && s.score2 <= r.score2
    ensures var nx := s.ballX + s.ballDirX;
      nx <= 0 ==>
        r.score2 == s.score2 + 1 && r.score1 == s.score1 &&
        r.ballX == Width / 2 && r.ballY == Height / 2 && r.ballDirX == -1 && r.ballDirY == 1
    ensures var nx := s.ballX + s.ballDirX;
      nx >= Width - 1 ==>
        r.score1 == s.score1 + 1 && r.score2 == s.score2 &&
        r.ballX == Width / 2 && r.ballY == Height / 2 && r.ballDirX == -1 && r.ballDirY == 1
    ensures var nx, ny := s.ballX + s.ballDirX, s.ballY + s.ballDirY;
      0 < nx < Width - 1 ==>
        r.score1 == s.score1 && r.score2 == s.score2 &&
        r.ballX == nx && r.ballY == ny &&
        r.ballDirY == (if ny <= 0 || ny >= Height - 1 then -s.ballDirY else s.ballDirY) &&
        r.ballDirX == (if (nx == 1 && InSpan(ny, s.paddle1Y)) ||
                          (nx == Width - 2 && InSpan(ny, s.paddle2Y))
                       then -s.ballDirX else s.ballDirX)
    ensures s.Valid() ==> r.Valid()
  {
    ScoreOut(PaddleBounce(WallBounce(Move(s))))
  }

  /** How far the middle row of a paddle with top row `top` is from row `row`. */
  function Offset(top: int, row: int): nat {
    if top + 1 <= row then row - (top + 1) else top + 1 - row
  }

  /**
   * The AI paddle's top row: `ballY - 1` clamped to the board. Its middle
   * row is as close to the ball's row as the board allows, and whenever the
   * ball is on the board the paddle covers the ball's row.
   */
  function TrackRow(ballY: int): (r: int)
    ensures 0 <= r <= Height - PaddleRows
    ensures forall q :: 0 <= q <= Height - PaddleRows ==> Offset(r, ballY) <= Offset(q, ballY)
    ensures 0 <= ballY <= Height - 1 ==> InSpan(ballY, r)
  {
    if ballY - 1 < 0 then 0
    else if ballY - 1 > Height - PaddleRows then Height - PaddleRows
    else ballY - 1
  }

  /**
   * The AI step at the end of `update`: paddle 2 recomputed from the final
   * ball row, whatever it was. It stays on the board, its middle row is as
   * close to the ball's row as the board allows, and it covers the ball's row.
   */
  function Track(s: State): (r: State)
    ensures r.(paddle2Y := s.paddle2Y) == s
    ensures 0 <= r.paddle2Y <= Height - PaddleRows
    ensures 0 <= s.ballY <= Height - 1 ==> InSpan(r.ballY, r.paddle2Y)
    ensures forall q :: 0 <= q <= Height - PaddleRows ==> Offset(r.paddle2Y, s.ballY) <= Offset(q, s.ballY)
  {
    s.(paddle2Y := TrackRow(s.ballY))
  }

  /**
   * One iteration of the main loop: `update2` in two-player mode, `update`
   * (physics followed by AI tracking) in any other mode.
   */
  function Step(s: State, mode: Byte): (r: State)
    ensures r.(paddle2Y := s.paddle2Y) == Physics(s)
    ensures r.paddle1Y == s.paddle1Y
    ensures mode == TwoPlayerMode ==> r.paddle2Y == s.paddle2Y
    ensures mode != TwoPlayerMode ==> r.paddle2Y == TrackRow(r.ballY)
    ensures s.score1 <= r.score1 && s.score2 <= r.score2
    ensures s.Valid() ==> r.Valid()
  {
    if mode == TwoPlayerMode then Physics(s) else Track(Physics(s))
  }

  // ---------------------------------------------------------------------
  // Paddle commands

  /**
   * `movePaddle` / `movePaddle2` on a paddle's top row: one row up or down,
   * a no-op exactly when the paddle is already at that edge of the board.
   */
  function Nudge(top: int, up: bool): (r: int)
    ensures r == top || r == top - 1 || r == top + 1
    ensures up ==> r <= top
    ensures !up ==> r >= top
    ensures r == top <==> (up && top <= 0) || (!up && top >= Height - PaddleRows)
    ensures 0 <= top <= Height - PaddleRows ==> 0 <= r <= Height - PaddleRows
  {
    if up && top > 0 then top - 1
    else if !up && top < Height - PaddleRows then top + 1
    else top
  }

  /**
   * The listener's `switch` on one key (not 'q', which stops the game):
   * 'w'/'s' move paddle 1 in both modes, 'o'/'l' move paddle 2 only in
   * two-player mode, and every other key is ignored.
   */
  function ApplyKey(s: State, key: char, mode: Byte): (r: State)
    ensures r.(paddle1Y := s.paddle1Y, paddle2Y := s.paddle2Y) == s
    ensures key == UpKey1 || key == DownKey1 ==>
      r.paddle1Y == Nudge(s.paddle1Y, key == UpKey1) && r.paddle2Y == s.paddle2Y
    ensures (key == UpKey2 || key == DownKey2) && mode == TwoPlayerMode ==>
      r.paddle2Y == Nudge(s.paddle2Y, key == UpKey2) && r.paddle1Y == s.paddle1Y
    ensures (key == UpKey2 || key == DownKey2) && mode != TwoPlayerMode ==> r == s
    ensures r.paddle2Y != s.paddle2Y ==> mode == TwoPlayerMode
    ensures key !in {UpKey1, DownKey1, UpKey2, DownKey2} ==> r == s
    ensures s.Valid() ==> r.Valid()
  {
    if key == UpKey1 then s.(paddle1Y := Nudge(s.paddle1Y, true))
    else if key == DownKey1 then s.(paddle1Y := Nudge(s.paddle1Y, false))
    else if key == UpKey2 && mode == TwoPlayerMode then s.(paddle2Y := Nudge(s.paddle2Y, true))
    else if key == DownKey2 && mode == TwoPlayerMode then s.(paddle2Y := Nudge(s.paddle2Y, false))
    else s
  }

  // ---------------------------------------------------------------------
  // Rendering

  /**
   * The glyph `draw` prints at column `x`, row `y`: the ball wins over a
   * paddle, paddle 1 occupies column 0 and paddle 2 the last column.
   */
  function Cell(s: State, x: int, y: int): (c: char)
    ensures c == BallChar <==> x == s.ballX && y == s.ballY
    ensures c == PaddleChar <==>
      !(x == s.ballX && y == s.ballY) &&
      ((x == 0 && InSpan(y, s.paddle1Y)) || (x == Width - 1 && InSpan(y, s.paddle2Y)))
    ensures c == BallChar || c == PaddleChar || c == EmptySpace
  {
    if x == s.ballX && y == s.ballY then BallChar
    else if x == 0 && InSpan(y, s.paddle1Y) then PaddleChar
    else if x == Width - 1 && InSpan(y, s.paddle2Y) then PaddleChar
    else EmptySpace
  }

  // ---------------------------------------------------------------------
  // A session: main-loop ticks interleaved with key presses

  /** What happens next in a session: a main-loop iteration or a key press. */
  datatype Event = Tick | Press(key: char)

  /**
   * The state after a sequence of events: ticks step by the mode, other keys
   * go through ApplyKey, and a 'q' press ends the session, so nothing after
   * the first 'q' has any effect.
   */
  function Run(s: State, mode: Byte, evs: seq<Event>): (r: State)
    ensures forall i :: 0 <= i < |evs| && evs[i] == Press(QuitKey) ==> r == Run(s, mode, evs[..i])
    decreases |evs|
  {
    if evs == [] then s
    else match evs[0]
      case Tick =>
        assert forall i :: 1 <= i <= |evs| ==> evs[..i][1..] == evs[1..][..i - 1];
        Run(Step(s, mode), mode, evs[1..])
      case Press(k) =>
        if k == QuitKey then s
        else
          assert forall i :: 1 <= i <= |evs| ==> evs[..i][1..] == evs[1..][..i - 1];
          Run(ApplyKey(s, k, mode), mode, evs[1..])
  }

  // ---------------------------------------------------------------------
  // Properties of sessions

  /**
   * Every state reachable from a valid one is valid (directions stay ±1,
   * the ball stays on the board, paddles stay on the board), scores never
   * decrease, and paddle 1 only moves when a key says so.
   */
  lemma {:induction false} RunKeepsValid(s: State, mode: Byte, evs: seq<Event>)
    requires s.Valid()
    ensures Run(s, mode, evs).Valid()
    ensures s.score1 <= Run(s, mode, evs).score1 && s.score2 <= Run(s, mode, evs).score2
    ensures (forall e :: e in evs ==> e != Press(UpKey1) && e != Press(DownKey1)) ==>
      Run(s, mode, evs).paddle1Y == s.paddle1Y
    decreases |evs|
  {
    if evs != [] {
      assert evs[0] in evs && forall e :: e in evs[1..] ==> e in evs;
      match evs[0]
      case Tick => RunKeepsValid(Step(s, mode), mode, evs[1..]);
      case Press(k) =>
        if k != QuitKey {
          RunKeepsValid(ApplyKey(s, k, mode), mode, evs[1..]);
        }
    }
  }

  /** Every state of a session that starts like `main` is valid. */
  lemma ReachableValid(mode: Byte, evs: seq<Event>)
    ensures Run(Initial, mode, evs).Valid()
  {
    RunKeepsValid(Initial, mode, evs);
  }

  /** With no key pressed, no tick moves paddle 1, and in two-player mode neither paddle. */
  lemma {:induction false} TicksLeavePaddles(s: State, mode: Byte, n: nat)
    ensures Run(s, mode, seq(n, _ => Tick)).paddle1Y == s.paddle1Y
    ensures mode == TwoPlayerMode ==> Run(s, mode, seq(n, _ => Tick)).paddle2Y == s.paddle2Y
    decreases n
  {
    var evs := seq(n, _ => Tick);
    if n > 0 {
      assert evs[0] == Tick && evs[1..] == seq(n - 1, _ => Tick);
      TicksLeavePaddles(Step(s, mode), mode, n - 1);
    }
  }

  /**
   * The AI opponent's situation at the start of every tick in AI mode: its
   * paddle tracks the ball's row, and a ball in front of it is already
   * heading away.
   */
  predicate Tracked(s: State) {
    s.paddle2Y == TrackRow(s.ballY) && (s.ballX == Width - 2 ==> s.ballDirX == -1)
  }

  /** One AI-mode tick keeps the opponent tracking and never lets player 1 score. */
  lemma TickKeepsTracked(s: State, mode: Byte)
    requires s.Valid() && Tracked(s) && mode != TwoPlayerMode
    ensures Tracked(Step(s, mode))
    ensures Step(s, mode).score1 == s.score1
  {
    // A ball reaching column 38 came from the left, and the paddle, set from
    // the previous row, covers the new row (TrackRow's covering property), so
    // it bounces there and never reaches column 39.
  }

  /** In AI mode player 1 never scores: the tracking paddle cannot miss. */
  lemma {:induction false} AIRunNeverConcedes(s: State, mode: Byte, evs: seq<Event>)
    requires s.Valid() && Tracked(s) && mode != TwoPlayerMode
    ensures Run(s, mode, evs).score1 == s.score1
    decreases |evs|
  {
    if evs != [] {
      match evs[0]
      case Tick =>
        TickKeepsTracked(s, mode);
        AIRunNeverConcedes(Step(s, mode), mode, evs[1..]);
      case Press(k) =>
        if k != QuitKey {
          AIRunNeverConcedes(ApplyKey(s, k, mode), mode, evs[1..]);
        }
    }
  }

  /** A game against the AI, started as `main` starts it, never gives player 1 a point. */
  lemma AIOpponentNeverConcedes(mode: Byte, evs: seq<Event>)
    requires mode != TwoPlayerMode
    ensures Run(Initial, mode, evs).score1 == 0
  {
    AIRunNeverConcedes(Initial, mode, evs);
  }

  /**
   * Moving comes before the bounce check: a ball in column 1 heading left
   * reaches column 0 and scores for player 2, even with paddle 1 in front of it.
   */
  lemma MissFromColumnOne(s: State)
    requires s.ballX == 1 && s.ballDirX == -1
    ensures Physics(s).score2 == s.score2 + 1 && Physics(s).score1 == s.score1
    ensures Physics(s).ballX == Width / 2 && Physics(s).ballY == Height / 2
    ensures Physics(s).ballDirX == -1 && Physics(s).ballDirY == 1
  {
  }

  /** The first tick of an AI game: the ball goes to (19, 6), the AI paddle to row 5. */
  lemma FirstAITick(mode: Byte)
    requires mode != TwoPlayerMode
    ensures Step(Initial, mode) == Initial.(ballX := 19, ballY := 6, paddle2Y := 5)
  {
  }
}
