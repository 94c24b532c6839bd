/**
 * The mutable `Game` object of the terminal pong game: ball position and
 * direction, the two paddles' top rows and the two scores, changed in place
 * by the per-tick updates, the paddle moves and the key handler. Each method
 * is proved against the rule of module Rules that it carries out.
 */
module Pong {
  import opened Rules

  class Game {
    var ballX: int
    var ballY: int
    var ballDirX: int
    var ballDirY: int
    var paddle1Y: int
    var paddle2Y: int
    var score1: int
    var score2: int

    /** The current fields as a value. */
    function Snapshot(): State
      reads this
    {
      State(ballX, ballY, ballDirX, ballDirY, paddle1Y, paddle2Y, score1, score2)
    }

    ghost predicate Valid()
      reads this
    {
      Snapshot().Valid()
    }

    /** The game as `main` creates it: ball centred heading left and down, paddles centred, scores zero. */
    constructor ()
      ensures Snapshot() == Initial
      ensures Valid()
    {
      ballX, ballY := Width / 2, Height / 2;
      ballDirX, ballDirY := -1, 1;
      paddle1Y, paddle2Y := Height / 2 - 1, Height / 2 - 1;
      score1, score2 := 0, 0;
    }

    /** Puts the ball back in the centre heading left and down; paddles and scores stay. */
    method ResetBall()
      modifies this
      ensures ballX == Width / 2 && ballY == Height / 2
      ensures ballDirX == -1 && ballDirY == 1
      ensures paddle1Y == old(paddle1Y) && paddle2Y == old(paddle2Y)
      ensures score1 == old(score1) && score2 == old(score2)
      ensures old(Valid()) ==> Valid()
    {
      ballX, ballY := Width / 2, Height / 2;
      ballDirX, ballDirY := -1, 1;
    }

    /** One tick in two-player mode: move, bounce, score. */
    method Update2()
      modifies this
      ensures Snapshot() == Physics(old(Snapshot()))
      ensures old(Valid()) ==> Valid()
    {
      // move the ball
      ballX := ballX + ballDirX;
      ballY := ballY + ballDirY;

      // top and bottom walls
      if ballY <= 0 || ballY >= Height - 1 {
        ballDirY := ballDirY * -1;
      }

      // paddles
      if ballX == 1 && ballY >= paddle1Y && ballY < paddle1Y + PaddleRows {
        ballDirX := ballDirX * -1;
      } else if ballX == Width - 2 && ballY >= paddle2Y && ballY < paddle2Y + PaddleRows {
        ballDirX := ballDirX * -1;
      }

      // out of bounds
      if ballX <= 0 {
        score2 := score2 + 1;
        ResetBall();
      } else if ballX >= Width - 1 {
        score1 := score1 + 1;
        ResetBall();
      }
    }

    /** One tick against the AI: the two-player tick, then paddle 2 follows the ball's row. */
    method Update()
      modifies this
      ensures Snapshot() == Track(Physics(old(Snapshot())))
      ensures paddle2Y == TrackRow(ballY)
      ensures old(Valid()) ==> Valid()
    {
      // move the ball
      ballX := ballX + ballDirX;
      ballY := ballY + ballDirY;

      // top and bottom walls
      if ballY <= 0 || ballY >= Height - 1 {
        ballDirY := ballDirY * -1;
      }

      // paddles
      if ballX == 1 && ballY >= paddle1Y && ballY < paddle1Y + PaddleRows {
        ballDirX := ballDirX * -1;
      } else if ballX == Width - 2 && ballY >= paddle2Y && ballY < paddle2Y + PaddleRows {
        ballDirX := ballDirX * -1;
      }

      // out of bounds
      if ballX <= 0 {
        score2 := score2 + 1;
        ResetBall();
      } else if ballX >= Width - 1 {
        score1 := score1 + 1;
        ResetBall();
      }

      // AI paddle
      paddle2Y := ballY - 1;
      if paddle2Y < 0 {
        paddle2Y := 0;
      } else if paddle2Y > Height - PaddleRows {
        paddle2Y := Height - PaddleRows;
      }
    }

    /** Moves paddle 1 one row up or down, clamped to the board; nothing else changes. */
    method MovePaddle(up: bool)
      modifies this
      ensures Snapshot() == old(Snapshot()).(paddle1Y := Nudge(old(paddle1Y), up))
      ensures old(Valid()) ==> Valid()
    {
      if up && paddle1Y > 0 {
        paddle1Y := paddle1Y - 1;
      } else if !up && paddle1Y < Height - PaddleRows {
        paddle1Y := paddle1Y + 1;
      }
    }

    /** Moves paddle 2 one row up or down, clamped to the board; nothing else changes. */
    method MovePaddle2(up: bool)
      modifies this
      ensures Snapshot() == old(Snapshot()).(paddle2Y := Nudge(old(paddle2Y), up))
      ensures old(Valid()) ==> Valid()
    {
      if up && paddle2Y > 0 {
        paddle2Y := paddle2Y - 1;
      } else if !up && paddle2Y < Height - PaddleRows {
        paddle2Y := paddle2Y + 1;
      }
    }

    /**
     * The input listener's handling of one key: paddle moves as ApplyKey
     * says, and `quit` when the key is 'q', which leaves the game as it is.
     */
    method HandleKey(key: char, mode: Byte) returns (quit: bool)
      modifies this
      ensures quit <==> key == QuitKey
      ensures quit ==> Snapshot() == old(Snapshot())
      ensures !quit ==> Snapshot() == ApplyKey(old(Snapshot()), key, mode)
      ensures old(Valid()) ==> Valid()
    {
      quit := false;
      match key {
        case 'w' => MovePaddle(true);
        case 's' => MovePaddle(false);
        case 'o' =>
          if mode == TwoPlayerMode {
            MovePaddle2(true);
          }
        case 'l' =>
          if mode == TwoPlayerMode {
            MovePaddle2(false);
          }
        case 'q' => quit := true;
        case _ =>
      }
    }

    /**
     * The board `draw` prints: `Height` rows of `Width` glyphs. In a valid
     * state the ball is never in a paddle column, so each edge column shows
     * its paddle exactly on the paddle's rows.
     */
    method Draw() returns (frame: seq<seq<char>>)
      ensures |frame| == Height
      ensures forall y :: 0 <= y < Height ==> |frame[y]| == Width
      ensures forall y, x :: 0 <= y < Height && 0 <= x < Width ==> frame[y][x] == Cell(Snapshot(), x, y)
      ensures Valid() ==> forall y :: 0 <= y < Height ==>
        (frame[y][0] == PaddleChar <==> InSpan(y, paddle1Y)) &&
        (frame[y][Width - 1] == PaddleChar <==> InSpan(y, paddle2Y))
    {
      frame := [];
      var y := 0;
      while y < Height
        invariant 0 <= y <= Height && |frame| == y
        invariant forall j :: 0 <= j < y ==> |frame[j]| == Width
        invariant forall j, x :: 0 <= j < y && 0 <= x < Width ==> frame[j][x] == Cell(Snapshot(), x, j)
      {
        var row := [];
        var x := 0;
        while x < Width
          invariant 0 <= x <= Width && |row| == x
          invariant forall i :: 0 <= i < x ==> row[i] == Cell(Snapshot(), i, y)
        {
          row := row + [Cell(Snapshot(), x, y)];
          x := x + 1;
        }
        frame := frame + [row];
        y := y + 1;
      }
    }

    /**
     * A session: the main loop's ticks (`update2` when the mode byte is '2',
     * `update` otherwise, each followed by a frame) interleaved with the
     * listener's key presses, until 'q' is pressed or the events run out.
     */
    method Play(events: seq<Event>, mode: Byte) returns (running: bool)
      modifies this
      ensures Snapshot() == Run(old(Snapshot()), mode, events)
      ensures running <==> Press(QuitKey) !in events
      ensures old(Valid()) ==> Valid()
    {
      ghost var start := Snapshot();
      running := true;
      var i := 0;
      while running && i < |events|
        invariant 0 <= i <= |events|
        invariant running ==> Run(start, mode, events) == Run(Snapshot(), mode, events[i..])
        invariant running ==> Press(QuitKey) !in events[..i]
        invariant !running ==> Snapshot() == Run(start, mode, events) && Press(QuitKey) in events
        invariant old(Valid()) ==> Valid()
      {
        assert events[i..][0] == events[i] && events[i..][1..] == events[i + 1..];
        match events[i] {
          case Tick =>
            if mode == TwoPlayerMode {
              Update2();
            } else {
              Update();
            }
            var _ := Draw();
          case Press(k) =>
            var quit := HandleKey(k, mode);
            if quit {
              running := false;
            }
        }
        assert events[..i + 1] == events[..i] + [events[i]];
        i := i + 1;
      }
      if running {
        assert events[..i] == events;
      }
    }
  }
}
