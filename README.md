# Pong game state machine

A model of the core of a terminal pong game written in Go (`pong_go/pong.go`).
The board is 40 columns by 10 rows. A ball moves one cell diagonally per tick
and bounces off the top and bottom walls. Two three-row paddles sit in the
first and last columns. A ball that reaches either edge column scores for the
other player and is put back in the centre. Player 1 always steers the left
paddle with `w`/`s`. If the mode byte read at startup is `'2'`, a second
player steers the right paddle with `o`/`l`. With any other byte, an AI moves
the right paddle every tick so that it follows the ball's row. `q` quits.

The project has two modules:

- `Rules` (`rules.dfy`) holds the rules as pure functions over a `State`
  value, which is a snapshot of the game's eight fields:
  - the shared physics of one tick (`Physics`), the AI tracking (`TrackRow`)
    and the main-loop dispatch on the mode (`Step`);
  - the clamped paddle move (`Nudge`), the key switch (`ApplyKey`) and the
    glyph of each board cell (`Cell`);
  - a session (`Run`): a sequence of main-loop ticks and key presses that a
    `q` press ends.
  It also holds the invariant `State.Valid` and the lemmas about sessions.
- `Pong` (`game.dfy`) holds the `Game` class with the source's fields. Its
  methods update those fields in place, step by step as the Go methods do.
  Each method that changes the game says that `Valid()` is preserved. Its
  postcondition ties the new snapshot to the rule it carries out, except
  `ResetBall`, which gives its new fields directly. `Draw` changes nothing
  and returns a frame built from `Cell`.

The invariant `State.Valid` says:
- both direction components are ±1;
- the ball is in columns 1..38 and rows 0..9;
- a ball on row 0 is heading down, and a ball on row 9 is heading up;
- both paddle top rows are in 0..7;
- scores are non-negative.

The direction conditions on rows 0 and 9 are what keep the ball on the board.
The wall check flips the direction right after the move, so a ball that has
just reached an edge row always leaves it on the next tick.

Order within a tick:

- The ball moves before either bounce check looks at it.
  - A ball in column 1 heading left reaches column 0 and scores for player 2,
    even with paddle 1 in front of it (`MissFromColumnOne`). It does not bounce.
  - A ball in column 0 heading right goes to column 1 and does not score.
- In AI mode, paddle 2 is set from the ball's final row, which may be the row
  after a reset.

## Model

| member | source | states |
|---|---|---|
| Rules.Physics | pong_go/pong.go:84-110 | The tick shared by both modes. Both paddles are unchanged and the ball ends in columns 1..38. If the moved ball is in column 0 or less, score2 goes up by exactly 1, score1 stays, and the ball is reset to (20, 5) heading (-1, 1). Column 39 or more is the mirror case, with score1 going up. Otherwise the scores stay and the ball is at its moved position. Its vertical direction flips exactly when the moved row is 0 or less, or 9 or more. Its horizontal direction flips exactly when the moved ball is in column 1 within paddle 1's rows, or in column 38 within paddle 2's rows. Scores never decrease. A valid state stays valid. |
| Rules.Recenter | pong_go/pong.go:112-115 | The ball is at (20, 5) heading (-1, 1), and no other field changes. With paddles on the board and non-negative scores, the recentred state is valid. |
| Rules.Track | pong_go/pong.go:76-81 | Only paddle 2 changes, and it is recomputed from the ball's row whatever its row was before. It ends on the board, its middle row is as close to the ball's row as any top row in 0..7 would put it, and it covers the ball's row whenever the ball is on the board. |
| Rules.TrackRow | pong_go/pong.go:76-81 | The AI paddle's top row is in 0..7. Its middle row is as close to the ball's row as any top row in 0..7 would put it. For any ball row on the board, the paddle covers that row. |
| Rules.Step | pong_go/pong.go:188-197 | A main-loop tick. It agrees with the two-player physics on every field except paddle 2. Paddle 1 never changes. With mode byte '2', paddle 2 is unchanged. With any other byte, paddle 2 is recomputed from the final ball row, whatever it was before. Scores never decrease. Validity is preserved. |
| Rules.Nudge | pong_go/pong.go:117-132 | A paddle move changes the top row by at most one row, in the requested direction. It is a no-op exactly at the bound: up at row 0 or less, down at row 7 or more. A paddle on the board stays on the board. |
| Rules.ApplyKey | pong_go/pong.go:167-183 | A key never changes the ball or the scores. 'w' and 's' move paddle 1 up or down in both modes. 'o' and 'l' move paddle 2 when the mode byte is '2', and change nothing in any other mode. Paddle 2 changes only in that mode. Any other key leaves the state unchanged. Validity is preserved. |
| Rules.Cell | pong_go/pong.go:30-44 | The glyph at (x, y) is 'O' exactly at the ball. It is '\|' exactly in column 0 within paddle 1's rows or in column 39 within paddle 2's rows, and only where the ball is not. Every other cell is ' '. |
| Rules.Run | pong_go/pong.go:160-198 | A session of main-loop ticks and key presses. Ticks step by the mode byte, other keys go through `ApplyKey`, and the first 'q' ends the session, so the events after it have no effect. |
| Rules.RunKeepsValid | pong_go/pong.go:49-132 | Across any sequence of ticks and key presses from a valid state, every state is valid and neither score decreases. Paddle 1 ends where it started unless 'w' or 's' was pressed. |
| Rules.ReachableValid | pong_go/pong.go:135-142 | The state `main` creates is valid, and so is every state reachable from it in either mode. |
| Rules.TicksLeavePaddles | pong_go/pong.go:84-110 | Ticks alone never move paddle 1, and in two-player mode they never move either paddle. |
| Rules.TickKeepsTracked | pong_go/pong.go:60-81 | In AI mode, a tick that starts with paddle 2 tracking the ball keeps that true, and it never gives player 1 a point. A ball that reaches column 38 always meets the paddle and turns back. |
| Rules.AIRunNeverConcedes | pong_go/pong.go:49-81 | In AI mode, from a valid tracking state, no sequence of ticks and keys changes score1. |
| Rules.AIOpponentNeverConcedes | pong_go/pong.go:135-142 | In a game started as `main` starts it, with any mode byte other than '2', player 1's score stays 0 forever. |
| Rules.MissFromColumnOne | pong_go/pong.go:51-73 | A ball in column 1 heading left scores for player 2 and is recentred, wherever paddle 1 is. The position check comes after the move. |
| Rules.FirstAITick | pong_go/pong.go:49-81 | From the initial state in AI mode, one tick puts the ball at (19, 6) and paddle 2 at row 5. No bounce happens and the scores are unchanged. |
| Pong.Game.constructor | pong_go/pong.go:135-142 | The new game has the ball at (20, 5) heading (-1, 1), both paddles at row 4 and both scores 0. It is valid. |
| Pong.Game.ResetBall | pong_go/pong.go:112-115 | The ball is at (20, 5) with direction (-1, 1). Paddles and scores are unchanged. Validity is preserved. |
| Pong.Game.Update2 | pong_go/pong.go:84-110 | The fields after the in-place two-player tick equal `Physics` of the fields before it. Validity is preserved. |
| Pong.Game.Update | pong_go/pong.go:49-82 | The fields after the in-place AI tick equal the physics followed by tracking. Paddle 2 ends at `TrackRow` of the final ball row. Validity is preserved. |
| Pong.Game.MovePaddle | pong_go/pong.go:117-123 | Only paddle 1 changes, and it changes by `Nudge`. Validity is preserved. |
| Pong.Game.MovePaddle2 | pong_go/pong.go:125-132 | Only paddle 2 changes, and it changes by `Nudge`. Validity is preserved. |
| Pong.Game.HandleKey | pong_go/pong.go:167-183 | It reports quit exactly for 'q', which leaves the game unchanged. Any other key changes the fields as `ApplyKey` says. |
| Pong.Game.Draw | pong_go/pong.go:28-44 | The frame has 10 rows of 40 cells, and each cell is `Cell` of the current state. In a valid state, each edge column shows '\|' exactly on its paddle's rows. |
| Pong.Game.Play | pong_go/pong.go:160-198 | The session loop. After the events, the fields equal `Run` of the fields before them. The game is still running exactly when no 'q' was pressed. Validity is preserved. |

## Left out

- The keyboard device library (opening it, closing it, reading keys) and its error paths. A key-read error ends the listener while the main loop goes on; in the model, this is a session whose remaining events are all ticks.
- Concurrency. The listener goroutine and the main loop share the game and the `running` flag without synchronisation. The model runs them as one sequential interleaving given by the event sequence. The main loop can run one more tick after `q` because it polls `running`; the model does not capture that.
- Frame pacing (the 100 ms sleep).
- Terminal output: the clear-screen escape, printing the glyphs, the score line, the help line and the farewell message. Only the glyph chosen for each cell is modelled.
- Reading the mode byte from standard input. The mode is a parameter. A failed read gives byte 0, which selects the AI like any byte other than '2'.
- Go's platform-sized `int` (64 bits on common targets, 32 bits on 386 and arm) and its wrap-around. Coordinates stay small in every reachable state. Scores are unbounded here; in the source they would wrap only after 2^31 or 2^63 points.
