# Falling-objects game: one frame of the simulation

A Dafny model of the per-frame simulation of a two-player falling-ball game
(Rust, macroquad). Two modules follow the two source files:

- `Game` (`game.dfy`, from `src/game.rs`): the constants, the `Player` and
  `Ball` classes with their field-updating methods, the collision predicate
  and the per-frame movement of players and balls. Each class has a
  `State()` function giving its fields as a value (`PlayerState`,
  `BallState`).
- `MainLoop` (`main_loop.dfy`, from `src/main.rs`): the class `Context`.
  It holds what the main loop keeps between frames:
  - the pause flag and the difficulty (process-wide globals in the source);
  - the Escape latch;
  - the two players and the list of balls.

  Its method `Step` runs one iteration of the loop body:
  - the Escape toggle;
  - the ball pass: each ball falls, then is tested against both players,
    the effect of its type is applied to each player it hits, and its index
    is recorded once per hit;
  - the player pass;
  - the removal of the recorded indices from the ball list, one after the
    other.

The pure function `Advance` states one frame on values (`GameState`). Its
result is either the next state or `Panicked(index, len)`, the
out-of-range `Vec::remove` that aborts the program. `Context.Step` is
proved against it: it reports whether the frame went through, and when it
did its new state is `Advance` of the old one. Each of the loop's passes is
a method proved against its own specification function (`PauseToggle`,
`BallPhase`, `MoveAll`, `RemoveAll`).

Behaviour of the source that the model makes explicit:

- The collision test is not symmetric. A ball whose centre is at or left of
  a player's left edge is never detected, even when the shapes overlap
  (`NoCollisionLeftOfEdge`, `OverlapMissedOnLeftEdge`).
- Indices are recorded once per colliding player, and each removal shifts
  the later balls without renumbering the stored indices. When the list
  holds a lone ball with index 0, as it does after setup, and that ball
  lands on both players in one frame, it records index 0 twice. The second
  removal then finds an empty list and the program panics
  (`OneBallDoubleHitPanics`). With a second ball in the list, the second
  removal does not panic: it deletes the other ball, which nothing hit
  (`TwoBallDoubleHitRemovesWrongBall`).
- Collisions are tested against the players' positions before the player
  pass, so the move keys of a frame cannot change a score, a health or a
  ball (`KeysDoNotAffectScoring`).

## Model

| member | source | states |
|---|---|---|
| Game.ClampHealth | src/game.rs:70-76 | health after adding n is old + n cut off at MAX_HEALTH: at most 3 and at most old + n, and equal to one of them |
| Game.Player.constructor | src/game.rs:40-52 | a new player has the given position and number, health 3, score 0 and size 90 x 70 |
| Game.Player.SetPosition | src/game.rs:59-63 | only the position changes, to the given one |
| Game.Player.SetHealth | src/game.rs:65-68 | only the health changes, to the given one |
| Game.Player.AddHealth | src/game.rs:70-76 | health becomes ClampHealth(old, n), so it is at most MAX_HEALTH afterwards; there is no lower floor; nothing else changes |
| Game.Player.RemoveHealth | src/game.rs:78-81 | health becomes exactly old - n with no clamping (it may go negative); nothing else changes |
| Game.Player.AddScore | src/game.rs:83-86 | score becomes old + n; position, number, size and health are unchanged |
| Game.Player.RemoveScore | src/game.rs:88-91 | score becomes exactly old - n with no clamping; nothing else changes |
| Game.Moved | src/game.rs:99-110 | y never changes; paused, or both or neither keys held, leaves the position unchanged; right alone adds the speed 5 to x, left alone subtracts it; no border clamp |
| Game.Player.OnFrame | src/game.rs:99-112 | only the position changes, to Moved(old position, pause flag, keys) |
| Game.Ball.constructor | src/game.rs:129-136 | a new ball has the given position, type and index and always radius 30 |
| Game.Ball.SetPosition | src/game.rs:138-142 | only the position changes, to the given one |
| Game.FallDistance | src/game.rs:173 | a ball falls 3 * difficulty / 2 per unpaused frame, at least 1.5 when the difficulty is at least 1 |
| Game.Fall | src/game.rs:169-176 | x, radius, type and index never change; paused leaves the ball unchanged; unpaused, y grows by 3 * difficulty / 2, strictly when difficulty >= 1 |
| Game.Ball.OnFrame | src/game.rs:169-178 | the ball's new state is Fall(old state, pause flag, difficulty) |
| Game.Collides | src/game.rs:144-154 | the collision test as the source writes it: the four strict inequalities on the player's rectangle, the ball's centre and the ball's radius |
| Game.Ball.CheckCollision | src/game.rs:144-154 | the ball object's test against a player object is Collides of their states |
| Game.CollisionImpliesOverlap | src/game.rs:144-154 | a detected collision is a real overlap of the player's rectangle with the ball's bounding square |
| Game.NoCollisionLeftOfEdge | src/game.rs:144-154 | a ball whose centre is at or left of the player's left edge is never detected |
| Game.OverlapMissedOnLeftEdge | src/game.rs:144-154 | a ball centred on player one's left edge overlaps it and is still not detected |
| MainLoop.PauseToggle | src/main.rs:88-96 | the pause flag flips exactly when Escape is pressed and the latch is clear; the latch afterwards is set exactly when the flag flipped |
| MainLoop.Context.TogglePause | src/main.rs:88-96 | the context's pause flag and latch become PauseToggle of the old ones; balls, players and difficulty are unchanged |
| MainLoop.EscapeTwiceTogglesOnce | src/main.rs:88-96 | Escape reported pressed in two consecutive frames toggles the pause flag exactly once, whatever the latch was |
| MainLoop.EscapeEveryFrameTogglesEveryOther | src/main.rs:88-96 | after 2m consecutive frames each reporting Escape pressed, the pause flag is flipped exactly when m is odd |
| MainLoop.Effect | src/main.rs:111-123 | Normal: score + 10; Poisonous: score - 50 and health - 1; Regeneration: score + 10 and health ClampHealth(health, 1); position, size and number unchanged; health never ends above both its old value and MAX_HEALTH |
| MainLoop.ApplyEffect | src/main.rs:111-123 | the player object's new state is Effect(ball type, old state) |
| MainLoop.Hit | src/main.rs:108-124 | a player is changed only when the ball collides with it, and then by Effect of the ball's type; its position, size and number never change |
| MainLoop.HitAll | src/main.rs:107-125 | one ball tested against every player in turn; the number of players is kept |
| MainLoop.Recorded | src/main.rs:107-110 | a ball adds at most one entry per player, every entry is the ball's stored index, and it adds one exactly when it collides with some player |
| MainLoop.RecordedCount | src/main.rs:107-110 | the number of entries a ball adds is exactly the number of players it collides with |
| MainLoop.DoubleHitRecordedTwice | src/main.rs:105-110 | a ball colliding with both players records its index twice |
| MainLoop.FallAll | src/main.rs:105-106 | every ball falls; the number of balls and each ball's stored index and type are kept |
| MainLoop.BallStep | src/main.rs:107-125 | one ball's turn against every player, the step of BallPhase; it keeps the number of players |
| MainLoop.BallPhase | src/main.rs:105-126 | the ball pass keeps the number of players |
| MainLoop.RecordedUsesGeometry | src/main.rs:107-110 | what a ball records depends only on the players' positions and sizes, not on their scores or health |
| MainLoop.DeletedCount | src/main.rs:105-126 | the ball pass records exactly one entry per (fallen ball, player) pair that collides, the players taken as they stood before the pass |
| MainLoop.Context.HitPlayer | src/main.rs:108-124 | reports whether the ball collides with the k-th player; that player becomes Hit(ball, old state); the other players are unchanged |
| MainLoop.Context.HitPlayers | src/main.rs:107-125 | the players become HitAll(ball, old players) and the returned list is Recorded(ball, old players) |
| MainLoop.Context.FallBall | src/main.rs:105-106 | the i-th ball becomes Fall of its old state and the other balls are unchanged |
| MainLoop.Context.BallTurn | src/main.rs:105-125 | the i-th ball falls and meets every player: the balls and players become those of the ball pass over the first i + 1 balls, the recorded entries are the ones that pass adds, and every player keeps headroom for the remaining balls |
| MainLoop.Context.UpdateBalls | src/main.rs:103-126 | the balls become FallAll of the old balls, and the players and the recorded indices are those of BallPhase over the old balls and players |
| MainLoop.UnhitPlayerUnchanged | src/main.rs:107-124 | a player that no fallen ball collides with leaves the ball pass unchanged |
| MainLoop.PhaseKeepsGeometry | src/main.rs:105-126 | the ball pass changes no player's position, size or number |
| MainLoop.PhaseBounds | src/main.rs:105-126 | over a pass of n balls each score moves by at least -50n and at most +10n; health drops by at most n below min(old, MAX_HEALTH) and ends at or below max(old, MAX_HEALTH) |
| MainLoop.HeadroomAfterPhase | src/main.rs:105-126 | a player able to take n + m hits without overflowing i8 or i32 can still take m after a pass over n balls |
| MainLoop.MoveAll | src/main.rs:127-129 | the player pass keeps the number of players |
| MainLoop.Context.MovePlayers | src/main.rs:127-129 | every player's position becomes Moved(position, pause flag, its keys); balls, flags and the rest of each player are unchanged |
| MainLoop.Remove | src/main.rs:133 | removing index i drops that element and shifts the later ones down by one |
| MainLoop.RemoveAll | src/main.rs:132-134 | removal in order either succeeds, with the length reduced by one per recorded index and no element added, or stops at a recorded index that is at least the current length |
| MainLoop.RemoveAllSucceedsIff | src/main.rs:132-134 | removal succeeds exactly when the k-th recorded index is below the length left after k removals |
| MainLoop.Context.DeleteBalls | src/main.rs:132-134 | reports success exactly when RemoveAll of the old balls succeeds, and then the balls are what it leaves; the balls stay distinct objects |
| MainLoop.OneBallDoubleHitPanics | src/main.rs:105-134 | when the list holds a lone ball and it lands on both players in one frame, the frame panics: with index 0 (the source's only ball) the second removal finds an empty list, otherwise the first removal is already out of range |
| MainLoop.TwoBallDoubleHitRemovesWrongBall | src/main.rs:105-134 | with a second ball in the list the same double hit does not panic: the second removal of index 0 takes the other ball, which no player touched (players as at the start on a 390-wide screen) |
| MainLoop.SurvivorsHaveFallen | src/main.rs:105-134 | every ball left after a frame is one of the frame's balls after its fall, its stored index not renumbered |
| MainLoop.KeysDoNotAffectScoring | src/main.rs:105-129 | the move keys of a frame change neither whether it panics nor any ball, score or health, because collisions use the positions from before the player pass |
| MainLoop.FrameKeepsHealthCap | src/main.rs:105-134 | a frame that goes through keeps every health at or below MAX_HEALTH if it was before |
| MainLoop.InitialState | src/main.rs:51-86 | the state before the first frame: two players, one ball, and every player has headroom for the first frame |
| MainLoop.Context.constructor | src/main.rs:51-86 | the initial context: players at (150, 360) numbered 1 and (W - 240, 480) numbered 2, one Normal ball at (80, 50) with index 0, not paused, latch clear, difficulty 1 |
| MainLoop.FirstFrameKeepsBall | src/main.rs:51-134 | the first frame after setup never panics and keeps its one ball |
| MainLoop.Advance | src/main.rs:87-134 | one frame on values: the pause toggle, the ball pass, the player pass and the removals; a frame that goes through keeps the difficulty and the number of players, never adds a ball, and leaves the pause flag of PauseToggle; a panic is at an index not below the length |
| MainLoop.Context.Step | src/main.rs:87-134 | one iteration of the loop: it reports whether the frame goes through, and when it does the new state is Advance of the old one; the players and balls stay distinct objects |

## Left out

- Rendering is not modelled: the `render` methods, `draw_*`, `clear_background`, the ball colour and `show_score` are drawing only.
- What a held key reports is not modelled. `Input.escape` means Escape went down this frame, which is what `is_key_pressed` reports, so holding Escape down is a single press. The move keys are the held state that `is_key_down` reports.
- Input polling is not modelled: `is_key_down`, `is_key_pressed`, `KeyCode`, `Controls` and `set_controls`. A frame's keys arrive as booleans in `Input`, one `Keys` per player in player order.
- `next_frame().await` and the `println!` of the pause toggle are left out. `Step` is one iteration of the loop.
- `screen_width()` is a parameter of the constructor and of `InitialState`.
- Positions, sizes and speeds are exact reals, not 32-bit floats, so rounding is not modelled.
- Game.Player.AddHealth: i8 and i32 overflow (a panic in debug builds, wrap-around in release) is excluded by preconditions, so the overflowing case is not modelled. The same holds for RemoveHealth, AddScore, RemoveScore and ApplyEffect.
- MainLoop.Context.Step: it requires every player to have headroom for one hit per ball (`HasHeadroom`). That condition is sufficient for the frame not to overflow but not necessary, and it limits a frame to at most 131 balls.
- MainLoop.Context.Step: where the source panics in `Vec::remove`, `Step` returns false and promises nothing about the state, because the program stops there.
- The globals `PAUSED` and `DIFFICULTY` are fields of `Context`, passed to the entities' `OnFrame` methods as parameters. Nothing in the loop changes the difficulty.
