# Ping-pong brick breaker: the game rules in Dafny

This project models the rules of `pingpong.py`, a webcam-steered brick breaker. The player's nose,
seen by a face tracker, steers a paddle. A ball bounces between the paddle, the walls and a grid of
coloured bricks. Each brick hit scores ten points and shows a rising "+10". Losing the ball costs a
life. Clearing the board advances the level, and after level 3 play starts again from level 1.

The model has two layers.

- **Value layer.** Modules `Config`, `Geometry`, `Bricks`, `Physics`, `Texts` and `Rules` state each
  rule as a function on plain values. Dafny datatypes stand for the source's values: pygame
  rectangles, bricks, ball and paddle positions, and floating texts. A `World` is the state of one
  round, and `Rules.Step` is one frame of the inner game loop on that state. Lemmas prove what the
  game promises:
  - the closed form of the brick grid;
  - the bounds of paddle movement;
  - the wall and brick reflections;
  - that at most one brick, the first one touched, goes per frame;
  - the score, lives and level bookkeeping;
  - the lifetime of a floating text;
  - an invariant `Sound` that every frame preserves.
- **Object layer.** Module `Session` holds the objects the loop updates in place: the classes
  `Paddle`, `Ball` and `FloatingText`, plus `GameSession`. `GameSession` holds the loop's local
  state (paddle, ball, brick list, text list, lives, score, level and the `playing` flag) as
  fields. Its methods follow the loop body block by block. Each method is proved against the
  value layer: `Tick` ends in exactly the state and message screens that `Rules.Step` gives for
  the old state, and it keeps `Valid()`.

Some inputs come from outside the game's own code, and the model takes them as parameters:
- the face tracker's normalised sample, as `Option<Point>`;
- the random launch angle, as `draw: real`;
- `math.sin`, `math.cos`, `math.radians` and `math.hypot`, as a `Trig` record of functions.

A message screen blocks the real loop until a key is pressed. In the model it is a value in the
sequence `Tick` returns. A shown screen ends the round (`playing` becomes false), and
`GameSession.NewRound` starts the next one.

## Model

| member | source | states |
|---|---|---|
| Geometry.Clamp | pingpong.py:31 | with a <= b the result lies in [a, b] and is v itself when v already lies there; below a it is a, above b it is b; with b < a the outer max makes it a |
| Geometry.CircleRect | pingpong.py:34-37 | a circle whose centre lies in the closed rectangle always hits it, whatever the radius |
| Geometry.ClampIsNearest | pingpong.py:35-36 | on each axis the clamped coordinate is the point of the interval nearest to the centre |
| Geometry.CircleRectMeansNearPoint | pingpong.py:34-37 | for a rectangle of non-negative size, the test holds if and only if some point of the closed rectangle is within distance r of the centre |
| Bricks.BuildBricks | pingpong.py:128-139 | the two nested loops build exactly the row-major grid `Layout(level)`: entry i is the brick of row i / 8 and column i % 8 |
| Bricks.LayoutAt | pingpong.py:128-139 | the grid has (3 + level) * 8 bricks; brick r * 8 + c has left 10 + 77c, top 60 + 26r, size 73 x 22 and colour COLORS[(r + c) % 5] |
| Bricks.LayoutDisjoint | pingpong.py:133-138 | no two distinct bricks of a grid overlap |
| Bricks.LayoutInside | pingpong.py:133-138 | every brick lies within x in [10, 622], is 73 x 22, and lies between BRICK_TOP and the bottom of the level's last row |
| Rules.LayoutIsSound | pingpong.py:174 | a grid of level 1 to 3 has at least 32 bricks, all proper rectangles ending no lower than y = 212 |
| Physics.Trunc | pingpong.py:47 | int() on a float truncates toward zero: the result is within one below a non-negative value and within one above a negative one |
| Physics.PaddleSpot | pingpong.py:49-51 | the paddle lands in [0, 500] x [180, 452], and each coordinate of a target already in range is kept |
| Physics.AimAtCentre | pingpong.py:190-194 | the tracker sample (0.5, 0.7) puts the paddle at (250, 327) |
| Physics.AimCentresPaddle | pingpong.py:190-194 | a tracker sample whose target lies in the paddle's band is followed exactly: after the clamp, the paddle's centre is the sample scaled to the screen |
| Physics.PaddleRect | pingpong.py:46-47 | the paddle's rectangle has size 140 x 18 and its corner is the position truncated to integers |
| Physics.Advance | pingpong.py:68-70 | one Euler step keeps the ball's speed |
| Physics.Launch | pingpong.py:61-66 | a launched ball starts at the screen centre (320, 240) and never moves down |
| Physics.Walls | pingpong.py:199-203 | position kept; at a side wall vx is negated, else kept; at the top wall vy becomes non-negative, else kept; both magnitudes and the speed are kept |
| Physics.PaddleBounce | pingpong.py:205-212 | a ball not on the paddle, or not moving down, is unchanged; a deflected ball keeps its x and ends strictly above the paddle's top edge |
| Physics.DeflectUpward | pingpong.py:206-211 | with a positive speed and a cosine positive within 60 degrees, a deflected ball moves up |
| Physics.DeflectKeepsSpeed | pingpong.py:207-211 | when sin^2 + cos^2 = 1 and the given speed is the ball's speed, the deflection keeps the speed |
| Rules.Fly | pingpong.py:196-212 | only the ball changes; off the paddle it is the stepped ball after the wall rule; on the paddle it keeps the stepped x and sits above the paddle's top |
| Rules.FlyKeepsSpeed | pingpong.py:196-212 | with faithful sin, cos and hypot, the Euler step, the walls and the paddle together keep the ball's speed |
| Physics.BrickBounce | pingpong.py:217-222 | position kept; vx is negated on a side contact and vy otherwise, the other component is kept, and both magnitudes are kept |
| Rules.Steer | pingpong.py:189-194 | without a tracker sample the world is unchanged; with one, only the paddle moves, into its band |
| Rules.FirstHit | pingpong.py:215-216 | the result is the index of the first brick the ball touches in list order, or the list length when there is none |
| Rules.FirstHitUnique | pingpong.py:215-216 | any index with the first-hit property is the one FirstHit finds |
| Rules.FindHit | pingpong.py:215-226 | the scanning loop stops at FirstHit |
| Rules.RemoveAt | pingpong.py:223 | removal leaves one element fewer and keeps the others in their order |
| Rules.Smash | pingpong.py:214-226 | paddle, lives, level and play unchanged; the score rises by 10 exactly when one brick goes; with no score change nothing changes |
| Rules.SmashMiss | pingpong.py:215-216 | a ball touching no brick leaves the world unchanged |
| Rules.SmashHit | pingpong.py:215-226 | when brick k is the first one touched, the ball bounces off it, exactly brick k is removed with the rest kept in order, 10 is scored and one "+10" text with life 30 is added at the brick's centre |
| Rules.LoseBall | pingpong.py:228-235 | without a loss nothing changes; a loss costs one life and relaunches the ball as a new launch at the round's level, from the centre and upward; at zero lives play stops, the level returns to 1 and GAME OVER is shown |
| Rules.ClearBoard | pingpong.py:237-245 | bricks left: nothing changes; empty board: play stops, and either the next level is shown or, past level 3, YOU WIN is shown with level 1; nothing else changes |
| Rules.TouchingBallIsHigh | pingpong.py:216 | a ball touching a brick is at most one radius below the brick's bottom |
| Rules.StruckFacts | pingpong.py:188-226 | from a sound world in play, steering, flight and the brick phase keep lives, level and play, and a ball that took the last brick cannot be lost in the same frame |
| Rules.SettleFacts | pingpong.py:228-264 | ball loss, board clear and the text pass end sound and show at most one screen, with the exact conditions for each screen and for the lives and level afterwards |
| Rules.Step | pingpong.py:180-264 | any frame scores 0 or 10, removes no brick or exactly one, and adds at most one text |
| Rules.StepKeepsSound | pingpong.py:180-264 | every frame from a sound world in play leaves a sound world: level in 1..3, paddle in its band, bricks above y = 212, live texts only, and at least one life and one brick while playing |
| Rules.StepShowsAtMostOne | pingpong.py:228-245 | a frame shows at most one message screen |
| Rules.StepLives | pingpong.py:228-235 | lives drop by one exactly on a ball loss; GAME OVER is shown exactly when the last life goes, leaving level 1; play continues exactly when no screen is shown |
| Rules.StepLevels | pingpong.py:237-245 | the board is empty exactly when LEVEL n+1 or YOU WIN is shown; LEVEL n+1 means n < 3 and the level becomes n+1; YOU WIN means n = 3 and the level becomes 1; with no screen the level stays |
| Rules.StepScore | pingpong.py:214-226 | the score rises by 10 exactly when one brick goes, and stays exactly when the bricks stay; the texts are the old ones aged once, plus one aged fresh life-30 text on a hit |
| Texts.Aged | pingpong.py:261-264 | the text pass leaves at most as many texts, all with positive life |
| Texts.AgedAppend | pingpong.py:261-264 | the pass works text by text: it distributes over concatenation |
| Texts.AgedKeepsLongLived | pingpong.py:261-264 | texts with life above 1 are all kept in place, each one update older |
| Texts.PopupLifetime | pingpong.py:261-264 | a text with life L >= 1 survives n < L passes, moved n pixels up with life L - n, and is gone after L passes |
| Texts.FreshPopupLifetime | pingpong.py:85-92 | a fresh "+10" (life 30) is still shown after 29 updates, with life 1, and is removed by the 30th |
| Session.Paddle.constructor | pingpong.py:41-44 | a new paddle sits at (250, 400) |
| Session.Paddle.Rect | pingpong.py:46-47 | the paddle's rectangle has the paddle's size and its position truncated to integers |
| Session.Paddle.Move | pingpong.py:49-51 | the new position is PaddleSpot of the target, within [0, 500] x [180, 452] |
| Session.Ball.constructor | pingpong.py:57-59 | a new ball keeps its level and is launched as Launch describes |
| Session.Ball.Reset | pingpong.py:61-66 | the ball's new state is Launch(level, draw), which never moves down |
| Session.Ball.Update | pingpong.py:68-70 | the ball's new state is `Advance` of the old one, a step that keeps the speed (`Physics.Advance`, `Rules.FlyKeepsSpeed`) |
| Session.Ball.HitWalls | pingpong.py:199-203 | the ball's new state is Walls of the old one |
| Session.Ball.HitPaddle | pingpong.py:205-212 | the ball's new state is PaddleBounce of the old one |
| Session.FloatingText.constructor | pingpong.py:85-88 | a new text has the given position and label and life 30 |
| Session.FloatingText.Update | pingpong.py:90-92 | the text's new value is `Decay` of the old one, the single update whose repetition `Texts.PopupLifetime` follows to the text's removal |
| Session.Sweep | pingpong.py:261-264 | the pass over a snapshot leaves exactly `Aged` of the old values, the reference pass that `Texts.AgedAppend` splits text by text, with no object twice and no object that was not there before |
| Session.GameSession.UpdateTexts | pingpong.py:261-264 | the session's texts become Aged of the old texts |
| Session.GameSession.constructor | pingpong.py:167-178 | play starts at level 1 with 3 lives, score 0, no texts and the level-1 grid, the paddle at (250, 400) and the ball as the level-1 launch, in a valid state |
| Session.GameSession.NewRound | pingpong.py:171-178 | a round starts with a fresh paddle at (250, 400), a fresh ball launched at the level's speed, the level's grid, 3 lives, score 0 and no texts, in a valid state |
| Session.GameSession.SteerPaddle | pingpong.py:189-194 | the session's new state is Steer of the old one |
| Session.GameSession.FlyBall | pingpong.py:196-212 | the session's new state is Fly of the old one |
| Session.GameSession.HitBricks | pingpong.py:214-226 | the session's new state is Smash of the old one, and its texts stay free of repeats |
| Session.GameSession.CheckLoss | pingpong.py:228-235 | the new state and the screens shown are LoseBall of the old state |
| Session.GameSession.CheckClear | pingpong.py:237-245 | the new state and the screens shown are ClearBoard of the old state |
| Session.GameSession.Strike | pingpong.py:188-226 | the session's new state is Struck of the old one |
| Session.GameSession.Resolve | pingpong.py:228-264 | the new state and the screens shown are Settle of the old state |
| Session.GameSession.Tick | pingpong.py:180-264 | one frame ends in exactly the state and screens Step gives for the old state, keeps the same paddle and ball objects, and keeps the session valid |

## Left out

- The face tracker (`Camera`, lines 100-125) is left out. It is OpenCV capture, MediaPipe inference and `lerp` smoothing. The model takes its output as an `Option<Point>` sample.
- `random.uniform(-0.9, 0.9)` in `Ball.reset` is left out. The model takes the drawn angle as the parameter `draw` and does not require it to lie in [-0.9, 0.9].
- `math.sin`, `math.cos`, `math.radians` and `math.hypot` are inputs to the model. Facts that depend on them are proved from stated hypotheses: a cosine that is positive within 60 degrees, sin^2 + cos^2 = 1, and hypot^2 = u^2 + v^2.
- Floating point is modelled by exact reals, so rounding in the ball's motion is not modelled. Integer truncation by `int()` is modelled.
- Blocking on a message screen until a key press is not modelled, and neither is the title screen. A shown screen is a value returned by `Tick`, followed by `playing = false`.
- Drawing is left out: the `draw` methods, the HUD, the camera frame, `clock.tick`, event polling and `sys.exit`. None of them changes game state.
- The outer `while True` loop is not a method of the model. Its steps are `GameSession.NewRound` and repeated `GameSession.Tick` while `playing`. A valid session always meets `NewRound`'s precondition.
- Bricks are values, not objects. `bricks.remove(b)` removes by identity, and the model removes the brick at the index the scan found. The two agree because the grid holds distinct objects.
