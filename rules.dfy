/**
 * One tick of the game as a function on a value of the whole world: paddle
 * steering, ball flight, brick hit, ball loss, board clear and the text pass.
 */
module Rules {
  import opened Config
  import opened Geometry
  import opened Bricks
  import opened Physics
  import opened Texts

  /** The message screens that end a round. */
  datatype Message = GameOver | LevelUp(level: int) | YouWin

  /** Everything the tick reads and writes, as plain values. */
  datatype World = World(paddle: Point, ball: BallState, bricks: seq<Brick>, popups: seq<Popup>,
                         lives: int, score: int, level: int, playing: bool)

  /** A world after a tick, with the message screens the tick showed, in order. */
  datatype Outcome = Outcome(world: World, shown: seq<Message>)

  /** Lowest brick bottom any level up to MAX_LEVEL builds (212). */
  const FIELD_BOTTOM: int := BRICK_TOP + Rows(MAX_LEVEL) * ROW_H - BRICK_GAP

  /**
   * The invariant of a session between ticks: a level in range, the paddle in its
   * band, bricks no lower than the deepest grid, live texts only, and while a round
   * is being played at least one life and one brick.
   */
  ghost predicate Sound(w: World)
  {
    Shaped(w) && (w.playing ==> w.lives >= 1 && w.bricks != [])
  }

  /** The part of Sound that holds at every point of a tick. */
  ghost predicate Shaped(w: World)
  {
    && 1 <= w.level <= MAX_LEVEL
    && 0.0 <= w.paddle.x <= 500.0 && 180.0 <= w.paddle.y <= 452.0
    && BricksAbove(w.bricks)
    && (forall i :: 0 <= i < |w.popups| ==> w.popups[i].life > 0)
  }

  /** Every brick is a proper rectangle whose bottom is no lower than FIELD_BOTTOM. */
  ghost predicate BricksAbove(bricks: seq<Brick>)
  {
    forall i :: 0 <= i < |bricks| ==> 0 <= bricks[i].rect.h && bricks[i].rect.Bottom() <= FIELD_BOTTOM
  }

  /** A fresh grid of any level up to MAX_LEVEL satisfies the brick part of Sound. */
  lemma LayoutIsSound(level: int)
    requires 1 <= level <= MAX_LEVEL
    ensures |Layout(level)| >= 32
    ensures BricksAbove(Layout(level))
  {
    forall i | 0 <= i < |Layout(level)|
      ensures 0 <= Layout(level)[i].rect.h && Layout(level)[i].rect.Bottom() <= FIELD_BOTTOM
    {
      LayoutInside(level, i);
    }
  }

  // ---------------------------------------------------------------- camera

  /** With a tracker sample the paddle moves to it; without one nothing moves. */
  function Steer(w: World, sample: Option<Point>): (r: World)
    ensures sample.None? ==> r == w
    ensures sample.Some? ==> 0.0 <= r.paddle.x <= 500.0 && 180.0 <= r.paddle.y <= 452.0
    ensures r == w.(paddle := r.paddle)
  {
    match sample
    case None => w
    case Some(n) => w.(paddle := PaddleSpot(Aim(n)))
  }

  // ---------------------------------------------------------------- flight

  /** Euler step, then the wall rule, then the paddle rule with the speed after the step. */
  function Fly(w: World, trig: Trig): (r: World)
    ensures r == w.(ball := r.ball)
    ensures !OnPaddle(Walls(Advance(w.ball)), PaddleRect(w.paddle)) ==> r.ball == Walls(Advance(w.ball))
    ensures OnPaddle(Walls(Advance(w.ball)), PaddleRect(w.paddle)) ==>
              r.ball.x == w.ball.x + w.ball.vx && r.ball.y + R < PaddleRect(w.paddle).top as real
  {
    var b := Advance(w.ball);
    var speed := trig.Hypot(b.vx, b.vy);
    w.(ball := PaddleBounce(Walls(b), PaddleRect(w.paddle), speed, trig))
  }

  /**
   * With a faithful sin, cos and hypot, flight keeps the ball's speed: the Euler
   * step and the walls do not touch it and the paddle turns the ball at the speed
   * measured after the step.
   */
  lemma FlyKeepsSpeed(w: World, trig: Trig)
    requires forall a :: trig.Sin(a) * trig.Sin(a) + trig.Cos(a) * trig.Cos(a) == 1.0
    requires forall u, v :: trig.Hypot(u, v) * trig.Hypot(u, v) == u * u + v * v
    ensures SqSpeed(Fly(w, trig).ball) == SqSpeed(w.ball)
  {
    var b := Advance(w.ball);
    var speed := trig.Hypot(b.vx, b.vy);
    assert speed * speed == SqSpeed(b) == SqSpeed(w.ball);
    assert SqSpeed(Walls(b)) == SqSpeed(b);
    DeflectKeepsSpeed(Walls(b), PaddleRect(w.paddle), speed, trig);
  }

  // ---------------------------------------------------------------- bricks

  /** k is the index of the first brick the ball touches, or |bricks| if none. */
  predicate IsFirstHit(b: BallState, bricks: seq<Brick>, k: int)
  {
    && 0 <= k <= |bricks|
    && (k < |bricks| ==> Touches(b, bricks[k].rect))
    && (forall j :: 0 <= j < k ==> !Touches(b, bricks[j].rect))
  }

  /** The scan of the brick list in list order. */
  function FirstHit(b: BallState, bricks: seq<Brick>): (k: nat)
    ensures IsFirstHit(b, bricks, k)
  {
    if bricks == [] then 0
    else if Touches(b, bricks[0].rect) then 0
    else 1 + FirstHit(b, bricks[1..])
  }

  /** There is only one first hit. */
  lemma FirstHitUnique(b: BallState, bricks: seq<Brick>, k: int)
    requires IsFirstHit(b, bricks, k)
    ensures k == FirstHit(b, bricks)
  {
  }

  /** The brick loop: walk the list until the first brick the ball touches. */
  method FindHit(b: BallState, bricks: seq<Brick>) returns (k: nat)
    ensures k == FirstHit(b, bricks)
  {
    k := 0;
    while k < |bricks| && !Touches(b, bricks[k].rect)
      invariant k <= |bricks|
      invariant forall j :: 0 <= j < k ==> !Touches(b, bricks[j].rect)
    {
      k := k + 1;
    }
    FirstHitUnique(b, bricks, k);
  }

  /** list.remove of the element at index k: the others keep their order. */
  function RemoveAt<T>(s: seq<T>, k: int): (r: seq<T>)
    requires 0 <= k < |s|
    ensures |r| == |s| - 1
    ensures forall i :: 0 <= i < k ==> r[i] == s[i]
    ensures forall i :: k <= i < |r| ==> r[i] == s[i + 1]
  {
    s[..k] + s[k + 1..]
  }

  /** The "+10" text announcing a hit, at the centre of the brick. */
  function RewardText(brick: Brick): Popup
  {
    Popup(brick.rect.CenterX(), brick.rect.CenterY(), REWARD_LABEL, TEXT_LIFE)
  }

  /**
   * The brick step: the first touched brick bounces the ball, is removed, scores
   * and leaves a text; with no touched brick nothing changes. At most one brick
   * goes per tick, and the score moves exactly when one does.
   */
  function Smash(w: World): (r: World)
    ensures r.paddle == w.paddle && r.lives == w.lives && r.level == w.level && r.playing == w.playing
    ensures r.score == w.score || r.score == w.score + REWARD
    ensures r.score == w.score + REWARD <==> |r.bricks| == |w.bricks| - 1
    ensures r.score == w.score ==> r == w
  {
    var k := FirstHit(w.ball, w.bricks);
    if k == |w.bricks| then w
    else
      var brick := w.bricks[k];
      w.(ball := BrickBounce(w.ball, brick.rect),
         bricks := RemoveAt(w.bricks, k),
         score := w.score + REWARD,
         popups := w.popups + [RewardText(brick)])
  }

  /** A ball touching no brick leaves the world as it was. */
  lemma SmashMiss(w: World)
    requires forall j :: 0 <= j < |w.bricks| ==> !Touches(w.ball, w.bricks[j].rect)
    ensures Smash(w) == w
  {
  }

  /**
   * When brick k is the first one touched, exactly it is removed, the ball bounces
   * off it, ten points are scored and one text with life 30 appears at its centre.
   */
  lemma SmashHit(w: World, k: int)
    requires 0 <= k < |w.bricks| && Touches(w.ball, w.bricks[k].rect)
    requires forall j :: 0 <= j < k ==> !Touches(w.ball, w.bricks[j].rect)
    ensures Smash(w) == w.(ball := BrickBounce(w.ball, w.bricks[k].rect),
                           bricks := RemoveAt(w.bricks, k),
                           score := w.score + REWARD,
                           popups := w.popups + [Popup(w.bricks[k].rect.CenterX(), w.bricks[k].rect.CenterY(), "+10", 30)])
  {
    FirstHitUnique(w.ball, w.bricks, k);
  }

  // ---------------------------------------------------------------- lives and levels

  /** The ball has fallen below the bottom edge by more than its radius. */
  predicate Lost(b: BallState)
  {
    b.y - R > SCREEN_H as real
  }

  /**
   * Ball loss: one life less and a fresh launch; at zero lives the round ends on
   * the game-over screen and play restarts from level 1.
   */
  function LoseBall(w: World, draw: real, trig: Trig): (o: Outcome)
    ensures !Lost(w.ball) ==> o == Outcome(w, [])
    ensures Lost(w.ball) ==> o.world.lives == w.lives - 1 && o.world.ball.vy <= 0.0
    ensures Lost(w.ball) ==> o.world.ball == Launch(w.level, draw, trig)
    ensures Lost(w.ball) && w.lives <= 1 ==> !o.world.playing && o.world.level == 1 && o.shown == [GameOver]
    ensures Lost(w.ball) && w.lives > 1 ==> o.world.playing == w.playing && o.world.level == w.level && o.shown == []
    ensures o.world.bricks == w.bricks && o.world.score == w.score && o.world.popups == w.popups
    ensures o.world.paddle == w.paddle
  {
    if Lost(w.ball) then
      var w' := w.(lives := w.lives - 1, ball := Launch(w.level, draw, trig));
      if w'.lives <= 0 then Outcome(w'.(playing := false, level := 1), [GameOver])
      else Outcome(w', [])
    else
      Outcome(w, [])
  }

  /**
   * Board clear: the round ends and the next level is announced, or after the
   * last level the win screen is shown and play restarts from level 1.
   */
  function ClearBoard(w: World): (o: Outcome)
    ensures w.bricks != [] ==> o == Outcome(w, [])
    ensures w.bricks == [] && w.level < MAX_LEVEL ==>
      !o.world.playing && o.world.level == w.level + 1 && o.shown == [LevelUp(w.level + 1)]
    ensures w.bricks == [] && w.level >= MAX_LEVEL ==> !o.world.playing && o.world.level == 1 && o.shown == [YouWin]
    ensures o.world == w.(playing := o.world.playing, level := o.world.level)
  {
    if w.bricks == [] then
      var next := w.level + 1;
      if next > MAX_LEVEL then Outcome(w.(playing := false, level := 1), [YouWin])
      else Outcome(w.(playing := false, level := next), [LevelUp(next)])
    else
      Outcome(w, [])
  }

  // ---------------------------------------------------------------- the tick

  /** The first half of a tick: steering, flight and the brick phase. */
  function Struck(w: World, sample: Option<Point>, trig: Trig): World
  {
    Smash(Fly(Steer(w, sample), trig))
  }

  /** The second half of a tick: ball loss, board clear, then the text pass. */
  function Settle(s: World, draw: real, trig: Trig): Outcome
  {
    var lose := LoseBall(s, draw, trig);
    var clear := ClearBoard(lose.world);
    Outcome(clear.world.(popups := Aged(clear.world.popups)), lose.shown + clear.shown)
  }

  /** One tick of the inner game loop. */
  function Step(w: World, sample: Option<Point>, draw: real, trig: Trig): (o: Outcome)
    ensures o.world.score == w.score || o.world.score == w.score + REWARD
    ensures o.world.bricks == w.bricks || |o.world.bricks| == |w.bricks| - 1
    ensures |o.world.popups| <= |w.popups| + 1
  {
    Settle(Struck(w, sample, trig), draw, trig)
  }

  /** A ball touching a brick is at most one radius below the brick's bottom. */
  lemma TouchingBallIsHigh(b: BallState, rect: Rect)
    requires Touches(b, rect) && rect.h >= 0
    ensures b.y <= rect.Bottom() as real + R
  {
    var nx := Clamp(b.x, rect.left as real, rect.Right() as real);
    var ny := Clamp(b.y, rect.top as real, rect.Bottom() as real);
    assert ny <= rect.Bottom() as real;
    assert SqDist(b.x, b.y, nx, ny) <= 100.0;
    WithinRadius(b.x - nx, b.y - ny);
  }

  /** An offset whose squared length is at most 10 * 10 is at most 10 on either axis. */
  lemma WithinRadius(dx: real, dy: real)
    requires dx * dx + dy * dy <= 100.0
    ensures dy <= 10.0
  {
    if dy > 10.0 {
      NonNegProduct(dy - 10.0, dy + 10.0);
      assert false;
    }
  }

  /**
   * The first half of a tick from a sound world: lives, level and play are as they
   * were, and a ball that just took the last brick cannot also be lost, since it
   * touched a brick far above the bottom edge.
   */
  lemma {:induction false} StruckFacts(w: World, sample: Option<Point>, trig: Trig)
    requires Sound(w) && w.playing
    ensures var s := Struck(w, sample, trig);
      && Shaped(s) && s.playing && s.lives == w.lives && s.level == w.level
      && !(Lost(s.ball) && s.bricks == [])
  {
    var f := Fly(Steer(w, sample), trig);
    var s := Smash(f);
    assert BricksAbove(s.bricks);
    if s.bricks == [] {
      var k := FirstHit(f.ball, f.bricks);
      assert k < |f.bricks|;
      TouchingBallIsHigh(f.ball, f.bricks[k].rect);
      assert !Lost(s.ball);
    }
  }

  /**
   * The second half of a tick from a world in play: lives drop by one exactly on a
   * loss, a screen ends the round, the game-over screen exactly when the last life
   * goes, the level screens exactly when the board is empty; at most one screen.
   */
  lemma SettleFacts(s: World, draw: real, trig: Trig)
    requires Shaped(s) && s.playing && s.lives >= 1 && !(Lost(s.ball) && s.bricks == [])
    ensures var o := Settle(s, draw, trig);
      && Sound(o.world)
      && |o.shown| <= 1
      && (Lost(s.ball) ==> o.world.lives == s.lives - 1)
      && (!Lost(s.ball) ==> o.world.lives == s.lives)
      && (o.shown == [GameOver] <==> Lost(s.ball) && s.lives == 1)
      && (o.shown == [GameOver] ==> o.world.level == 1 && o.world.lives == 0)
      && (o.world.playing <==> o.shown == [])
      && (o.world.bricks == [] <==> o.shown == [LevelUp(s.level + 1)] || o.shown == [YouWin])
      && (o.shown == [LevelUp(s.level + 1)] ==> s.level < MAX_LEVEL && o.world.level == s.level + 1)
      && (o.shown == [YouWin] ==> s.level == MAX_LEVEL && o.world.level == 1)
      && (o.shown == [] ==> o.world.level == s.level)
      && o.world.bricks == s.bricks && o.world.score == s.score && o.world.popups == Aged(s.popups)
  {
    var lose := LoseBall(s, draw, trig);
    var clear := ClearBoard(lose.world);
    if Lost(s.ball) {
      assert clear.shown == [];
      assert lose.shown + clear.shown == lose.shown;
    } else {
      assert lose.shown == [];
      assert lose.shown + clear.shown == clear.shown;
    }
  }

  /** Every tick played from a sound world leaves a sound world. */
  lemma {:induction false} StepKeepsSound(w: World, sample: Option<Point>, draw: real, trig: Trig)
    requires Sound(w) && w.playing
    ensures Sound(Step(w, sample, draw, trig).world)
  {
    StruckFacts(w, sample, trig);
    SettleFacts(Struck(w, sample, trig), draw, trig);
  }

  /** A tick never both loses the last ball and clears the board: it shows at most one screen. */
  lemma {:induction false} StepShowsAtMostOne(w: World, sample: Option<Point>, draw: real, trig: Trig)
    requires Sound(w) && w.playing
    ensures |Step(w, sample, draw, trig).shown| <= 1
  {
    StruckFacts(w, sample, trig);
    SettleFacts(Struck(w, sample, trig), draw, trig);
  }

  /**
   * Lives over one tick: one less exactly on a ball loss, the game-over screen and
   * level 1 exactly when the last life goes, and the round goes on exactly when no
   * screen is shown.
   */
  lemma {:induction false} StepLives(w: World, sample: Option<Point>, draw: real, trig: Trig)
    requires Sound(w) && w.playing
    ensures var o := Step(w, sample, draw, trig);
      && (Lost(Struck(w, sample, trig).ball) ==> o.world.lives == w.lives - 1)
      && (!Lost(Struck(w, sample, trig).ball) ==> o.world.lives == w.lives)
      && (o.shown == [GameOver] <==> Lost(Struck(w, sample, trig).ball) && w.lives == 1)
      && (o.shown == [GameOver] ==> o.world.level == 1 && o.world.lives == 0)
      && (o.world.playing <==> o.shown == [])
  {
    StruckFacts(w, sample, trig);
    SettleFacts(Struck(w, sample, trig), draw, trig);
  }

  /**
   * Levels over one tick: an emptied board announces the next level, or after the
   * last one the win screen and level 1; otherwise the level stays unless the game is over.
   */
  lemma {:induction false} StepLevels(w: World, sample: Option<Point>, draw: real, trig: Trig)
    requires Sound(w) && w.playing
    ensures var o := Step(w, sample, draw, trig);
      && (o.world.bricks == [] <==> o.shown == [LevelUp(w.level + 1)] || o.shown == [YouWin])
      && (o.shown == [LevelUp(w.level + 1)] ==> w.level < MAX_LEVEL && o.world.level == w.level + 1)
      && (o.shown == [YouWin] ==> w.level == MAX_LEVEL && o.world.level == 1)
      && (o.shown == [] ==> o.world.level == w.level)
  {
    StruckFacts(w, sample, trig);
    SettleFacts(Struck(w, sample, trig), draw, trig);
  }

  /**
   * Score, bricks and texts over one tick: ten points exactly when one brick goes,
   * and the texts are the old ones plus at most the new "+10", all updated once.
   */
  lemma {:induction false} StepScore(w: World, sample: Option<Point>, draw: real, trig: Trig)
    ensures var o := Step(w, sample, draw, trig);
      && (o.world.score == w.score + REWARD <==> |o.world.bricks| == |w.bricks| - 1)
      && (o.world.score == w.score <==> o.world.bricks == w.bricks)
      && (o.world.score == w.score ==> o.world.popups == Aged(w.popups))
      && (o.world.score == w.score + REWARD ==>
            exists p :: o.world.popups == Aged(w.popups) + Aged([p]) && p.life == TEXT_LIFE)
  {
    var f := Fly(Steer(w, sample), trig);
    var s := Smash(f);
    if s.score != w.score {
      var k := FirstHit(f.ball, f.bricks);
      var p := RewardText(f.bricks[k]);
      AgedAppend(w.popups, [p]);
      assert Step(w, sample, draw, trig).world.popups == Aged(w.popups) + Aged([p]);
    }
  }
}
