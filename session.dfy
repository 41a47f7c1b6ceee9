/**
 * The game objects the main loop updates in place, and the round and tick logic of
 * the loop as methods of a session object, each proved against the Rules functions.
 */
module Session {
  import opened Config
  import opened Geometry
  import opened Bricks
  import opened Physics
  import opened Texts
  import opened Rules

  /** The player's paddle; its position follows the tracker. */
  class Paddle {
    const w: int := PADDLE_W
    const h: int := PADDLE_H
    var x: real
    var y: real

    /** Centred horizontally, 80 pixels above the bottom edge. */
    constructor ()
      ensures x == 250.0 && y == 400.0
    {
      x := (SCREEN_W / 2 - w / 2) as real;
      y := (SCREEN_H - 80) as real;
    }

    function Spot(): Point
      reads this
    {
      Point(x, y)
    }

    /** Paddle.rect: the integer rectangle the collision test uses. */
    function Rect(): (r: Geometry.Rect)
      reads this
      ensures r.w == w && r.h == h
      ensures 0.0 <= x ==> r.left as real <= x < r.left as real + 1.0
      ensures 0.0 <= y ==> r.top as real <= y < r.top as real + 1.0
    {
      PaddleRect(Spot())
    }

    /** Paddle.move: go to the target, clamped into the paddle's band. */
    method Move(tx: real, ty: real)
      modifies this
      ensures Spot() == PaddleSpot(Point(tx, ty))
      ensures 0.0 <= x <= 500.0 && 180.0 <= y <= 452.0
    {
      x := Clamp(tx, 0.0, (SCREEN_W - w) as real);
      y := Clamp(ty, (BRICK_TOP + 120) as real, (SCREEN_H - h - 10) as real);
    }
  }

  /** The ball, with the level whose speed it is launched at. */
  class Ball {
    const level: int
    var x: real
    var y: real
    var vx: real
    var vy: real

    function State(): BallState
      reads this
    {
      BallState(x, y, vx, vy)
    }

    constructor (level: int, draw: real, trig: Trig)
      ensures this.level == level
      ensures State() == Launch(level, draw, trig)
    {
      this.level := level;
      new;
      Reset(draw, trig);
    }

    /** Ball.reset: relaunch from the centre at the random angle `draw`. */
    method Reset(draw: real, trig: Trig)
      modifies this
      ensures State() == Launch(level, draw, trig)
      ensures vy <= 0.0
    {
      x, y := (SCREEN_W / 2) as real, (SCREEN_H / 2) as real;
      var speed := (5 + level) as real;
      var angle := draw;
      vx := trig.Sin(angle) * speed;
      vy := -Abs(trig.Cos(angle) * speed);
    }

    /** The wall block of the game loop: side walls reflect vx, the top wall sends the ball down. */
    method HitWalls()
      modifies this
      ensures State() == Walls(old(State()))
    {
      if x - R <= 0.0 || x + R >= SCREEN_W as real {
        vx := -vx;
      }
      if y - R <= 0.0 {
        vy := Abs(vy);
      }
    }

    /**
     * The paddle block of the game loop: a ball on the paddle `pad` and moving down
     * leaves at `speed`, at angle offset * radians(60) from vertical, from just above it.
     */
    method HitPaddle(pad: Geometry.Rect, speed: real, trig: Trig)
      modifies this
      ensures State() == PaddleBounce(old(State()), pad, speed, trig)
    {
      if OnPaddle(State(), pad) {
        var angle := DeflectAngle(State(), pad, trig);
        vx := speed * trig.Sin(angle);
        vy := -speed * trig.Cos(angle);
        y := pad.top as real - R - 1.0;
      }
    }

    /** Ball.update: one Euler step; the velocity is unchanged. */
    method Update()
      modifies this
      ensures State() == Advance(old(State()))
      ensures vx == old(vx) && vy == old(vy)
    {
      x := x + vx;
      y := y + vy;
    }
  }

  /** A "+10" rising from a destroyed brick for thirty frames. */
  class FloatingText {
    const x: int
    var y: int
    const text: string
    var life: int

    constructor (x: int, y: int, text: string)
      ensures View() == Popup(x, y, text, TEXT_LIFE)
    {
      this.x, this.y, this.text := x, y, text;
      life := TEXT_LIFE;
    }

    function View(): Popup
      reads this
    {
      Popup(x, y, text, life)
    }

    /** FloatingText.update: one pixel up and one frame of life less. */
    method Update()
      modifies this
      ensures View() == Decay(old(View()))
    {
      y := y - 1;
      life := life - 1;
    }
  }

  /** The values of a list of floating texts, in list order. */
  ghost function Popups(ts: seq<FloatingText>): (ps: seq<Popup>)
    reads ts
    ensures |ps| == |ts|
  {
    if ts == [] then [] else Popups(ts[..|ts| - 1]) + [ts[|ts| - 1].View()]
  }

  /** Element j of the values is the value of element j. */
  lemma {:induction false} PopupsAt(ts: seq<FloatingText>, j: int)
    requires 0 <= j < |ts|
    ensures Popups(ts)[j] == ts[j].View()
  {
    if j < |ts| - 1 {
      PopupsAt(ts[..|ts| - 1], j);
    }
  }

  /** No object occurs twice in the list. */
  ghost predicate Distinct(ts: seq<FloatingText>)
  {
    forall i, j :: 0 <= i < |ts| && 0 <= j < |ts| && i != j ==> Apart(ts, i, j)
  }

  /** Entries i and j of the list are different objects. */
  ghost predicate Apart(ts: seq<FloatingText>, i: int, j: int)
    requires 0 <= i < |ts| && 0 <= j < |ts|
  {
    ts[i] != ts[j]
  }

  /** A list stays free of repeats when an object not in it is appended. */
  lemma DistinctSnoc(ts: seq<FloatingText>, t: FloatingText)
    requires Distinct(ts) && t !in ts
    ensures Distinct(ts + [t])
  {
    var us := ts + [t];
    forall i, j | 0 <= i < |us| && 0 <= j < |us| && i != j
      ensures Apart(us, i, j)
    {
      if i < |ts| && j < |ts| {
        assert Apart(ts, i, j);
      }
    }
  }

  /**
   * The text pass has handled the first i entries of the snapshot `snap`, whose
   * values were `before`: the list is the survivors `kept` followed by the
   * untouched rest of the snapshot, and the survivors hold the aged values.
   */
  ghost predicate Swept(snap: seq<FloatingText>, before: seq<Popup>, i: int,
                        kept: seq<FloatingText>, texts: seq<FloatingText>)
    reads snap, kept
  {
    0 <= i <= |snap| == |before| &&
    texts == kept + snap[i..] &&
    Distinct(kept) &&
    (forall a :: 0 <= a < |kept| ==> kept[a] in snap[..i] && kept[a] !in snap[i..]) &&
    Popups(kept) == Aged(before[..i]) &&
    (forall j :: i <= j < |snap| ==> snap[j].View() == before[j])
  }

  /** One turn of the text pass: update entry i and remove it from the list if its life ran out. */
  method SweepOne(snap: seq<FloatingText>, ghost before: seq<Popup>, i: int, k: int,
                  ghost kept: seq<FloatingText>, texts: seq<FloatingText>)
    returns (k': int, texts': seq<FloatingText>, ghost kept': seq<FloatingText>)
    requires Distinct(snap) && 0 <= i < |snap|
    requires Swept(snap, before, i, kept, texts) && k == |kept|
    modifies snap[i]
    ensures Swept(snap, before, i + 1, kept', texts') && k' == |kept'|
  {
    var t := snap[i];
    assert snap[i..] == [t] + snap[i + 1..];
    assert snap[..i + 1] == snap[..i] + [t];
    forall j | i < j < |snap|
      ensures snap[j] != t
    {
      assert Apart(snap, i, j);
    }
    ghost var pk := Popups(kept);
    t.Update();
    assert Popups(kept) == pk;
    assert before[..i + 1] == before[..i] + [before[i]];
    AgedSnoc(before[..i], before[i]);
    if t.life <= 0 {
      assert texts[..k] == kept && texts[k + 1..] == snap[i + 1..];
      texts' := texts[..k] + texts[k + 1..];
      kept', k' := kept, k;
      assert Survivor(before[i]) == [];
    } else {
      assert (kept + [t])[..k] == kept;
      assert Survivor(before[i]) == [t.View()];
      assert t !in snap[i + 1..];
      DistinctSnoc(kept, t);
      texts' := texts;
      kept', k' := kept + [t], k + 1;
    }
  }

  /**
   * The text pass at the end of a frame: update every text of the snapshot `snap`
   * of the list, and return the list without those whose life ran out.
   */
  method Sweep(snap: seq<FloatingText>) returns (texts: seq<FloatingText>)
    requires Distinct(snap)
    modifies snap
    ensures Popups(texts) == Aged(old(Popups(snap)))
    ensures Distinct(texts)
    ensures forall t :: t in texts ==> t in snap
  {
    texts := snap;
    ghost var before := Popups(snap);
    forall j | 0 <= j < |snap|
      ensures snap[j].View() == before[j]
    {
      PopupsAt(snap, j);
    }
    ghost var kept: seq<FloatingText> := [];
    var i, k := 0, 0;
    while i < |snap|
      invariant 0 <= i <= |snap|
      invariant Swept(snap, before, i, kept, texts) && k == |kept|
    {
      k, texts, kept := SweepOne(snap, before, i, k, kept, texts);
      i := i + 1;
    }
    SweptAll(snap, before, kept, texts);
  }

  /** Once the whole snapshot is handled, the list is exactly the survivors. */
  lemma SweptAll(snap: seq<FloatingText>, before: seq<Popup>, kept: seq<FloatingText>, texts: seq<FloatingText>)
    requires Swept(snap, before, |snap|, kept, texts)
    ensures texts == kept && Popups(texts) == Aged(before) && Distinct(texts)
    ensures forall t :: t in texts ==> t in snap
  {
    assert before[..|snap|] == before && snap[..|snap|] == snap;
  }

  /**
   * The state of the game loop: the objects of the current round and the
   * counters. While `playing` is false the loop is paused at a message screen
   * and no tick runs; NewRound resumes it.
   */
  class GameSession {
    var paddle: Paddle
    var ball: Ball
    var bricks: seq<Brick>
    var texts: seq<FloatingText>
    var lives: int
    var score: int
    var level: int
    var playing: bool

    /** The session as a World value. */
    ghost function View(): World
      reads this, paddle, ball, texts
    {
      World(paddle.Spot(), ball.State(), bricks, Popups(texts), lives, score, level, playing)
    }

    ghost predicate Valid()
      reads this, paddle, ball, texts
    {
      Sound(View()) && Distinct(texts) && (playing ==> ball.level == level)
    }

    /** Start at level 1 and set up the first round. */
    constructor (draw: real, trig: Trig)
      ensures Valid() && playing
      ensures level == 1 && lives == LIVES && score == 0 && texts == [] && bricks == Layout(1)
      ensures paddle.Spot() == Point(250.0, 400.0) && ball.State() == Launch(1, draw, trig)
    {
      paddle := new Paddle();
      ball := new Ball(1, draw, trig);
      bricks, texts := [], [];
      lives, score, level, playing := 0, 0, 1, false;
      new;
      NewRound(draw, trig);
    }

    /**
     * The start of a round: a fresh paddle, a ball launched at the level's speed,
     * the level's grid, no texts, three lives and no score.
     */
    method NewRound(draw: real, trig: Trig)
      requires 1 <= level <= MAX_LEVEL
      modifies this
      ensures Valid() && playing
      ensures level == old(level) && lives == LIVES && score == 0 && texts == []
      ensures bricks == Layout(level)
      ensures fresh(paddle) && fresh(ball)
      ensures paddle.Spot() == Point(250.0, 400.0) && ball.State() == Launch(level, draw, trig)
    {
      paddle := new Paddle();
      ball := new Ball(level, draw, trig);
      bricks := BuildBricks(level);
      texts := [];
      lives := LIVES;
      score := 0;
      playing := true;
      LayoutIsSound(level);
    }

    /** The text pass at the end of a frame, over the session's list. */
    method UpdateTexts()
      requires Distinct(texts)
      modifies this`texts, texts
      ensures Popups(texts) == Aged(old(Popups(texts)))
      ensures Distinct(texts)
      ensures forall t :: t in texts ==> t in old(texts)
    {
      texts := Sweep(texts);
    }

    /** The tracker phase: with a sample the paddle goes to the spot it aims at. */
    method SteerPaddle(sample: Option<Point>)
      modifies paddle
      ensures View() == Steer(old(View()), sample)
    {
      if sample.Some? {
        var target := Aim(sample.value);
        paddle.Move(target.x, target.y);
      }
    }

    /** The flight phase: the ball steps, then bounces off the walls and the paddle. */
    method FlyBall(trig: Trig)
      modifies ball
      ensures View() == Fly(old(View()), trig)
    {
      ball.Update();
      var speed := trig.Hypot(ball.vx, ball.vy);
      ball.HitWalls();
      ball.HitPaddle(paddle.Rect(), speed, trig);
    }

    /**
     * The brick phase: the first brick the ball touches bounces it, is removed,
     * scores and leaves a fresh floating text.
     */
    method HitBricks()
      requires Distinct(texts)
      modifies this`bricks, this`score, this`texts, ball
      ensures View() == Smash(old(View()))
      ensures Distinct(texts)
      ensures forall i :: 0 <= i < |texts| ==> texts[i] in old(texts) || fresh(texts[i])
    {
      var k := FindHit(ball.State(), bricks);
      if k < |bricks| {
        var b := bricks[k];
        var cx := Clamp(ball.x, b.rect.left as real, b.rect.Right() as real);
        var cy := Clamp(ball.y, b.rect.top as real, b.rect.Bottom() as real);
        if Abs(ball.x - cx) > Abs(ball.y - cy) {
          ball.vx := -ball.vx;
        } else {
          ball.vy := -ball.vy;
        }
        bricks := RemoveAt(bricks, k);
        score := score + REWARD;
        var t := new FloatingText(b.rect.CenterX(), b.rect.CenterY(), REWARD_LABEL);
        assert (texts + [t])[..|texts|] == texts;
        DistinctSnoc(texts, t);
        texts := texts + [t];
      }
    }

    /** The ball-loss phase; a shown game-over screen ends the round. */
    method CheckLoss(draw: real, trig: Trig) returns (shown: seq<Message>)
      requires ball.level == level
      modifies this`lives, this`playing, this`level, ball
      ensures Outcome(View(), shown) == LoseBall(old(View()), draw, trig)
    {
      shown := [];
      if ball.y - R > SCREEN_H as real {
        lives := lives - 1;
        ball.Reset(draw, trig);
        if lives <= 0 {
          playing := false;
          level := 1;
          shown := [GameOver];
        }
      }
    }

    /** The board-clear phase; a shown level or win screen ends the round. */
    method CheckClear() returns (shown: seq<Message>)
      modifies this`playing, this`level
      ensures Outcome(View(), shown) == ClearBoard(old(View()))
    {
      shown := [];
      if bricks == [] {
        playing := false;
        level := level + 1;
        if level > MAX_LEVEL {
          shown := [YouWin];
          level := 1;
        } else {
          shown := [LevelUp(level)];
        }
      }
    }

    /** The first half of a frame: tracker, ball flight and the brick phase. */
    method Strike(sample: Option<Point>, trig: Trig)
      requires Distinct(texts)
      modifies this`bricks, this`score, this`texts, paddle, ball
      ensures View() == Struck(old(View()), sample, trig)
      ensures Distinct(texts)
      ensures forall i :: 0 <= i < |texts| ==> texts[i] in old(texts) || fresh(texts[i])
    {
      SteerPaddle(sample);
      FlyBall(trig);
      HitBricks();
    }

    /** The second half of a frame: ball loss, board clear and the text pass. */
    method Resolve(draw: real, trig: Trig) returns (shown: seq<Message>)
      requires Distinct(texts) && ball.level == level
      modifies this`lives, this`playing, this`level, this`texts, ball, texts
      ensures Outcome(View(), shown) == Settle(old(View()), draw, trig)
      ensures Distinct(texts)
    {
      var lost := CheckLoss(draw, trig);
      var cleared := CheckClear();
      shown := lost + cleared;
      UpdateTexts();
    }

    /**
     * One frame of the game loop while a round is played: tracker, ball, walls,
     * paddle, bricks, ball loss, board clear and the text pass, in that order.
     * Returns the message screens the frame showed; a shown screen ends the round.
     */
    method Tick(sample: Option<Point>, draw: real, trig: Trig) returns (shown: seq<Message>)
      requires Valid() && playing
      modifies this, paddle, ball, texts
      ensures Valid()
      ensures paddle == old(paddle) && ball == old(ball)
      ensures Outcome(View(), shown) == Step(old(View()), sample, draw, trig)
    {
      ghost var w0 := View();
      Strike(sample, trig);
      shown := Resolve(draw, trig);
      StepKeepsSound(w0, sample, draw, trig);
    }
  }
}
