/**
  The single-player board: two key intents drive the bottom paddle only, and
  the top paddle never moves during a rally. The frame updater handed to
  `setState` is `Tick`.
*/
module PongBoard {
  import opened Pong

  /** The intents held at the start of a frame. */
  datatype Keys = Keys(left: bool, right: bool)

  /** The paddle step: only the bottom paddle follows the keys. */
  function MovePaddles(p: Paddles, k: Keys): Paddles {
    p.(bottom := MovePaddle(p.bottom, k.left, k.right))
  }

  /** The next world: the bottom paddle first, then the ball step. */
  function Next(w: World, k: Keys, coinX: bool, coinY: bool): World {
    Advance(w.ball, MovePaddles(w.paddles, k), w.scores, coinX, coinY)
  }

  /**
    One frame, updating copies of the previous state step by step. The two
    coins stand for the `Math.random()` draws of the `initialState()` that a
    point calls.
  */
  method Tick(prev: World, keys: Keys, coinX: bool, coinY: bool) returns (next: World)
    ensures next == Next(prev, keys, coinX, coinY)
  {
    var x, y, vx, vy := prev.ball.x, prev.ball.y, prev.ball.vx, prev.ball.vy;
    var paddles, scores := prev.paddles, prev.scores;

    // Paddle movement: the bottom paddle only
    var bottom := StepPaddle(paddles.bottom, keys.left, keys.right);
    paddles := paddles.(bottom := bottom);
    assert paddles == MovePaddles(prev.paddles, keys);

    // Ball movement
    x := x + vx;
    y := y + vy;

    // Side walls
    if x < 0 || x > BoardWidth - BallSize {
      vx := -vx;
    }
    assert Ball(x, y, vx, vy) == Flight(prev.ball);

    // Top paddle
    if y < PaddleHeight + 8 && x + BallSize > paddles.top && x < paddles.top + PaddleWidth && vy < 0 {
      vy := -vy;
      y := PaddleHeight + 10;
    }

    // Bottom paddle
    if y + BallSize > BoardHeight - PaddleHeight - 8 && x + BallSize > paddles.bottom &&
       x < paddles.bottom + PaddleWidth && vy > 0 {
      vy := -vy;
      y := BoardHeight - PaddleHeight - BallSize - 10;
    }
    assert Ball(x, y, vx, vy) == Landed(prev.ball, paddles);

    // Top edge passed: a point for the bottom side
    if y < 0 {
      scores := scores.(bottom := scores.bottom + 1);
      return InitialState(coinX, coinY).(scores := scores);
    }
    // Bottom edge passed: a point for the top side
    if y + BallSize > BoardHeight {
      scores := scores.(top := scores.top + 1);
      return InitialState(coinX, coinY).(scores := scores);
    }

    return World(Ball(x, y, vx, vy), paddles, scores);
  }

  /** The start offset of both paddles. */
  const Centre: int := BoardWidth / 2 - PaddleWidth / 2

  /**
    The top paddle ignores the keys: a frame that scores nothing leaves it
    where it was, and a point puts it back at the centre.
  */
  lemma TopPaddleIgnoresKeys(w: World, k: Keys, coinX: bool, coinY: bool)
    ensures var r := Next(w, k, coinX, coinY);
      r.scores == w.scores ==> r.paddles.top == w.paddles.top
    ensures var r := Next(w, k, coinX, coinY);
      r.scores != w.scores ==> r.paddles.top == Centre
    ensures w.paddles.top == Centre ==> Next(w, k, coinX, coinY).paddles.top == Centre
  {
    ScoringRule(w.ball, MovePaddles(w.paddles, k), w.scores, coinX, coinY);
  }

  /**
    The bottom paddle stays on the board, and with both intents held the right
    move is applied after the left one.
  */
  lemma BottomPaddleStep(w: World, k: Keys, coinX: bool, coinY: bool)
    requires OnBoard(w.paddles.bottom)
    ensures OnBoard(Next(w, k, coinX, coinY).paddles.bottom)
    ensures k.left && k.right ==>
      MovePaddles(w.paddles, k).bottom ==
        Clamp(Clamp(w.paddles.bottom - PaddleSpeed, 0, PaddleMax) + PaddleSpeed, 0, PaddleMax)
    ensures k.left && k.right ==> MovePaddles(w.paddles, k).bottom == Max(w.paddles.bottom, PaddleSpeed)
  {
    MovePaddleRules(w.paddles.bottom, k.left, k.right);
  }

  /** What the board keeps from frame to frame: the world invariant and a centred top paddle. */
  predicate Invariant(w: World) {
    Valid(w) && w.paddles.top == Centre
  }

  lemma NextKeepsInvariant(w: World, k: Keys, coinX: bool, coinY: bool)
    requires Invariant(w)
    ensures Invariant(Next(w, k, coinX, coinY))
  {
    var p := MovePaddles(w.paddles, k);
    MovePaddleRules(w.paddles.bottom, k.left, k.right);
    AdvanceKeepsInPlay(w.ball, p, w.scores, coinX, coinY);
    ScoresMonotone(w.ball, p, w.scores, coinX, coinY);
    TopPaddleIgnoresKeys(w, k, coinX, coinY);
  }

  /**
    The rules of the ball step as this board plays them: speeds kept, side
    walls, paddle hits that never score, and the points.
  */
  lemma BallRules(w: World, k: Keys, coinX: bool, coinY: bool)
    requires Invariant(w)
    ensures var r, x, y := Next(w, k, coinX, coinY), w.ball.x + w.ball.vx, w.ball.y + w.ball.vy;
      r.scores == w.scores ==>
        r.ball.x == x &&
        (r.ball.vx == -w.ball.vx <==> x < 0 || x > WallMax)
    ensures var r, x, y := Next(w, k, coinX, coinY), w.ball.x + w.ball.vx, w.ball.y + w.ball.vy;
      y < TopBand && Overlaps(x, w.paddles.top) && w.ball.vy < 0 ==>
        r.scores == w.scores && r.ball.vy > 0 && r.ball.y == TopRest
    ensures var r := Next(w, k, coinX, coinY);
      Abs(r.ball.vx) == BallSpeed && Abs(r.ball.vy) == BallSpeed
    ensures var r, l := Next(w, k, coinX, coinY), Landed(w.ball, MovePaddles(w.paddles, k));
      (l.y < 0 ==> r.scores == Scores(w.scores.top, w.scores.bottom + 1) && Centred(r)) &&
      (0 <= l.y && l.y + BallSize > BoardHeight ==> r.scores == Scores(w.scores.top + 1, w.scores.bottom) && Centred(r)) &&
      (0 <= l.y <= FloorMax ==> r.scores == w.scores)
  {
    var p := MovePaddles(w.paddles, k);
    AdvanceKeepsSpeed(w.ball, p, w.scores, coinX, coinY);
    WallRule(w.ball, p, w.scores, coinX, coinY);
    if w.ball.y + w.ball.vy < TopBand && Overlaps(w.ball.x + w.ball.vx, w.paddles.top) && w.ball.vy < 0 {
      TopHitRule(w.ball, p, w.scores, coinX, coinY);
    }
    ScoringRule(w.ball, p, w.scores, coinX, coinY);
  }

  /**
    A bottom-paddle hit: a ball moving down whose lower edge enters the band
    over the moved bottom paddle bounces up from just above it, and no point
    is scored.
  */
  lemma BottomHit(w: World, k: Keys, coinX: bool, coinY: bool)
    requires w.ball.vy > 0
    requires w.ball.y + w.ball.vy + BallSize > BottomBand
    requires Overlaps(w.ball.x + w.ball.vx, MovePaddle(w.paddles.bottom, k.left, k.right))
    ensures var r := Next(w, k, coinX, coinY);
      r.scores == w.scores && r.ball.vy == -w.ball.vy &&
      r.ball.y == BottomRest
  {
    BottomHitRule(w.ball, MovePaddles(w.paddles, k), w.scores, coinX, coinY);
  }

  /**
    A frame with no wall, paddle or scoring event moves the ball by its
    velocity, keeps the velocity and leaves the scores alone.
  */
  lemma QuietTick(w: World, k: Keys, coinX: bool, coinY: bool)
    requires 0 <= w.ball.x + w.ball.vx <= WallMax
    requires !(w.ball.y + w.ball.vy < TopBand && Overlaps(w.ball.x + w.ball.vx, w.paddles.top) && w.ball.vy < 0)
    requires !(w.ball.y + w.ball.vy + BallSize > BottomBand &&
               Overlaps(w.ball.x + w.ball.vx, MovePaddle(w.paddles.bottom, k.left, k.right)) && w.ball.vy > 0)
    requires 0 <= w.ball.y + w.ball.vy <= FloorMax
    ensures var r := Next(w, k, coinX, coinY);
      r.ball == Ball(w.ball.x + w.ball.vx, w.ball.y + w.ball.vy, w.ball.vx, w.ball.vy) &&
      r.scores == w.scores && r.paddles == MovePaddles(w.paddles, k)
  {
    QuietFrame(w.ball, MovePaddles(w.paddles, k), w.scores, coinX, coinY);
  }

  // ---------------------------------------------------------------------------
  // Many frames
  // ---------------------------------------------------------------------------

  /** What one animation frame feeds the updater: the key snapshot and the two coins. */
  datatype Frame = Frame(keys: Keys, coinX: bool, coinY: bool)

  /** The world after the updater has run once per frame, in order. */
  function Run(w: World, frames: seq<Frame>): World
    decreases |frames|
  {
    if frames == [] then w
    else Run(Next(w, frames[0].keys, frames[0].coinX, frames[0].coinY), frames[1..])
  }

  /**
    From the component's first state, however many frames are played: the top
    paddle stays at the centre, the bottom paddle on the board, and both
    speeds at `BallSpeed`.
  */
  lemma {:induction false} RunKeepsInvariant(w: World, frames: seq<Frame>)
    requires Invariant(w)
    ensures Invariant(Run(w, frames))
    decreases |frames|
  {
    if frames != [] {
      NextKeepsInvariant(w, frames[0].keys, frames[0].coinX, frames[0].coinY);
      RunKeepsInvariant(Next(w, frames[0].keys, frames[0].coinX, frames[0].coinY), frames[1..]);
    }
  }

  lemma InitialStateKeepsInvariant(coinX: bool, coinY: bool)
    ensures Invariant(InitialState(coinX, coinY))
  {
    InitialStateValid(coinX, coinY);
  }
}
