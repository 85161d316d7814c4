/**
  The two-player component: four key intents, one pair per paddle. The frame
  updater handed to `setState` is `Tick`; the component's state cell, with its
  Reset button, is `Game`.
*/
module App {
  import opened Pong

  /** The intents held at the start of a frame. */
  datatype Keys = Keys(bottomLeft: bool, bottomRight: bool, topLeft: bool, topRight: bool)

  /** Each paddle follows its own pair of intents. */
  function MovePaddles(p: Paddles, k: Keys): Paddles {
    Paddles(MovePaddle(p.top, k.topLeft, k.topRight), MovePaddle(p.bottom, k.bottomLeft, k.bottomRight))
  }

  /** The next world: paddles first, then the ball step on the moved paddles. */
  function Next(w: World, k: Keys, coinX: bool, coinY: bool): World {
    Advance(w.ball, MovePaddles(w.paddles, k), w.scores, coinX, coinY)
  }

  /**
    One frame, updating copies of the previous state step by step. The two
    coins stand for the `Math.random()` draws of the `initialState()` that a
    point calls.
  */
  method Tick(prev: World, keys: Keys, coinX: bool, coinY: bool) returns (next: World)
    ensures next == Next(prev, keys, coinX, coinY)
  {
    var x, y, vx, vy := prev.ball.x, prev.ball.y, prev.ball.vx, prev.ball.vy;
    var paddles, scores := prev.paddles, prev.scores;

    // Paddle movement: each paddle follows its own pair of intents
    var bottom := StepPaddle(paddles.bottom, keys.bottomLeft, keys.bottomRight);
    var top := StepPaddle(paddles.top, keys.topLeft, keys.topRight);
    paddles := Paddles(top, bottom);
    assert paddles == MovePaddles(prev.paddles, keys);

    // Ball movement
    x := x + vx;
    y := y + vy;

    // Side walls
    if x < 0 || x > BoardWidth - BallSize {
      vx := -vx;
    }
    assert Ball(x, y, vx, vy) == Flight(prev.ball);

    // Top paddle
    if y < PaddleHeight + 8 && x + BallSize > paddles.top && x < paddles.top + PaddleWidth && vy < 0 {
      vy := -vy;
      y := PaddleHeight + 10;
    }

    // Bottom paddle
    if y + BallSize > BoardHeight - PaddleHeight - 8 && x + BallSize > paddles.bottom &&
       x < paddles.bottom + PaddleWidth && vy > 0 {
      vy := -vy;
      y := BoardHeight - PaddleHeight - BallSize - 10;
    }
    assert Ball(x, y, vx, vy) == Landed(prev.ball, paddles);

    // Top edge passed: a point for the bottom side
    if y < 0 {
      scores := scores.(bottom := scores.bottom + 1);
      return InitialState(coinX, coinY).(scores := scores);
    }
    // Bottom edge passed: a point for the top side
    if y + BallSize > BoardHeight {
      scores := scores.(top := scores.top + 1);
      return InitialState(coinX, coinY).(scores := scores);
    }

    return World(Ball(x, y, vx, vy), paddles, scores);
  }

  /**
    Paddle step: each paddle depends only on its own two intents, lands on the
    board, and with both intents held the right move comes last.
  */
  lemma PaddleStepRules(p: Paddles, k: Keys, k': Keys)
    requires OnBoard(p.top) && OnBoard(p.bottom)
    ensures OnBoard(MovePaddles(p, k).top) && OnBoard(MovePaddles(p, k).bottom)
    ensures k.topLeft == k'.topLeft && k.topRight == k'.topRight ==>
      MovePaddles(p, k).top == MovePaddles(p, k').top
    ensures k.bottomLeft == k'.bottomLeft && k.bottomRight == k'.bottomRight ==>
      MovePaddles(p, k).bottom == MovePaddles(p, k').bottom
    ensures k.topLeft && k.topRight ==>
      MovePaddles(p, k).top == Clamp(Clamp(p.top - PaddleSpeed, 0, PaddleMax) + PaddleSpeed, 0, PaddleMax) &&
      MovePaddles(p, k).top == Max(p.top, PaddleSpeed)
    ensures k.bottomLeft && k.bottomRight ==>
      MovePaddles(p, k).bottom == Clamp(Clamp(p.bottom - PaddleSpeed, 0, PaddleMax) + PaddleSpeed, 0, PaddleMax) &&
      MovePaddles(p, k).bottom == Max(p.bottom, PaddleSpeed)
  {
    MovePaddleRules(p.top, k.topLeft, k.topRight);
    MovePaddleRules(p.bottom, k.bottomLeft, k.bottomRight);
  }

  /**
    Paddles that start on the board are on the board after the frame, for any
    keys and on the new-round path alike.
  */
  lemma NextKeepsPaddlesOnBoard(w: World, k: Keys, coinX: bool, coinY: bool)
    requires OnBoard(w.paddles.top) && OnBoard(w.paddles.bottom)
    ensures OnBoard(Next(w, k, coinX, coinY).paddles.top)
    ensures OnBoard(Next(w, k, coinX, coinY).paddles.bottom)
  {
    PaddleStepRules(w.paddles, k, k);
  }

  lemma NextKeepsValid(w: World, k: Keys, coinX: bool, coinY: bool)
    requires Valid(w)
    ensures Valid(Next(w, k, coinX, coinY))
  {
    NextKeepsPaddlesOnBoard(w, k, coinX, coinY);
    AdvanceKeepsInPlay(w.ball, MovePaddles(w.paddles, k), w.scores, coinX, coinY);
    ScoresMonotone(w.ball, MovePaddles(w.paddles, k), w.scores, coinX, coinY);
  }

  // ---------------------------------------------------------------------------
  // Many frames
  // ---------------------------------------------------------------------------

  /** What one animation frame feeds the updater: the key snapshot and the two coins. */
  datatype Frame = Frame(keys: Keys, coinX: bool, coinY: bool)

  /** The world after the updater has run once per frame, in order. */
  function Run(w: World, frames: seq<Frame>): World
    decreases |frames|
  {
    if frames == [] then w
    else Run(Next(w, frames[0].keys, frames[0].coinX, frames[0].coinY), frames[1..])
  }

  /** The invariant holds however many frames are played and whatever keys are held. */
  lemma {:induction false} RunKeepsValid(w: World, frames: seq<Frame>)
    requires Valid(w)
    ensures Valid(Run(w, frames))
    decreases |frames|
  {
    if frames != [] {
      NextKeepsValid(w, frames[0].keys, frames[0].coinX, frames[0].coinY);
      RunKeepsValid(Next(w, frames[0].keys, frames[0].coinX, frames[0].coinY), frames[1..]);
    }
  }

  /** Over a run, scores never go down and at most one point is won per frame. */
  lemma {:induction false} RunScoresMonotone(w: World, frames: seq<Frame>)
    ensures var r := Run(w, frames);
      w.scores.top <= r.scores.top && w.scores.bottom <= r.scores.bottom &&
      r.scores.top + r.scores.bottom <= w.scores.top + w.scores.bottom + |frames|
    decreases |frames|
  {
    if frames != [] {
      var f := frames[0];
      ScoresMonotone(w.ball, MovePaddles(w.paddles, f.keys), w.scores, f.coinX, f.coinY);
      RunScoresMonotone(Next(w, f.keys, f.coinX, f.coinY), frames[1..]);
    }
  }

  // ---------------------------------------------------------------------------
  // The component's state cell
  // ---------------------------------------------------------------------------

  /** The `useState` cell of the component, with the Reset button's handler. */
  class Game {
    var state: World

    /** `useState(initialState())` */
    constructor (coinX: bool, coinY: bool)
      ensures state == InitialState(coinX, coinY)
      ensures Valid(state)
    {
      state := InitialState(coinX, coinY);
    }

    /** The Reset button: a fresh match, whatever was played before. */
    method HandleReset(coinX: bool, coinY: bool)
      modifies this
      ensures state == InitialState(coinX, coinY)
      ensures Valid(state) && Centred(state) && state.scores == Scores(0, 0)
    {
      state := InitialState(coinX, coinY);
    }

    /** One animation frame: `setState` with the frame updater. */
    method Step(keys: Keys, coinX: bool, coinY: bool)
      modifies this
      ensures state == Next(old(state), keys, coinX, coinY)
      ensures old(Valid(state)) ==> Valid(state)
    {
      if Valid(state) {
        NextKeepsValid(state, keys, coinX, coinY);
      }
      state := Tick(state, keys, coinX, coinY);
    }
  }
}
