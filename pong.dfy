/**
  The board, the world record and the rules of one frame that both game
  components share: the constants, `clamp`, `initialState`, the paddle step of
  one paddle, and the ball step (flight, wall bounce, paddle rebound, scoring).

  Both components of the repository carry identical copies of the constants,
  of `clamp` and of `initialState`; they are modelled once here. The two
  components differ only in which keys drive which paddle, and that part
  lives in the modules App and PongBoard.
*/
module Pong {

  // ---------------------------------------------------------------------------
  // Board geometry and speeds (pixels, pixels per frame)
  // ---------------------------------------------------------------------------

  const BoardWidth: int := 400
  const BoardHeight: int := 600
  const PaddleWidth: int := 80
  const PaddleHeight: int := 12
  const BallSize: int := 12
  const PaddleSpeed: int := 6
  const BallSpeed: int := 4

  /** Right-most offset a paddle may take: the upper bound of every paddle clamp. */
  const PaddleMax: int := BoardWidth - PaddleWidth
  /** Right-most x of the ball before the side-wall test fires. */
  const WallMax: int := BoardWidth - BallSize
  /** Lowest y of the ball before it counts as past the bottom edge. */
  const FloorMax: int := BoardHeight - BallSize

  /** The ball is tested against the top paddle while its y is above this line. */
  const TopBand: int := PaddleHeight + 8
  /** Where the ball is put after rebounding off the top paddle. */
  const TopRest: int := PaddleHeight + 10
  /** The ball is tested against the bottom paddle once its lower edge is below this line. */
  const BottomBand: int := BoardHeight - PaddleHeight - 8
  /** Where the ball is put after rebounding off the bottom paddle. */
  const BottomRest: int := BoardHeight - PaddleHeight - BallSize - 10

  // ---------------------------------------------------------------------------
  // World state
  // ---------------------------------------------------------------------------

  /** Ball position (top-left corner) and velocity. */
  datatype Ball = Ball(x: int, y: int, vx: int, vy: int)

  /** Horizontal offsets of the two paddles. */
  datatype Paddles = Paddles(top: int, bottom: int)

  /** Points won by each side. */
  datatype Scores = Scores(top: int, bottom: int)

  /** Everything the component keeps between frames. */
  datatype World = World(ball: Ball, paddles: Paddles, scores: Scores)

  function Abs(n: int): nat {
    if n < 0 then -n else n
  }

  function Max(a: int, b: int): int {
    if a < b then b else a
  }

  function Min(a: int, b: int): int {
    if a < b then a else b
  }

  /** `Math.max(lo, Math.min(v, hi))`: when the bounds cross, `lo` wins. */
  function Clamp(v: int, lo: int, hi: int): (r: int)
    ensures lo <= hi ==> lo <= r <= hi
    ensures lo <= v <= hi ==> r == v
    ensures lo <= hi && v < lo ==> r == lo
    ensures lo <= hi && hi < v ==> r == hi
    ensures hi < lo ==> r == lo
  {
    Max(lo, Min(v, hi))
  }

  /** A paddle offset that keeps the whole paddle on the board. */
  predicate OnBoard(p: int) {
    0 <= p <= PaddleMax
  }

  // ---------------------------------------------------------------------------
  // initialState
  // ---------------------------------------------------------------------------

  /** The sign `Math.random()` picks for one axis; `true` stands for a draw above 0.5. */
  function Launch(coin: bool): int {
    BallSpeed * (if coin then 1 else -1)
  }

  /** Ball and both paddles centred on the board. */
  predicate Centred(w: World) {
    2 * w.ball.x + BallSize == BoardWidth &&
    2 * w.ball.y + BallSize == BoardHeight &&
    2 * w.paddles.top + PaddleWidth == BoardWidth &&
    2 * w.paddles.bottom + PaddleWidth == BoardWidth
  }

  /** A fresh match: centred ball and paddles, random diagonal launch, no points. */
  function InitialState(coinX: bool, coinY: bool): (r: World)
    ensures Centred(r)
    ensures r.scores == Scores(0, 0)
    ensures Abs(r.ball.vx) == BallSpeed && (r.ball.vx > 0 <==> coinX)
    ensures Abs(r.ball.vy) == BallSpeed && (r.ball.vy > 0 <==> coinY)
  {
    World(
      Ball(BoardWidth / 2 - BallSize / 2, BoardHeight / 2 - BallSize / 2, Launch(coinX), Launch(coinY)),
      Paddles(BoardWidth / 2 - PaddleWidth / 2, BoardWidth / 2 - PaddleWidth / 2),
      Scores(0, 0))
  }

  /** `{ ...initialState(), scores }`: a fresh round that carries the given scores. */
  function NewRound(s: Scores, coinX: bool, coinY: bool): World {
    InitialState(coinX, coinY).(scores := s)
  }

  // ---------------------------------------------------------------------------
  // The paddle step of one paddle
  // ---------------------------------------------------------------------------

  /** The left intent is applied first, the right intent second, each clamped. */
  function MovePaddle(p: int, left: bool, right: bool): int {
    var afterLeft := if left then Clamp(p - PaddleSpeed, 0, PaddleMax) else p;
    if right then Clamp(afterLeft + PaddleSpeed, 0, PaddleMax) else afterLeft
  }

  /**
    The two statements that move one paddle: the left intent, then the right
    intent, each clamped to the board.
  */
  method StepPaddle(p: int, left: bool, right: bool) returns (q: int)
    ensures q == MovePaddle(p, left, right)
  {
    q := p;
    if left {
      q := Clamp(q - PaddleSpeed, 0, BoardWidth - PaddleWidth);
    }
    if right {
      q := Clamp(q + PaddleSpeed, 0, BoardWidth - PaddleWidth);
    }
  }

  lemma MovePaddleRules(p: int, left: bool, right: bool)
    requires OnBoard(p)
    ensures OnBoard(MovePaddle(p, left, right))
    ensures !left && !right ==> MovePaddle(p, left, right) == p
    ensures left && !right ==> MovePaddle(p, left, right) == Max(p - PaddleSpeed, 0)
    ensures !left && right ==> MovePaddle(p, left, right) == Min(p + PaddleSpeed, PaddleMax)
    ensures left && right ==> MovePaddle(p, left, right) == Max(p, PaddleSpeed)
  {
  }

  /** Any held key leaves the paddle on the board, wherever it started. */
  lemma HeldKeyLandsOnBoard(p: int, left: bool, right: bool)
    requires left || right
    ensures OnBoard(MovePaddle(p, left, right))
  {
  }

  // ---------------------------------------------------------------------------
  // The ball step
  // ---------------------------------------------------------------------------

  predicate PastSideWall(x: int) {
    x < 0 || x > WallMax
  }

  /** Ball span `[x, x + BallSize)` meets paddle span `[p, p + PaddleWidth)`. */
  predicate Overlaps(x: int, p: int) {
    x + BallSize > p && x < p + PaddleWidth
  }

  /** One Euler step, then the side walls flip `vx` without moving the ball back. */
  function Flight(b: Ball): Ball {
    var x := b.x + b.vx;
    Ball(x, b.y + b.vy, if PastSideWall(x) then -b.vx else b.vx, b.vy)
  }

  predicate HitsTop(b: Ball, top: int) {
    b.y < TopBand && Overlaps(b.x, top) && b.vy < 0
  }

  predicate HitsBottom(b: Ball, bottom: int) {
    b.y + BallSize > BottomBand && Overlaps(b.x, bottom) && b.vy > 0
  }

  /** A hit on the top paddle sends the ball down from just below it. */
  function BounceTop(b: Ball, top: int): Ball {
    if HitsTop(b, top) then b.(vy := -b.vy, y := TopRest) else b
  }

  /** A hit on the bottom paddle sends the ball up from just above it. */
  function BounceBottom(b: Ball, bottom: int): Ball {
    if HitsBottom(b, bottom) then b.(vy := -b.vy, y := BottomRest) else b
  }

  /** The top paddle is checked first; the bottom check sees its outcome. */
  function Rebound(b: Ball, p: Paddles): Ball {
    BounceBottom(BounceTop(b, p.top), p.bottom)
  }

  /** The ball after flight and rebound, before the scoring test. */
  function Landed(b: Ball, p: Paddles): Ball {
    Rebound(Flight(b), p)
  }

  /**
    The ball part of a frame, on paddles that have already moved: a ball past
    the top edge is a point for the bottom side, past the bottom edge a point
    for the top side, and either starts a new round.
  */
  function Advance(b: Ball, p: Paddles, s: Scores, coinX: bool, coinY: bool): World {
    var l := Landed(b, p);
    if l.y < 0 then NewRound(s.(bottom := s.bottom + 1), coinX, coinY)
    else if l.y + BallSize > BoardHeight then NewRound(s.(top := s.top + 1), coinX, coinY)
    else World(l, p, s)
  }

  // ---------------------------------------------------------------------------
  // The world invariant
  // ---------------------------------------------------------------------------

  /**
    The ball moves at `BallSpeed` on both axes, is at most one step past a side
    wall and then already heading back, and lies between the top and bottom
    edges.
  */
  predicate InPlay(b: Ball) {
    Abs(b.vx) == BallSpeed && Abs(b.vy) == BallSpeed &&
    -BallSpeed <= b.x <= WallMax + BallSpeed &&
    (b.x < 0 ==> b.vx > 0) && (b.x > WallMax ==> b.vx < 0) &&
    0 <= b.y <= FloorMax
  }

  predicate Valid(w: World) {
    InPlay(w.ball) &&
    OnBoard(w.paddles.top) && OnBoard(w.paddles.bottom) &&
    w.scores.top >= 0 && w.scores.bottom >= 0
  }

  lemma InitialStateValid(coinX: bool, coinY: bool)
    ensures Valid(InitialState(coinX, coinY))
  {
  }

  // ---------------------------------------------------------------------------
  // Rules of the ball step
  // ---------------------------------------------------------------------------

  /** Velocities are only ever negated, or relaunched at `BallSpeed` on a new round. */
  lemma AdvanceKeepsSpeed(b: Ball, p: Paddles, s: Scores, coinX: bool, coinY: bool)
    ensures var r := Advance(b, p, s, coinX, coinY);
      r.scores == s ==> Abs(r.ball.vx) == Abs(b.vx) && Abs(r.ball.vy) == Abs(b.vy)
    ensures var r := Advance(b, p, s, coinX, coinY);
      Abs(b.vx) == BallSpeed && Abs(b.vy) == BallSpeed ==>
        Abs(r.ball.vx) == BallSpeed && Abs(r.ball.vy) == BallSpeed
  {
  }

  /**
    Side walls: in a frame that scores nothing the ball stays where the step
    put it, and `vx` changes sign exactly when that x is past a wall.
  */
  lemma WallRule(b: Ball, p: Paddles, s: Scores, coinX: bool, coinY: bool)
    requires b.vx != 0
    ensures var r := Advance(b, p, s, coinX, coinY);
      r.scores == s ==>
        r.ball.x == b.x + b.vx &&
        (r.ball.vx == -b.vx || r.ball.vx == b.vx) &&
        (r.ball.vx == -b.vx <==> b.x + b.vx < 0 || b.x + b.vx > WallMax)
  {
  }

  /** A ball moving up into the top paddle's band over the paddle bounces down from `TopRest`. */
  lemma TopHitRule(b: Ball, p: Paddles, s: Scores, coinX: bool, coinY: bool)
    requires b.y + b.vy < TopBand
    requires b.x + b.vx + BallSize > p.top && b.x + b.vx < p.top + PaddleWidth
    requires b.vy < 0
    ensures var r := Advance(b, p, s, coinX, coinY);
      r.scores == s && r.paddles == p &&
      r.ball.vy == -b.vy && r.ball.vy > 0 &&
      r.ball.y == TopRest && r.ball.x == b.x + b.vx
  {
  }

  /** A ball moving down into the bottom paddle's band over the paddle bounces up from `BottomRest`. */
  lemma BottomHitRule(b: Ball, p: Paddles, s: Scores, coinX: bool, coinY: bool)
    requires b.y + b.vy + BallSize > BottomBand
    requires b.x + b.vx + BallSize > p.bottom && b.x + b.vx < p.bottom + PaddleWidth
    requires b.vy > 0
    ensures var r := Advance(b, p, s, coinX, coinY);
      r.scores == s && r.paddles == p &&
      r.ball.vy == -b.vy && r.ball.vy < 0 &&
      r.ball.y == BottomRest && r.ball.x == b.x + b.vx
  {
  }

  /**
    A rebound happens only on a hit: in a frame that scores nothing, `vy`
    changes sign exactly when the ball, moving towards a paddle, has entered
    that paddle's band over it.
  */
  lemma ReboundOnlyOnHit(b: Ball, p: Paddles, s: Scores, coinX: bool, coinY: bool)
    requires b.vy != 0
    ensures var r := Advance(b, p, s, coinX, coinY);
      var x, y := b.x + b.vx, b.y + b.vy;
      r.scores == s ==>
        (r.ball.vy == -b.vy <==>
          (y < TopBand && Overlaps(x, p.top) && b.vy < 0) ||
          (y + BallSize > BottomBand && Overlaps(x, p.bottom) && b.vy > 0))
  {
  }

  /**
    Scoring: a ball past the top edge gives the bottom side a point, one past
    the bottom edge gives the top side a point, and the new round is centred
    with the scores carried over; otherwise nothing is reset.
  */
  lemma ScoringRule(b: Ball, p: Paddles, s: Scores, coinX: bool, coinY: bool)
    ensures var r, l := Advance(b, p, s, coinX, coinY), Landed(b, p);
      l.y < 0 ==> r.scores == Scores(s.top, s.bottom + 1) && Centred(r)
    ensures var r, l := Advance(b, p, s, coinX, coinY), Landed(b, p);
      0 <= l.y && l.y + BallSize > BoardHeight ==> r.scores == Scores(s.top + 1, s.bottom) && Centred(r)
    ensures var r, l := Advance(b, p, s, coinX, coinY), Landed(b, p);
      0 <= l.y <= FloorMax ==> r == World(l, p, s)
    ensures var r := Advance(b, p, s, coinX, coinY);
      r.scores != s ==> r.ball.vx == Launch(coinX) && r.ball.vy == Launch(coinY)
  {
  }

  /** Scores never go down, and at most one point is won per frame. */
  lemma ScoresMonotone(b: Ball, p: Paddles, s: Scores, coinX: bool, coinY: bool)
    ensures var r := Advance(b, p, s, coinX, coinY);
      s.top <= r.scores.top && s.bottom <= r.scores.bottom &&
      r.scores.top + r.scores.bottom <= s.top + s.bottom + 1
  {
  }

  /** After any frame the ball lies between the top and bottom edges. */
  lemma AdvanceKeepsBallOnBoard(b: Ball, p: Paddles, s: Scores, coinX: bool, coinY: bool)
    ensures var r := Advance(b, p, s, coinX, coinY);
      0 <= r.ball.y <= FloorMax
  {
  }

  /** A ball in play stays in play: it never escapes sideways by more than one step. */
  lemma AdvanceKeepsInPlay(b: Ball, p: Paddles, s: Scores, coinX: bool, coinY: bool)
    requires InPlay(b)
    ensures InPlay(Advance(b, p, s, coinX, coinY).ball)
  {
  }

  /**
    A frame with no wall, no paddle and no scoring event moves the ball by its
    velocity and changes nothing else.
  */
  lemma QuietFrame(b: Ball, p: Paddles, s: Scores, coinX: bool, coinY: bool)
    requires 0 <= b.x + b.vx <= WallMax
    requires !(b.y + b.vy < TopBand && Overlaps(b.x + b.vx, p.top) && b.vy < 0)
    requires !(b.y + b.vy + BallSize > BottomBand && Overlaps(b.x + b.vx, p.bottom) && b.vy > 0)
    requires 0 <= b.y + b.vy <= FloorMax
    ensures Advance(b, p, s, coinX, coinY) == World(Ball(b.x + b.vx, b.y + b.vy, b.vx, b.vy), p, s)
  {
  }
}
