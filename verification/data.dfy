/**
 * The data layer (`DataImplementation`): the ball registry, the screen size,
 * the disposed flag, and the per-tick wall-reflection step.
 */
module Data {
  import opened Outcomes
  import opened Vectors
  import opened Randomness
  import Balls

  /** The name the disposed-state exception carries. */
  const ClassName := "DataImplementation"
  /** The name the null-handler exception carries. */
  const HandlerName := "upperLayerHandler"
  /** The ball diameter the reflection rule uses; positions are top-left corners. */
  const Diameter: real := 20.0

  /** The state of one instance: disposed flag, ball list in insertion order, screen size. */
  datatype DataState = DataState(disposed: bool, balls: seq<Balls.Ball>, screenWidth: int, screenHeight: int)

  /** A freshly constructed instance. */
  const Initial := DataState(false, [], 0, 0)

  /** One invocation of the upper-layer handler: the position and ball passed, and how many balls the list held then. */
  datatype Created = Created(position: Vector, ball: Balls.Ball, ballsBefore: nat)

  /** What `Start` leaves behind: the post-state, the handler invocations, and the exception thrown, if any. */
  datatype StartOutcome = StartOutcome(state: DataState, created: seq<Created>, thrown: Option<Error>)

  /** What `Dispose` leaves behind. */
  datatype DisposeOutcome = DisposeOutcome(state: DataState, thrown: Option<Error>)

  /** A position-change notification raised during a tick by the ball at `index` in the list. */
  datatype Notification = Notification(index: nat, position: Vector)

  /** What one tick of `Move` leaves behind. */
  datatype MoveOutcome = MoveOutcome(state: DataState, notifications: seq<Notification>)

  // ---------------------------------------------------------------------------
  // Numeric conversions

  /** The C# cast `(int)r`: truncation toward zero. */
  function Trunc(r: real): (t: int)
    ensures 0.0 <= r ==> 0 <= t && t as real <= r < t as real + 1.0
    ensures r < 0.0 ==> t <= 0 && t as real - 1.0 < r <= t as real
  {
    if r >= 0.0 then r.Floor else -((-r).Floor)
  }

  /** `(int)(w * 0.1)` for an integer w: a tenth of w, truncated toward zero. */
  function Margin(w: int): (m: int)
    ensures 0 <= w ==> 0 <= m && 10 * m <= w < 10 * m + 10
    ensures w < 0 ==> m <= 0 && -10 * m <= -w < -10 * m + 10
  {
    if w >= 0 then w / 10 else -((-w) / 10)
  }

  /** The number of iterations of `for (int i = 0; i < n; i++)`. */
  function Count(n: int): nat {
    if n < 0 then 0 else n
  }

  /** A real holding a whole number, as every drawn start coordinate does. */
  predicate Integral(v: real) {
    v == v.Floor as real
  }

  /** v is a value `Random.Next(Margin(w), w - Margin(w))` can return. */
  predicate InStartRange(w: int, v: real) {
    && Integral(v)
    && Margin(w) as real <= v <= (w - Margin(w)) as real
    && (v < (w - Margin(w)) as real || Margin(w) == w - Margin(w))
  }

  // ---------------------------------------------------------------------------
  // SetScreenSize

  /** `SetScreenSize(width, height)`: stores both sizes truncated to integers, in any state. */
  function SetScreenSize(s: DataState, width: real, height: real): (r: DataState)
    ensures r.screenWidth == Trunc(width) && r.screenHeight == Trunc(height)
    ensures r.disposed == s.disposed && r.balls == s.balls
  {
    s.(screenWidth := Trunc(width), screenHeight := Trunc(height))
  }

  /** A whole-number size is stored exactly, and the later of two calls is the one that counts. */
  lemma SetScreenSizeLastWins(s: DataState, w1: real, h1: real, w: int, h: int)
    ensures SetScreenSize(SetScreenSize(s, w1, h1), w as real, h as real)
            == s.(screenWidth := w, screenHeight := h)
  {
    assert Trunc(w as real) == w;
    assert Trunc(h as real) == h;
  }

  // ---------------------------------------------------------------------------
  // Start

  /**
   * The starting position of one new ball: x then y, each drawn with
   * `Random.Next(margin, size - margin)`.
   */
  function StartingPosition(w: int, h: int, ux: UnitInterval, uy: UnitInterval): (r: Result<Vector>)
    ensures r.Failure? <==> w < 0 || h < 0
    ensures r.Failure? ==> r.error == ArgumentOutOfRange
    ensures r.Success? ==> InStartRange(w, r.value.x) && InStartRange(h, r.value.y)
  {
    var x :- Next(Margin(w), w - Margin(w), ux);
    var y :- Next(Margin(h), h - Margin(h), uy);
    Success(Vector(x as real, y as real))
  }

  /**
   * Iterations i .. count - 1 of the creation loop of `Start`: draw a start
   * position from samples 2i and 2i + 1, build a ball whose velocity is its
   * position, invoke the handler, then append the ball.
   */
  function CreateBalls(s: DataState, i: nat, count: nat, random: Stream): (r: StartOutcome)
    requires i <= count
    decreases count - i
    ensures r.state.disposed == s.disposed
    ensures r.state.screenWidth == s.screenWidth && r.state.screenHeight == s.screenHeight
    ensures r.thrown.Some? <==> i < count && (s.screenWidth < 0 || s.screenHeight < 0)
    ensures r.thrown.Some? ==> r.thrown.value == ArgumentOutOfRange && r.state == s && r.created == []
    ensures r.thrown.None? ==>
              && |r.created| == count - i
              && |r.state.balls| == |s.balls| + (count - i)
              && r.state.balls[..|s.balls|] == s.balls
    ensures r.thrown.None? ==>
              forall k :: 0 <= k < |r.created| ==>
                && r.created[k].ballsBefore == |s.balls| + k
                && r.state.balls[|s.balls| + k] == r.created[k].ball
                && r.created[k].ball == Balls.Ball(r.created[k].position, r.created[k].position)
                && StartingPosition(s.screenWidth, s.screenHeight, random(2 * (i + k)), random(2 * (i + k) + 1))
                   == Success(r.created[k].position)
  {
    if i == count then StartOutcome(s, [], None)
    else
      match StartingPosition(s.screenWidth, s.screenHeight, random(2 * i), random(2 * i + 1))
      case Failure(e) => StartOutcome(s, [], Some(e))
      case Success(p) =>
        var ball := Balls.Ball(p, p);
        var call := Created(p, ball, |s.balls|);
        var rest := CreateBalls(s.(balls := s.balls + [ball]), i + 1, count, random);
        StartOutcome(rest.state, [call] + rest.created, rest.thrown)
  }

  /**
   * `Start(numberOfBalls, upperLayerHandler)`: rejects a disposed instance,
   * then a missing handler, then runs the creation loop.
   */
  function Start(s: DataState, numberOfBalls: int, handlerPresent: bool, random: Stream): (r: StartOutcome)
    ensures s.disposed ==> r == StartOutcome(s, [], Some(ObjectDisposed(ClassName)))
    ensures !s.disposed && !handlerPresent ==> r == StartOutcome(s, [], Some(ArgumentNull(HandlerName)))
    ensures r.thrown.None? <==>
              !s.disposed && handlerPresent && (numberOfBalls <= 0 || (s.screenWidth >= 0 && s.screenHeight >= 0))
    ensures r.thrown.Some? ==> r.state == s && r.created == []
    ensures r.state.disposed == s.disposed
    ensures r.state.screenWidth == s.screenWidth && r.state.screenHeight == s.screenHeight
    ensures r.thrown.None? ==>
              && |r.created| == Count(numberOfBalls)
              && |r.state.balls| == |s.balls| + Count(numberOfBalls)
              && r.state.balls[..|s.balls|] == s.balls
    ensures r.thrown.None? ==>
              forall k :: 0 <= k < |r.created| ==>
                && r.created[k].ballsBefore == |s.balls| + k
                && r.state.balls[|s.balls| + k] == r.created[k].ball
                && r.created[k].ball.position == r.created[k].position
                && r.created[k].ball.velocity == r.created[k].position
                && InStartRange(s.screenWidth, r.created[k].position.x)
                && InStartRange(s.screenHeight, r.created[k].position.y)
  {
    if s.disposed then StartOutcome(s, [], Some(ObjectDisposed(ClassName)))
    else if !handlerPresent then StartOutcome(s, [], Some(ArgumentNull(HandlerName)))
    else CreateBalls(s, 0, Count(numberOfBalls), random)
  }

  /** Every start position the margins allow is produced by some generator: `Start` restricts positions to exactly that box. */
  lemma StartReachesEveryPosition(s: DataState, x: int, y: int)
    requires !s.disposed
    requires Margin(s.screenWidth) <= x < s.screenWidth - Margin(s.screenWidth)
    requires Margin(s.screenHeight) <= y < s.screenHeight - Margin(s.screenHeight)
    ensures exists random: Stream :: Start(s, 1, true, random).created[0].position == Vector(x as real, y as real)
  {
    var ux := SampleFor(Margin(s.screenWidth), s.screenWidth - Margin(s.screenWidth), x);
    var uy := SampleFor(Margin(s.screenHeight), s.screenHeight - Margin(s.screenHeight), y);
    var random: Stream := (k: nat) => if k == 0 then ux else uy;
    assert StartingPosition(s.screenWidth, s.screenHeight, random(0), random(1)) == Success(Vector(x as real, y as real));
    assert Start(s, 1, true, random).created[0].position == Vector(x as real, y as real);
  }

  // ---------------------------------------------------------------------------
  // Dispose

  /**
   * `Dispose(disposing)`: the first call clears the list (when disposing)
   * and sets the flag; any later call throws and changes nothing.
   */
  function DisposeCore(s: DataState, disposing: bool): (r: DisposeOutcome)
    ensures s.disposed ==> r == DisposeOutcome(s, Some(ObjectDisposed(ClassName)))
    ensures !s.disposed ==> r.thrown == None && r.state.disposed
    ensures !s.disposed ==> r.state.balls == (if disposing then [] else s.balls)
    ensures r.state.screenWidth == s.screenWidth && r.state.screenHeight == s.screenHeight
  {
    if !s.disposed then
      var cleared := if disposing then s.(balls := []) else s;
      DisposeOutcome(cleared.(disposed := true), None)
    else
      DisposeOutcome(s, Some(ObjectDisposed(ClassName)))
  }

  /** The public `Dispose()`: `Dispose(disposing: true)`. */
  function Dispose(s: DataState): (r: DisposeOutcome)
    ensures r.thrown.None? <==> !s.disposed
    ensures r.thrown.Some? ==> r.thrown.value == ObjectDisposed(ClassName) && r.state == s
    ensures r.thrown.None? ==> r.state == s.(disposed := true, balls := [])
  {
    DisposeCore(s, true)
  }

  /** Dispose is single-shot: after a first call succeeds, Dispose and Start both throw and leave the state alone. */
  lemma DisposeIsSingleShot(s: DataState, numberOfBalls: int, handlerPresent: bool, random: Stream)
    requires !s.disposed
    ensures var d := Dispose(s).state;
            && Dispose(s).thrown == None
            && d.disposed && d.balls == []
            && Dispose(d) == DisposeOutcome(d, Some(ObjectDisposed(ClassName)))
            && Start(d, numberOfBalls, handlerPresent, random) == StartOutcome(d, [], Some(ObjectDisposed(ClassName)))
  {
  }

  // ---------------------------------------------------------------------------
  // Move

  /** The delta one axis actually receives: the drawn delta, negated when the candidate leaves [0, screen - Diameter]. */
  function Bounce(p: real, delta: real, screen: int): (r: real)
    ensures r == delta || r == -delta
    ensures delta != 0.0 ==> (r == delta <==> 0.0 <= p + delta <= screen as real - Diameter)
  {
    var candidate := p + delta;
    if candidate < 0.0 || candidate > screen as real - Diameter then -delta else delta
  }

  /** The coordinate an axis reaches: p + d when that stays in [0, screen - Diameter], else p - d. */
  function AxisTarget(p: real, d: real, screen: int): real {
    if 0.0 <= p + d <= screen as real - Diameter then p + d else p - d
  }

  /** One ball's share of a tick: draw a delta per axis, reflect each axis on its own, then `Ball.Move`. */
  function StepBall(b: Balls.Ball, ux: UnitInterval, uy: UnitInterval, w: int, h: int): (r: Balls.Moved)
    ensures r.ball.position.x == AxisTarget(b.position.x, Delta(ux), w)
    ensures r.ball.position.y == AxisTarget(b.position.y, Delta(uy), h)
    ensures r.ball.velocity == b.velocity
    ensures r.notifications == [r.ball.position]
  {
    var dx := Bounce(b.position.x, Delta(ux), w);
    var dy := Bounce(b.position.y, Delta(uy), h);
    Balls.Move(b, Vector(dx, dy))
  }

  /** Tags each notification a ball raised with that ball's index. */
  function Tag(index: nat, payloads: seq<Vector>): (r: seq<Notification>)
    ensures |r| == |payloads|
    ensures forall j :: 0 <= j < |r| ==> r[j] == Notification(index, payloads[j])
  {
    seq(|payloads|, j requires 0 <= j < |payloads| => Notification(index, payloads[j]))
  }

  /** The `foreach` of a tick over balls i .. end; ball k draws samples 2k and 2k + 1. */
  function MoveFrom(balls: seq<Balls.Ball>, i: nat, random: Stream, w: int, h: int)
    : (r: (seq<Balls.Ball>, seq<Notification>))
    requires i <= |balls|
    decreases |balls| - i
    ensures |r.0| == |balls| - i && |r.1| == |balls| - i
    ensures forall k :: 0 <= k < |r.0| ==>
              && r.0[k] == StepBall(balls[i + k], random(2 * (i + k)), random(2 * (i + k) + 1), w, h).ball
              && r.1[k] == Notification(i + k, r.0[k].position)
  {
    if i == |balls| then ([], [])
    else
      var moved := StepBall(balls[i], random(2 * i), random(2 * i + 1), w, h);
      var rest := MoveFrom(balls, i + 1, random, w, h);
      ([moved.ball] + rest.0, Tag(i, moved.notifications) + rest.1)
  }

  /**
   * One timer tick of `Move`: every ball takes one reflected random step and
   * raises one notification; nothing but positions changes.
   */
  function Move(s: DataState, random: Stream): (r: MoveOutcome)
    ensures r.state.disposed == s.disposed
    ensures r.state.screenWidth == s.screenWidth && r.state.screenHeight == s.screenHeight
    ensures |r.state.balls| == |s.balls|
    ensures forall i :: 0 <= i < |s.balls| ==> r.state.balls[i].velocity == s.balls[i].velocity
    ensures |r.notifications| == |s.balls|
    ensures forall i :: 0 <= i < |s.balls| ==> r.notifications[i] == Notification(i, r.state.balls[i].position)
  {
    var moved := MoveFrom(s.balls, 0, random, s.screenWidth, s.screenHeight);
    MoveOutcome(s.(balls := moved.0), moved.1)
  }

  /**
   * The reflection rule of a tick, per ball and per axis, independently:
   * with d the drawn delta, the coordinate becomes p + d if that lies in
   * [0, screen - Diameter] and p - d otherwise.
   */
  lemma MoveReflectsPerAxis(s: DataState, random: Stream, i: nat)
    requires i < |s.balls|
    ensures var p := s.balls[i].position;
            var q := Move(s, random).state.balls[i].position;
            && q.x == AxisTarget(p.x, Delta(random(2 * i)), s.screenWidth)
            && q.y == AxisTarget(p.y, Delta(random(2 * i + 1)), s.screenHeight)
  {
  }

  /** Each tick moves every ball by less than 5 on each axis, and moves it at all unless both samples are exactly the midpoint. */
  lemma MoveDisplacement(s: DataState, random: Stream, i: nat)
    requires i < |s.balls|
    ensures var p := s.balls[i].position;
            var q := Move(s, random).state.balls[i].position;
            && -5.0 <= q.x - p.x <= 5.0 && -5.0 <= q.y - p.y <= 5.0
            && (q == p <==> random(2 * i) == 0.5 && random(2 * i + 1) == 0.5)
  {
    var p := s.balls[i].position;
    var q := Move(s, random).state.balls[i].position;
    var dx := Delta(random(2 * i));
    var dy := Delta(random(2 * i + 1));
    assert q.x - p.x == dx || q.x - p.x == -dx;
    assert q.y - p.y == dy || q.y - p.y == -dy;
  }

  // ---------------------------------------------------------------------------
  // The arena

  /** A ball lies in the arena: its top-left corner within [0, w - Diameter] x [0, h - Diameter]. */
  predicate BallInArena(b: Balls.Ball, w: int, h: int) {
    && 0.0 <= b.position.x <= w as real - Diameter
    && 0.0 <= b.position.y <= h as real - Diameter
  }

  /** Every ball of the registry lies in the arena of the current screen size. */
  predicate InArena(s: DataState) {
    forall i :: 0 <= i < |s.balls| ==> BallInArena(s.balls[i], s.screenWidth, s.screenHeight)
  }

  /** On an axis at least 30 wide, a reflected step never leaves [0, screen - Diameter]. */
  lemma BounceStaysInside(p: real, d: real, screen: int)
    requires screen >= 30
    requires 0.0 <= p <= screen as real - Diameter
    requires -5.0 <= d <= 5.0
    ensures 0.0 <= p + Bounce(p, d, screen) <= screen as real - Diameter
  {
  }

  /** A tick keeps every ball in the arena once the screen is at least 30 x 30. */
  lemma MoveKeepsBallsInArena(s: DataState, random: Stream)
    requires s.screenWidth >= 30 && s.screenHeight >= 30
    requires InArena(s)
    ensures InArena(Move(s, random).state)
  {
    var r := Move(s, random).state;
    forall i | 0 <= i < |r.balls|
      ensures BallInArena(r.balls[i], r.screenWidth, r.screenHeight)
    {
      var p := s.balls[i].position;
      assert BallInArena(s.balls[i], s.screenWidth, s.screenHeight);
      BounceStaysInside(p.x, Delta(random(2 * i)), s.screenWidth);
      BounceStaysInside(p.y, Delta(random(2 * i + 1)), s.screenHeight);
    }
  }

  /** On an axis of at least 190, every drawn start coordinate lies in [0, size - Diameter]. */
  lemma StartCoordinateInside(w: int, v: real)
    requires w >= 190
    requires InStartRange(w, v)
    ensures 0.0 <= v <= w as real - Diameter
  {
    var hi := w - Margin(w);
    assert Margin(w) < hi;
    assert v.Floor < hi;
  }

  /** `Start` on a screen of at least 190 x 190 keeps every ball, old and new, in the arena. */
  lemma StartKeepsBallsInArena(s: DataState, numberOfBalls: int, handlerPresent: bool, random: Stream)
    requires s.screenWidth >= 190 && s.screenHeight >= 190
    requires InArena(s)
    ensures InArena(Start(s, numberOfBalls, handlerPresent, random).state)
  {
    var r := Start(s, numberOfBalls, handlerPresent, random);
    if r.thrown.None? {
      forall i | 0 <= i < |r.state.balls|
        ensures BallInArena(r.state.balls[i], r.state.screenWidth, r.state.screenHeight)
      {
        if i < |s.balls| {
          assert r.state.balls[i] == r.state.balls[..|s.balls|][i];
        } else {
          var c := r.created[i - |s.balls|];
          StartCoordinateInside(s.screenWidth, c.position.x);
          StartCoordinateInside(s.screenHeight, c.position.y);
        }
      }
    }
  }
}
