/**
 * The business layer (`BusinessLogicImplementation`): its own disposed flag
 * in front of a data layer it delegates to. Every call it makes downward is
 * recorded, so "called once", "with the same argument" and "not called at
 * all" are statements about the returned log.
 */
module BusinessLogic {
  import opened Outcomes
  import opened Randomness
  import Balls
  import Data

  /** The name the disposed-state exception carries. */
  const ClassName := "BusinessLogicImplementation"

  /** The upper-layer position type (`IPosition`). */
  datatype Position = Position(x: real, y: real)

  /** The ball handed upward; it wraps one data-layer ball and relays its notifications. */
  datatype BusinessBall = BusinessBall(source: Balls.Ball)

  /** One invocation of the upper-layer handler. */
  datatype UpperCreated = UpperCreated(position: Position, ball: BusinessBall)

  /** A call made on the layer below. */
  datatype LowerCall =
    | StartCall(numberOfBalls: int)
    | DisposeCall
    | SetScreenSizeCall(width: real, height: real)

  /** The layer's own flag and the state of the layer below. */
  datatype BusinessState = BusinessState(disposed: bool, below: Data.DataState)

  /** What an operation leaves behind: post-state, upper-layer handler calls, calls made below, exception. */
  datatype BusinessOutcome = BusinessOutcome(
    state: BusinessState,
    created: seq<UpperCreated>,
    lowerCalls: seq<LowerCall>,
    thrown: Option<Error>)

  /** A freshly constructed instance over a fresh data layer. */
  const Initial := BusinessState(false, Data.Initial)

  /**
   * The handler this layer passes downward, applied to one data-layer call:
   * it wraps the ball and builds the position from the x coordinate twice,
   * as the code does.
   */
  function Relay(c: Data.Created): (u: UpperCreated)
    ensures u.position.x == c.position.x && u.position.y == c.position.x
    ensures u.ball.source == c.ball
  {
    UpperCreated(Position(c.position.x, c.position.x), BusinessBall(c.ball))
  }

  /** The handler applied to each data-layer call in turn. */
  function RelayAll(cs: seq<Data.Created>): (us: seq<UpperCreated>)
    ensures |us| == |cs|
    ensures forall i :: 0 <= i < |cs| ==> us[i] == Relay(cs[i])
  {
    seq(|cs|, i requires 0 <= i < |cs| => Relay(cs[i]))
  }

  /**
   * `Start(numberOfBalls, upperLayerHandler)`: rejects a disposed instance,
   * then a missing handler, then starts the layer below once with the same
   * count, turning each of its handler calls into one upper call.
   */
  function Start(b: BusinessState, numberOfBalls: int, handlerPresent: bool, random: Stream): (r: BusinessOutcome)
    ensures b.disposed ==> r == BusinessOutcome(b, [], [], Some(ObjectDisposed(ClassName)))
    ensures !b.disposed && !handlerPresent ==>
              r == BusinessOutcome(b, [], [], Some(ArgumentNull(Data.HandlerName)))
    ensures !b.disposed && handlerPresent ==>
              var lower := Data.Start(b.below, numberOfBalls, true, random);
              && r.lowerCalls == [StartCall(numberOfBalls)]
              && r.state == BusinessState(b.disposed, lower.state)
              && r.thrown == lower.thrown
              && |r.created| == |lower.created|
              && forall i :: 0 <= i < |r.created| ==>
                   && r.created[i].ball.source == lower.created[i].ball
                   && r.created[i].position == Position(lower.created[i].position.x, lower.created[i].position.x)
  {
    if b.disposed then BusinessOutcome(b, [], [], Some(ObjectDisposed(ClassName)))
    else if !handlerPresent then BusinessOutcome(b, [], [], Some(ArgumentNull(Data.HandlerName)))
    else
      var lower := Data.Start(b.below, numberOfBalls, true, random);
      BusinessOutcome(b.(below := lower.state), RelayAll(lower.created), [StartCall(numberOfBalls)], lower.thrown)
  }

  /**
   * `Dispose()`: rejects a disposed instance without touching the layer
   * below; otherwise disposes the layer below once and then sets the flag.
   */
  function Dispose(b: BusinessState): (r: BusinessOutcome)
    ensures b.disposed ==> r == BusinessOutcome(b, [], [], Some(ObjectDisposed(ClassName)))
    ensures !b.disposed ==>
              var lower := Data.Dispose(b.below);
              && r.lowerCalls == [DisposeCall]
              && r.created == []
              && r.state.below == lower.state
              && r.thrown == lower.thrown
              && r.state.disposed == lower.thrown.None?
  {
    if b.disposed then BusinessOutcome(b, [], [], Some(ObjectDisposed(ClassName)))
    else
      var lower := Data.Dispose(b.below);
      if lower.thrown.Some? then BusinessOutcome(b.(below := lower.state), [], [DisposeCall], lower.thrown)
      else BusinessOutcome(BusinessState(true, lower.state), [], [DisposeCall], None)
  }

  /** `SetScreenSize(width, height)`: forwards both values unchanged, whatever the flag says. */
  function SetScreenSize(b: BusinessState, width: real, height: real): (r: BusinessOutcome)
    ensures r.lowerCalls == [SetScreenSizeCall(width, height)]
    ensures r.state == BusinessState(b.disposed, Data.SetScreenSize(b.below, width, height))
    ensures r.created == [] && r.thrown == None
  {
    BusinessOutcome(b.(below := Data.SetScreenSize(b.below, width, height)), [], [SetScreenSizeCall(width, height)], None)
  }

  /** The flag is never read by `SetScreenSize`: disposed or not, the layer below ends in the same state. */
  lemma SetScreenSizeIgnoresDisposed(b: BusinessState, width: real, height: real)
    ensures SetScreenSize(b.(disposed := !b.disposed), width, height).state.below
            == SetScreenSize(b, width, height).state.below
  {
  }

  // ---------------------------------------------------------------------------
  // Lifecycle of the two layers together

  /** The two flags agree and a disposed data layer holds no balls. */
  predicate InStep(b: BusinessState) {
    && b.disposed == b.below.disposed
    && (b.below.disposed ==> b.below.balls == [])
  }

  /** A public call on the business layer. */
  datatype Call =
    | CallStart(numberOfBalls: int, handlerPresent: bool, random: Stream)
    | CallDispose
    | CallSetScreenSize(width: real, height: real)

  function Apply(b: BusinessState, c: Call): BusinessOutcome {
    match c
    case CallStart(n, h, random) => Start(b, n, h, random)
    case CallDispose => Dispose(b)
    case CallSetScreenSize(w, h) => SetScreenSize(b, w, h)
  }

  /** The state after a sequence of calls, exceptions included (each leaves its post-state). */
  function Run(b: BusinessState, calls: seq<Call>): BusinessState
    decreases |calls|
  {
    if |calls| == 0 then b else Run(Apply(b, calls[0]).state, calls[1..])
  }

  /** Each call keeps the two layers in step. */
  lemma ApplyKeepsLayersInStep(b: BusinessState, c: Call)
    requires InStep(b)
    ensures InStep(Apply(b, c).state)
    ensures Apply(b, c).thrown.Some? && c.CallDispose? ==> Apply(b, c).lowerCalls == []
  {
  }

  /**
   * Whatever sequence of calls a client makes from a state where the layers
   * agree, the business flag equals the data-layer flag and a disposed data
   * layer is empty.
   */
  lemma {:induction false} RunKeepsLayersInStep(b: BusinessState, calls: seq<Call>)
    requires InStep(b)
    ensures InStep(Run(b, calls))
    decreases |calls|
  {
    if |calls| > 0 {
      ApplyKeepsLayersInStep(b, calls[0]);
      RunKeepsLayersInStep(Apply(b, calls[0]).state, calls[1..]);
    }
  }

  /** Every call made on the layer below during a sequence of calls, in order. */
  function RunCalls(b: BusinessState, calls: seq<Call>): seq<LowerCall>
    decreases |calls|
  {
    if |calls| == 0 then [] else Apply(b, calls[0]).lowerCalls + RunCalls(Apply(b, calls[0]).state, calls[1..])
  }

  /**
   * However many times a client calls `Dispose`, the layer below is disposed
   * at most once, and not at all if the business layer already was.
   */
  lemma {:induction false} DisposeReachesBelowAtMostOnce(b: BusinessState, calls: seq<Call>)
    requires InStep(b)
    ensures multiset(RunCalls(b, calls))[DisposeCall] <= (if b.disposed then 0 else 1)
    decreases |calls|
  {
    if |calls| > 0 {
      var next := Apply(b, calls[0]);
      ApplyKeepsLayersInStep(b, calls[0]);
      DisposeReachesBelowAtMostOnce(next.state, calls[1..]);
      assert RunCalls(b, calls) == next.lowerCalls + RunCalls(next.state, calls[1..]);
      if calls[0].CallDispose? && !b.disposed {
        assert next.state.disposed;
      }
    }
  }

  /** The first `Dispose` disposes the layer below exactly once; the second throws and calls nothing below. */
  lemma DisposeTwice(b: BusinessState)
    requires InStep(b) && !b.disposed
    ensures var first := Dispose(b);
            var second := Dispose(first.state);
            && first.thrown == None && first.lowerCalls == [DisposeCall]
            && first.state.disposed && first.state.below.disposed && first.state.below.balls == []
            && second.thrown == Some(ObjectDisposed(ClassName))
            && second.lowerCalls == [] && second.state == first.state
  {
  }
}
