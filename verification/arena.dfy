/**
 * The registry invariant over whole runs of the data layer: once the screen
 * is configured large enough before balls exist, every ball stays inside the
 * arena through any sequence of starts, ticks and disposal.
 */
module Arena {
  import opened Randomness
  import Data

  /** An event the data layer sees: a public call or one firing of the move timer. */
  datatype Event =
    | SetScreenSize(width: real, height: real)
    | Start(numberOfBalls: int, handlerPresent: bool, random: Stream)
    | Tick(random: Stream)
    | Dispose

  function Apply(s: Data.DataState, e: Event): Data.DataState {
    match e
    case SetScreenSize(w, h) => Data.SetScreenSize(s, w, h)
    case Start(n, present, random) => Data.Start(s, n, present, random).state
    case Tick(random) => Data.Move(s, random).state
    case Dispose => Data.Dispose(s).state
  }

  function Run(s: Data.DataState, events: seq<Event>): Data.DataState
    decreases |events|
  {
    if |events| == 0 then s else Run(Apply(s, events[0]), events[1..])
  }

  /** The smallest screen side on which every drawn start position lies in the arena. */
  const MinSide := 190

  /**
   * The usage discipline the layer expects: a `Start` that would create
   * balls runs on a screen of at least MinSide on each side (one that throws
   * may run on any screen), and the screen is never shrunk
   * while balls exist; an empty registry may be resized freely.
   */
  predicate Admissible(s: Data.DataState, e: Event) {
    match e
    case SetScreenSize(w, h) =>
      s.balls == [] || (Data.Trunc(w) >= s.screenWidth && Data.Trunc(h) >= s.screenHeight)
    case Start(n, present, _) =>
      || n <= 0 || s.disposed || !present || s.screenWidth < 0 || s.screenHeight < 0
      || (s.screenWidth >= MinSide && s.screenHeight >= MinSide)
    case Tick(_) => true
    case Dispose => true
  }

  predicate AdmissibleRun(s: Data.DataState, events: seq<Event>)
    decreases |events|
  {
    |events| == 0 || (Admissible(s, events[0]) && AdmissibleRun(Apply(s, events[0]), events[1..]))
  }

  /** Every ball in the arena, balls only on a configured screen, and none once disposed. */
  predicate Invariant(s: Data.DataState) {
    && Data.InArena(s)
    && (s.balls != [] ==> s.screenWidth >= MinSide && s.screenHeight >= MinSide)
    && (s.disposed ==> s.balls == [])
  }

  /** A fresh instance satisfies the invariant. */
  lemma InitialInvariant()
    ensures Invariant(Data.Initial)
  {
  }

  /** Each admissible event preserves the invariant. */
  lemma ApplyKeepsInvariant(s: Data.DataState, e: Event)
    requires Invariant(s) && Admissible(s, e)
    ensures Invariant(Apply(s, e))
  {
    match e
    case SetScreenSize(w, h) =>
      var r := Apply(s, e);
      assert r.balls == s.balls;
      forall i | 0 <= i < |r.balls|
        ensures Data.BallInArena(r.balls[i], r.screenWidth, r.screenHeight)
      {
        assert Data.BallInArena(s.balls[i], s.screenWidth, s.screenHeight);
      }
    case Start(n, present, random) =>
      var out := Data.Start(s, n, present, random);
      if out.thrown.None? && Data.Count(n) > 0 {
        Data.StartKeepsBallsInArena(s, n, present, random);
      } else if out.thrown.None? {
        assert out.state.balls == out.state.balls[..|s.balls|] == s.balls;
      }
    case Tick(random) =>
      if s.balls != [] {
        Data.MoveKeepsBallsInArena(s, random);
      }
    case Dispose =>
  }

  /** The invariant holds after every admissible run. */
  lemma {:induction false} RunKeepsInvariant(s: Data.DataState, events: seq<Event>)
    requires Invariant(s) && AdmissibleRun(s, events)
    ensures Invariant(Run(s, events))
    decreases |events|
  {
    if |events| > 0 {
      ApplyKeepsInvariant(s, events[0]);
      RunKeepsInvariant(Apply(s, events[0]), events[1..]);
    }
  }
}
