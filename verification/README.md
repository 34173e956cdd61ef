# Ball registry and bounded-arena step, modelled in Dafny

This project models the core of a two-layer ball simulation written in C#:

- the data layer (`DataImplementation`): a registry of balls, a screen size,
  a disposed flag, the `Start` operation that creates balls at random
  positions inside a 10 % margin, the single-shot `Dispose`, and the
  per-tick `Move` rule that steps every ball by a random delta and reflects
  the delta on each axis whose candidate coordinate leaves
  `[0, screen − 20]`;
- the ball (`Data.Ball`): a position that changes only through
  `Move(delta)`, which adds the delta and raises exactly one notification
  carrying the new position, and a velocity that `Move` never touches;
- the business layer (`BusinessLogicImplementation`): the same two-guard
  `Start` and single-shot `Dispose` in front of the data layer, forwarding
  the ball count unchanged and turning each data-layer handler call into one
  upper-layer call whose position is `(x, x)`, as the code builds it.

Every operation is a pure function from a state to an outcome that carries
the post-state, the handler calls or notifications made, and the exception
thrown, if any (`thrown: Option<Error>`). Because an exception carries the
state it leaves behind, "a failed call changes nothing" is proved rather
than assumed. The business layer records each call it makes on the layer
below, so "called once with the same count" and "not called again" are
statements about that record.

Randomness is an input. An instance of `System.Random` is modelled as the
stream of `NextDouble` samples it hands out (`Randomness.Stream`, each
sample a real in `[0, 1)`). `Random.Next(lo, hi)` is `lo + ⌊u·(hi − lo)⌋`:
it throws when `hi < lo`, returns `lo` on an empty range, and can return
every integer of `[lo, hi)` (`Randomness.SampleFor` gives the sample for
each). A move delta is `(u − 0.5)·10`, in `[−5, 5)`. Ball `k` of a `Start`
draws samples `2k` (x) and `2k + 1` (y). Ball `k` of a tick also uses
samples `2k` and `2k + 1`. Doubles are exact reals. `(int)r` is truncation
toward zero. `(int)(w·0.1)` on an integer `w` is `w / 10`, truncated toward
zero.

Modules: `Vectors`, `Outcomes`, `Randomness`, `Balls` (Ball.cs), `Data`
(DataImplementation.cs), `BusinessLogic` (BusinessLogicImplementation.cs),
`Arena` (the registry invariant over whole runs of the data layer) and
`Scenarios` (the unit tests' concrete runs, plus edge cases).

Behaviour of the code worth noting:

- A wall hit negates the delta drawn for that tick on that axis. It never
  clamps the position and never touches the velocity. The velocity is set
  to the start position and is not used by the step.
- Start coordinates are integers in `[⌊w/10⌋, w − ⌊w/10⌋)`. When `w` is not
  a multiple of 10, the lower bound lies below `0.1·w`. The program's own
  test asserts `x >= width * 0.1`
  (CP/DataTest/DataImplementationUnitTest.cs:103-106), which only holds for
  the width it uses. On a 1285-wide screen x = 128 is possible
  (`Scenarios.MarginCanFallBelowTenPercent`).
- The arena invariant (every ball within `[0, w − 20] × [0, h − 20]`) is
  guaranteed when balls are only created on a screen of at least 190 on
  each side, and the screen is never shrunk while balls exist. An empty
  registry may be resized freely (`Arena.RunKeepsInvariant`). The bound 190
  is exact: on a side of 189 a start coordinate of 170 is allowed, past the
  wall at 169 (`Scenarios.MinSideIsTight`). On a 100 × 100 screen a ball
  can start at x = 89, past the wall at 80
  (`Scenarios.SmallScreenStartsOutsideArena`).

## Model

| member | source | states |
|---|---|---|
| `Randomness.Next` | CP/Data/DataImplementation.cs:38 | `Random.Next(lo, hi)` throws exactly when `hi < lo`; otherwise the value lies in `[lo, hi]`, and strictly below `hi` when the range is non-empty |
| `Randomness.SampleFor` | CP/Data/DataImplementation.cs:38 | every integer of a non-empty range `[lo, hi)` is drawn by some sample, so the model does not narrow the generator |
| `Randomness.Delta` | CP/Data/DataImplementation.cs:98-99 | a per-axis move delta lies in `[−5, 5)` and is zero only for the midpoint sample |
| `Balls.Move` | CP/Data/Ball.cs:44-54 | `Move(d)` sets the position to `(x + d.x, y + d.y)`, keeps the velocity, and raises exactly one notification whose payload is the new position |
| `Balls.MoveByZero` | CP/Data/Ball.cs:50-53 | moving by `(0, 0)` leaves the ball as it was and notifies once with the unchanged position |
| `Balls.MoveAllTracksSum` | CP/Data/Ball.cs:20-64 | after any sequence of moves, `getPosition` is the constructor's position plus the sum of all deltas, the constructor's velocity is unchanged, and the k-th notification carries the position after the first k + 1 moves |
| `Balls.MovesCompose` | CP/Data/Ball.cs:50-53 | two moves land where one move by the summed delta lands |
| `Data.Trunc` | CP/Data/DataImplementation.cs:48-49 | `(int)r` is the integer toward zero from `r` within distance less than 1, with the sign of `r` |
| `Data.Margin` | CP/Data/DataImplementation.cs:38 | `(int)(w·0.1)` is a tenth of `w` truncated toward zero, for both signs of `w` |
| `Data.SetScreenSize` | CP/Data/DataImplementation.cs:46-50 | stores both sizes truncated to integers and changes neither the ball list nor the disposed flag, disposed or not |
| `Data.SetScreenSizeLastWins` | CP/Data/DataImplementation.cs:46-50 | whole-number sizes are stored exactly and the later of two calls overrides the earlier |
| `Data.StartingPosition` | CP/Data/DataImplementation.cs:38 | a start position is drawn without error exactly when both sizes are non-negative; each coordinate is an integer in `[size/10, size − size/10)`, or equals `size/10` when that range is empty |
| `Data.CreateBalls` | CP/Data/DataImplementation.cs:36-44 | the creation loop appends one ball per iteration after invoking the handler with its position, keeps the existing balls as a prefix, gives each ball a velocity equal to its position, and fails only on its first iteration, leaving the state untouched |
| `Data.Start` | CP/Data/DataImplementation.cs:29-45 | `Start` fails with the disposed error before checking the handler, then with the null-argument error; it succeeds exactly when not disposed, the handler is present, and the count is non-positive or the screen is non-negative; on success it appends `max(n, 0)` balls and invokes the handler that many times, the k-th while the list holds k − 1 new balls, with a start position inside the margins and velocity equal to it; a failure leaves the state unchanged |
| `Data.StartReachesEveryPosition` | CP/Data/DataImplementation.cs:38 | every integer position inside the margins is a possible start position of a new ball |
| `Data.DisposeCore` | CP/Data/DataImplementation.cs:56-69 | `Dispose(disposing)` on a live instance sets the flag and clears the list only when `disposing`; on a disposed instance it throws and changes nothing |
| `Data.Dispose` | CP/Data/DataImplementation.cs:71-76 | the public `Dispose` succeeds exactly on a live instance, leaving it disposed and empty with the screen size kept; otherwise it throws the disposed error and leaves the state unchanged |
| `Data.DisposeIsSingleShot` | CP/Data/DataImplementation.cs:29-76 | after a first successful `Dispose`, a second `Dispose` and any `Start`, even with no handler, throw the disposed error and change nothing |
| `Data.Bounce` | CP/Data/DataImplementation.cs:110-120 | the delta an axis receives is the drawn delta or its negation, and (for a non-zero delta) it is the drawn delta exactly when the candidate `p + d` lies in `[0, screen − 20]` |
| `Data.StepBall` | CP/Data/DataImplementation.cs:98-123 | one iteration of the tick's loop moves a ball so that each axis independently reaches `p + d` if that lies in `[0, screen − 20]` and `p − d` otherwise, keeps its velocity, and raises one notification carrying the new position |
| `Data.MoveFrom` | CP/Data/DataImplementation.cs:95-124 | the tick's loop steps each ball, in list order, with its own two samples, and emits one notification per ball carrying that ball's new position |
| `Data.Move` | CP/Data/DataImplementation.cs:92-130 | a tick keeps the ball count, each ball's velocity, the screen size and the flag, and raises exactly one notification per ball, in list order, carrying its new position |
| `Data.MoveReflectsPerAxis` | CP/Data/DataImplementation.cs:98-123 | per ball and independently per axis, with drawn delta d the new coordinate is `p + d` when that lies in `[0, screen − 20]` and `p − d` otherwise |
| `Data.MoveDisplacement` | CP/Data/DataImplementation.cs:98-123 | a tick moves each ball by at most 5 per axis, and moves it unless both of its samples are exactly the midpoint |
| `Data.BounceStaysInside` | CP/Data/DataImplementation.cs:104-120 | on an axis at least 30 long, a coordinate inside `[0, screen − 20]` stays inside after the reflected step |
| `Data.MoveKeepsBallsInArena` | CP/Data/DataImplementation.cs:95-124 | on a screen of at least 30 × 30, a tick keeps every ball inside `[0, w − 20] × [0, h − 20]` |
| `Data.StartCoordinateInside` | CP/Data/DataImplementation.cs:38 | on a side of at least 190, every drawn start coordinate lies in `[0, size − 20]` |
| `Data.StartKeepsBallsInArena` | CP/Data/DataImplementation.cs:36-44 | on a screen of at least 190 × 190, `Start` keeps every old and new ball inside the arena |
| `Arena.InitialInvariant` | CP/Data/DataImplementation.cs:82-90 | a freshly constructed instance satisfies the registry invariant |
| `Arena.ApplyKeepsInvariant` | CP/Data/DataImplementation.cs:29-124 | each `SetScreenSize`, `Start`, tick or `Dispose` keeps every ball in the arena and a disposed registry empty, provided a `Start` that creates balls runs on a screen of at least 190 × 190 and a resize does not shrink the screen while balls exist (an empty registry may be resized to any size) |
| `Arena.RunKeepsInvariant` | CP/Data/DataImplementation.cs:29-124 | after any sequence of calls and ticks that creates balls only on a screen of at least 190 × 190 and never shrinks the screen while balls exist, every ball lies in the arena and a disposed registry is empty |
| `BusinessLogic.Relay` | CP/BusinessLogic/BusinessLogicImplementation.cs:55 | the handler passed downward turns one data-layer call into one upper call whose position is `(x, x)` of the data-layer position and whose ball wraps the data-layer ball |
| `BusinessLogic.RelayAll` | CP/BusinessLogic/BusinessLogicImplementation.cs:55 | every data-layer handler call yields exactly one upper call, in the same order |
| `BusinessLogic.Start` | CP/BusinessLogic/BusinessLogicImplementation.cs:44-56 | `Start` fails with the disposed error before checking the handler, then with the null-argument error, in both cases calling nothing below; otherwise it starts the layer below exactly once with the same count, passes through its exception, and makes one upper call per data-layer call with position `(x, x)` |
| `BusinessLogic.Dispose` | CP/BusinessLogic/BusinessLogicImplementation.cs:36-42 | a first `Dispose` disposes the layer below exactly once and sets the flag only if that succeeded; a later one throws the disposed error and calls nothing below |
| `BusinessLogic.SetScreenSize` | CP/BusinessLogic/BusinessLogicImplementation.cs:81-84 | forwards width and height unchanged, once, and leaves the flag as it was |
| `BusinessLogic.SetScreenSizeIgnoresDisposed` | CP/BusinessLogic/BusinessLogicImplementation.cs:81-84 | the flag is not read: the layer below ends the same whether or not the business layer is disposed |
| `BusinessLogic.ApplyKeepsLayersInStep` | CP/BusinessLogic/BusinessLogicImplementation.cs:36-56 | each public call keeps the two disposed flags equal and a disposed data layer empty |
| `BusinessLogic.RunKeepsLayersInStep` | CP/BusinessLogic/BusinessLogicImplementation.cs:36-84 | over any sequence of public calls from a state where the layers agree, the two flags stay equal and a disposed data layer stays empty |
| `BusinessLogic.DisposeReachesBelowAtMostOnce` | CP/BusinessLogic/BusinessLogicImplementation.cs:36-42 | over any sequence of public calls from a state where the layers agree, the layer below receives `Dispose` at most once, and never if the business layer was already disposed |
| `BusinessLogic.DisposeTwice` | CP/BusinessLogic/BusinessLogicImplementation.cs:36-42 | the first `Dispose` reaches the layer below once and leaves both layers disposed; the second throws and reaches nothing below |
| `Scenarios.MoveByZeroNotifiesOnce` | CP/DataTest/BallUnitTest.cs:24-34 | a ball at (10, 10) moved by (0, 0) notifies exactly once, with (10, 10) |
| `Scenarios.MoveAddsDelta` | CP/DataTest/BallUnitTest.cs:36-50 | (10, 10) moved by (2, 3) is (12, 13) |
| `Scenarios.DataDisposeThenReuse` | CP/DataTest/DataImplementationUnitTest.cs:36-51 | disposing a fresh instance empties and flags it; a second `Dispose` and `Start(0, …)` throw the disposed error |
| `Scenarios.DataStartCreatesN` | CP/DataTest/DataImplementationUnitTest.cs:54-87 | `Start(n)` on a fresh instance makes n handler calls with non-negative positions and leaves n balls |
| `Scenarios.DataStartWithoutHandler` | CP/DataTest/DataImplementationUnitTest.cs:113-119 | `Start(5, null)` throws the null-argument error and creates nothing |
| `Scenarios.DataStartOnConfiguredScreen` | CP/DataTest/DataImplementationUnitTest.cs:90-110 | on a 1280 × 720 screen, 5 balls start within `[128, 1152] × [72, 648]` |
| `Scenarios.MarginCanFallBelowTenPercent` | CP/Data/DataImplementation.cs:38 | on a 1285-wide screen a ball can start at x = 128, below a tenth of the width |
| `Scenarios.SmallScreenStartsOutsideArena` | CP/Data/DataImplementation.cs:38 | on a 100 × 100 screen a ball can start at x = 89, outside the arena, so the 190 threshold is not vacuous |
| `Scenarios.MinSideIsTight` | CP/Data/DataImplementation.cs:38 | on a side of 189 the margins allow a start coordinate of 170, past the wall at 169, so 190 is the exact threshold |
| `Scenarios.DataTickMovesBall` | CP/DataTest/DataImplementationUnitTest.cs:122-148 | a started ball on a 1000 × 800 screen changes position in one tick unless both samples are the midpoint, and notifies once |
| `Scenarios.BusinessDisposeThenReuse` | CP/BusinessLogicTest/BusinessLogicUnitTest.cs:30-44 | the business `Dispose` reaches the data layer once; a second `Dispose` throws without reaching it; `Start(0, …)` throws the disposed error |
| `Scenarios.BusinessStartForwardsCount` | CP/BusinessLogicTest/BusinessLogicUnitTest.cs:47-61 | `Start(n)` through the business layer starts the data layer once with n and makes n upper calls; the test runs against a fixture that calls the handler once, so it sees one upper call, while here the real data layer makes n |
| `Scenarios.BusinessRelaysSingleLowerCall` | CP/BusinessLogicTest/BusinessLogicUnitTest.cs:47-61 | as with the test's fixture, a layer below that invokes the handler once yields exactly one upper call, wrapping that ball at position `(x, x)` |
| `Scenarios.BusinessPositionRepeatsX` | CP/BusinessLogic/BusinessLogicImplementation.cs:55 | a ball started by the data layer at (100, 80) reaches the upper layer at (100, 100) |

## Left out

- The move timer (`System.Threading.Timer`) fires `Move` on a pool thread while `Start` may be appending to the same list; the model treats each tick as one sequential step between calls, so the race is not modelled.
- `System.Random` and its algorithm: draws are inputs; `Random.Next` is modelled by the range it returns, not by the generator's arithmetic.
- IEEE-754 doubles: coordinates and deltas are exact reals, so rounding, NaN and infinities are not modelled; `(int)` of a value outside the 32-bit range is not modelled either (sizes are unbounded integers).
- The handler itself is external code: the model records each invocation instead of running it, so a handler that throws, re-enters the layer, or subscribes to notifications is not modelled.
- Event subscription: notifications are recorded as raised; whether anybody is subscribed (the `?.Invoke`) does not change the model.
- `GC.SuppressFinalize` and the timer's own `Dispose` are runtime bookkeeping with no effect on the modelled state.
- The public setter of a ball's `Velocity` (`{ get; set; }`): nothing in the modelled files calls it, so the velocity is fixed at creation.
- The `[Conditional("DEBUG")]` `Check*` helpers only read state; the model's state is read directly.
- The business ball (`BusinessBall.cs`) is represented only by the data-layer ball it wraps; its notification relay is not modelled.
- The abstract layer classes and their lazy singleton factories, the view model and the value converter are wiring outside this model; the `IVector`/`IPosition` shapes appear as the `Vector` and `Position` datatypes.
