/** Concrete runs taken from the unit tests, and the cases that pin the edges of the model. */
module Scenarios {
  import opened Outcomes
  import opened Vectors
  import opened Randomness
  import Balls
  import Data
  import BusinessLogic

  /** A generator whose every sample is the same value. */
  function Constant(u: UnitInterval): (random: Stream)
    ensures forall k: nat :: random(k) == u
  {
    (k: nat) => u
  }

  /** A ball at (10, 10) moved by (0, 0) notifies once, with (10, 10). */
  lemma MoveByZeroNotifiesOnce()
    ensures var m := Balls.Move(Balls.Ball(Vector(10.0, 10.0), Zero), Zero);
            m.notifications == [Vector(10.0, 10.0)]
  {
  }

  /** A ball at (10, 10) moved by (2, 3) ends at (12, 13). */
  lemma MoveAddsDelta()
    ensures Balls.Move(Balls.Ball(Vector(10.0, 10.0), Vector(2.0, 3.0)), Vector(2.0, 3.0)).ball.position
            == Vector(12.0, 13.0)
  {
  }

  /** Dispose on a fresh instance empties and flags it; a second Dispose and a later Start(0) throw the disposed error. */
  lemma DataDisposeThenReuse(random: Stream)
    ensures var d := Data.Dispose(Data.Initial);
            && d.thrown == None && d.state.disposed && d.state.balls == []
            && Data.Dispose(d.state).thrown == Some(ObjectDisposed(Data.ClassName))
            && Data.Start(d.state, 0, true, random).thrown == Some(ObjectDisposed(Data.ClassName))
  {
  }

  /** Start(n) on a fresh instance invokes the handler n times and leaves n balls, whatever the generator yields. */
  lemma DataStartCreatesN(n: nat, random: Stream)
    ensures var r := Data.Start(Data.Initial, n, true, random);
            && r.thrown == None && |r.created| == n && |r.state.balls| == n
            && forall k :: 0 <= k < n ==> r.created[k].position.x >= 0.0 && r.created[k].position.y >= 0.0
  {
    var r := Data.Start(Data.Initial, n, true, random);
    forall k | 0 <= k < n
      ensures r.created[k].position.x >= 0.0 && r.created[k].position.y >= 0.0
    {
      assert Data.InStartRange(0, r.created[k].position.x);
    }
  }

  /** Start with no handler throws the argument error and creates nothing. */
  lemma DataStartWithoutHandler(random: Stream)
    ensures Data.Start(Data.Initial, 5, false, random)
            == Data.StartOutcome(Data.Initial, [], Some(ArgumentNull(Data.HandlerName)))
  {
  }

  /** On a 1280 x 720 screen every ball starts within 10 % of the size from each edge. */
  lemma DataStartOnConfiguredScreen(random: Stream)
    ensures var s := Data.SetScreenSize(Data.Initial, 1280.0, 720.0);
            var r := Data.Start(s, 5, true, random);
            && r.thrown == None && |r.state.balls| == 5
            && forall k :: 0 <= k < 5 ==>
                 && 128.0 <= r.created[k].position.x <= 1152.0
                 && 72.0 <= r.created[k].position.y <= 648.0
  {
    var s := Data.SetScreenSize(Data.Initial, 1280.0, 720.0);
    assert s.screenWidth == 1280 && s.screenHeight == 720;
  }

  /**
   * On a 1285-wide screen the lower margin is `(int)128.5` = 128, so a ball
   * can start at x = 128, below a tenth of the width.
   */
  lemma MarginCanFallBelowTenPercent()
    ensures var s := Data.SetScreenSize(Data.Initial, 1285.0, 800.0);
            var r := Data.Start(s, 1, true, Constant(0.0));
            r.thrown == None && r.created[0].position.x == 128.0 && r.created[0].position.x < 0.1 * 1285.0
  {
    var s := Data.SetScreenSize(Data.Initial, 1285.0, 800.0);
    assert s.screenWidth == 1285 && s.screenHeight == 800;
    assert Data.Margin(1285) == 128;
    assert Data.StartingPosition(1285, 800, 0.0, 0.0) == Success(Vector(128.0, 80.0));
  }

  /**
   * Below the minimum side the arena invariant can fail: on a 100 x 100
   * screen a ball may start at x = 89, past the right wall at 80.
   */
  lemma SmallScreenStartsOutsideArena()
    ensures var s := Data.SetScreenSize(Data.Initial, 100.0, 100.0);
            var r := Data.Start(s, 1, true, Constant(0.99));
            r.thrown == None && r.created[0].position.x == 89.0 && !Data.InArena(r.state)
  {
    var s := Data.SetScreenSize(Data.Initial, 100.0, 100.0);
    assert s.screenWidth == 100 && s.screenHeight == 100;
    assert (0.99 * 80.0).Floor == 79;
    assert Data.StartingPosition(100, 100, 0.99, 0.99) == Success(Vector(89.0, 89.0));
    var r := Data.Start(s, 1, true, Constant(0.99));
    assert !Data.BallInArena(r.state.balls[0], 100, 100);
  }

  /**
   * MinSide is exact: on a side of 189 the margins allow a start coordinate
   * of 170, past the wall at 169.
   */
  lemma MinSideIsTight()
    ensures Data.InStartRange(189, 170.0)
    ensures 170.0 > 189.0 - Data.Diameter
  {
    assert Data.Margin(189) == 18;
  }

  /**
   * A layer below that invokes the handler once, whatever count it is
   * given, yields exactly one upper call: the business layer adds or drops
   * none.
   */
  lemma BusinessRelaysSingleLowerCall(c: Data.Created)
    ensures var us := BusinessLogic.RelayAll([c]);
            && |us| == 1
            && us[0].ball.source == c.ball
            && us[0].position == BusinessLogic.Position(c.position.x, c.position.x)
  {
  }

  /** One tick moves a freshly started ball on a 1000 x 800 screen unless both drawn samples are exactly the midpoint. */
  lemma DataTickMovesBall(start: Stream, tick: Stream)
    requires tick(0) != 0.5 || tick(1) != 0.5
    ensures var s := Data.SetScreenSize(Data.Initial, 1000.0, 800.0);
            var r := Data.Start(s, 1, true, start);
            var m := Data.Move(r.state, tick);
            && |m.state.balls| == 1
            && m.state.balls[0].position != r.created[0].position
            && m.notifications == [Data.Notification(0, m.state.balls[0].position)]
  {
    var s := Data.SetScreenSize(Data.Initial, 1000.0, 800.0);
    assert s.screenWidth == 1000 && s.screenHeight == 800;
    var r := Data.Start(s, 1, true, start);
    Data.MoveDisplacement(r.state, tick, 0);
  }

  /** The business layer's Dispose reaches the data layer once; afterwards Dispose and Start(0) throw. */
  lemma BusinessDisposeThenReuse(random: Stream)
    ensures var d := BusinessLogic.Dispose(BusinessLogic.Initial);
            && d.thrown == None && d.state.disposed && d.state.below.disposed
            && d.lowerCalls == [BusinessLogic.DisposeCall]
            && BusinessLogic.Dispose(d.state).thrown == Some(ObjectDisposed(BusinessLogic.ClassName))
            && BusinessLogic.Dispose(d.state).lowerCalls == []
            && BusinessLogic.Start(d.state, 0, true, random).thrown == Some(ObjectDisposed(BusinessLogic.ClassName))
  {
  }

  /** Start(n) through the business layer starts the data layer once with n and hands n positions upward. */
  lemma BusinessStartForwardsCount(n: nat, random: Stream)
    ensures var r := BusinessLogic.Start(BusinessLogic.Initial, n, true, random);
            && r.thrown == None
            && r.lowerCalls == [BusinessLogic.StartCall(n)]
            && |r.created| == n && |r.state.below.balls| == n
  {
  }

  /**
   * The upper position repeats x: a ball the data layer starts at (100, 80)
   * reaches the upper layer as (100, 100).
   */
  lemma BusinessPositionRepeatsX()
    ensures var b := BusinessLogic.SetScreenSize(BusinessLogic.Initial, 1000.0, 800.0).state;
            var r := BusinessLogic.Start(b, 1, true, Constant(0.0));
            && r.state.below.balls[0].position == Vector(100.0, 80.0)
            && r.created[0].position == BusinessLogic.Position(100.0, 100.0)
  {
    var b := BusinessLogic.SetScreenSize(BusinessLogic.Initial, 1000.0, 800.0).state;
    assert b.below.screenWidth == 1000 && b.below.screenHeight == 800;
    assert Data.StartingPosition(1000, 800, 0.0, 0.0) == Success(Vector(100.0, 80.0));
  }
}
