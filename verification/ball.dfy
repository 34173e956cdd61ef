/** The data-layer ball (`Data.Ball`): a position that only moves by deltas, and a velocity. */
module Balls {
  import opened Vectors

  /** `Ball(initialPosition, initialVelocity)` stores both vectors as given. */
  datatype Ball = Ball(position: Vector, velocity: Vector)

  /** What `Move` leaves behind: the moved ball and the position notifications it raised, in order. */
  datatype Moved = Moved(ball: Ball, notifications: seq<Vector>)

  /**
   * `Move(delta)`: shifts the position by the delta, then raises the
   * position-change notification once, carrying the new position.
   */
  function Move(b: Ball, delta: Vector): (r: Moved)
    ensures r.ball.position == Vector(b.position.x + delta.x, b.position.y + delta.y)
    ensures r.ball.velocity == b.velocity
    ensures |r.notifications| == 1 && r.notifications[0] == r.ball.position
  {
    var moved := b.(position := Add(b.position, delta));
    Moved(moved, [moved.position])
  }

  /** A sequence of `Move` calls on one ball, in order, with every notification they raise. */
  function MoveAll(b: Ball, deltas: seq<Vector>): Moved
    decreases |deltas|
  {
    if |deltas| == 0 then Moved(b, [])
    else
      var before := MoveAll(b, deltas[..|deltas| - 1]);
      var last := Move(before.ball, deltas[|deltas| - 1]);
      Moved(last.ball, before.notifications + last.notifications)
  }

  /** A zero delta leaves the position where it was and still notifies once. */
  lemma MoveByZero(b: Ball)
    ensures Move(b, Zero).ball == b
    ensures Move(b, Zero).notifications == [b.position]
  {
  }

  /**
   * `getPosition` after any number of moves is the initial position plus the
   * sum of the deltas; the velocity is never touched; the k-th notification
   * carries the position reached after the first k + 1 moves.
   */
  lemma {:induction false} MoveAllTracksSum(b: Ball, deltas: seq<Vector>)
    ensures MoveAll(b, deltas).ball.position == Add(b.position, Sum(deltas))
    ensures MoveAll(b, deltas).ball.velocity == b.velocity
    ensures |MoveAll(b, deltas).notifications| == |deltas|
    ensures forall k :: 0 <= k < |deltas| ==>
              MoveAll(b, deltas).notifications[k] == Add(b.position, Sum(deltas[..k + 1]))
    decreases |deltas|
  {
    if |deltas| > 0 {
      var init := deltas[..|deltas| - 1];
      MoveAllTracksSum(b, init);
      var r := MoveAll(b, deltas);
      var before := MoveAll(b, init);
      assert r.notifications == before.notifications + [r.ball.position];
      forall k | 0 <= k < |deltas|
        ensures r.notifications[k] == Add(b.position, Sum(deltas[..k + 1]))
      {
        if k < |init| {
          assert init[..k + 1] == deltas[..k + 1];
        } else {
          assert deltas[..k + 1] == deltas;
        }
      }
    }
  }

  /** Two moves in a row land where one move by the summed delta lands. */
  lemma MovesCompose(b: Ball, d1: Vector, d2: Vector)
    ensures Move(Move(b, d1).ball, d2).ball == Move(b, Add(d1, d2)).ball
  {
  }
}
