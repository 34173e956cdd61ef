/** The (x, y) value type of the data layer (`IVector`, `Vector`). */
module Vectors {

  /** An immutable two-dimensional vector; the source's doubles are modelled as exact reals. */
  datatype Vector = Vector(x: real, y: real)

  const Zero := Vector(0.0, 0.0)

  /** Componentwise sum. */
  function Add(a: Vector, b: Vector): Vector {
    Vector(a.x + b.x, a.y + b.y)
  }

  /** Sum of a sequence of vectors, accumulated from the left. */
  function Sum(vs: seq<Vector>): Vector {
    if |vs| == 0 then Zero else Add(Sum(vs[..|vs| - 1]), vs[|vs| - 1])
  }
}
