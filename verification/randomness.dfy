/**
 * The pseudo-random source, made an explicit input. An instance of
 * `System.Random` is modelled as the infinite stream of `NextDouble` samples
 * it hands out; every draw the code makes is a function of one sample.
 */
module Randomness {
  import opened Outcomes

  /** A value `NextDouble` may return: a real in [0, 1). */
  type UnitInterval = u: real | 0.0 <= u < 1.0

  /** The samples a generator yields, in the order they are drawn. */
  type Stream = nat -> UnitInterval

  /**
   * `Random.Next(minValue, maxValue)`: throws when maxValue < minValue,
   * returns minValue on the empty range, and otherwise an integer of
   * [minValue, maxValue) chosen by the sample.
   */
  function Next(minValue: int, maxValue: int, u: UnitInterval): (r: Result<int>)
    ensures r.Failure? <==> maxValue < minValue
    ensures r.Failure? ==> r.error == ArgumentOutOfRange
    ensures r.Success? ==> minValue <= r.value <= maxValue
    ensures r.Success? && minValue < maxValue ==> r.value < maxValue
  {
    if maxValue < minValue then Failure(ArgumentOutOfRange)
    else
      var offset := u * (maxValue - minValue) as real;
      assert offset < (maxValue - minValue) as real || minValue == maxValue;
      Success(minValue + offset.Floor)
  }

  /**
   * A sample that makes `Next` draw a given value: every integer of a
   * non-empty range is reachable, so the model restricts nothing further.
   */
  function SampleFor(minValue: int, maxValue: int, v: int): (u: UnitInterval)
    requires minValue <= v < maxValue
    ensures Next(minValue, maxValue, u) == Success(v)
  {
    var width := (maxValue - minValue) as real;
    var u: UnitInterval := (v - minValue) as real / width;
    assert u * width == (v - minValue) as real;
    u
  }

  /** One per-tick displacement draw, `(NextDouble() - 0.5) * 10`. */
  function Delta(u: UnitInterval): (d: real)
    ensures -5.0 <= d < 5.0
    ensures d == 0.0 <==> u == 0.5
  {
    (u - 0.5) * 10.0
  }
}
