/** Generic numeric helpers of the game (`MathUtils`). */
module MathUtils {
  import opened Numeric
  import opened Wrappers

  /** Seconds in a Julian year, the factor of both unit conversions. */
  const SECONDS_PER_YEAR: real := 31557600.0

  /** Linear re-mapping of `value` from [fromMin, fromMax] onto [toMin, toMax]. */
  function Map(value: real, fromMin: real, fromMax: real, toMin: real, toMax: real): (r: real)
    requires fromMax != fromMin
    ensures value == fromMin ==> r == toMin
    ensures value == fromMax ==> r == toMax
  {
    toMin + (toMax - toMin) * ((value - fromMin) / (fromMax - fromMin))
  }

  /** `Math.max(min, Math.min(max, value))`. */
  function Clamp(value: real, min: real, max: real): (r: real)
    ensures min <= max ==> min <= r <= max
    ensures min <= value <= max ==> r == value
    ensures value < min ==> r == min
    ensures min <= max && max < value ==> r == max
  {
    Max(min, Min(max, value))
  }

  lemma ClampIdempotent(value: real, min: real, max: real)
    requires min <= max
    ensures Clamp(Clamp(value, min, max), min, max) == Clamp(value, min, max)
  {
  }

  /** Linear interpolation between `start` and `end`. */
  function Lerp(start: real, end: real, factor: real): (r: real)
    ensures factor == 0.0 ==> r == start
    ensures factor == 1.0 ==> r == end
  {
    start + (end - start) * factor
  }

  /** The mean `normalRange` uses when none is given: the middle of the range. */
  function DefaultMean(min: real, max: real): real {
    (min + max) / 2.0
  }

  /** The deviation `normalRange` uses when none is given: a sixth of the range. */
  function DefaultStdDev(min: real, max: real): real {
    (max - min) / 6.0
  }

  /** Whether `normalRange`'s loop stops at `value` (it repeats while `value < min || value > max`). */
  predicate Accepts(value: real, min: real, max: real) {
    !(value < min || value > max)
  }

  /** The sample `normalDistribution(mean, stdDev)` yields for the standard-normal variate `z`. */
  function Sample(min: real, max: real, mean: Option<real>, stdDev: Option<real>, z: real): real {
    mean.GetOr(DefaultMean(min, max)) + stdDev.GetOr(DefaultStdDev(min, max)) * z
  }

  /**
   * `normalRange(min, max, mean, stdDev)`: draw from N(mean, stdDev) until a value in
   * [min, max] comes up. `draws` are the standard-normal variates that
   * `normalDistribution` would produce in turn; the source keeps drawing for ever,
   * the model returns None when `draws` runs out.
   */
  method NormalRange(min: real, max: real, mean: Option<real>, stdDev: Option<real>, draws: seq<real>)
    returns (r: Option<real>)
    ensures r.Some? ==> min <= r.value <= max
    ensures r.Some? ==>
      exists k :: 0 <= k < |draws| && r.value == Sample(min, max, mean, stdDev, draws[k])
        && forall j :: 0 <= j < k ==> !Accepts(Sample(min, max, mean, stdDev, draws[j]), min, max)
    ensures r.None? <==>
      forall j :: 0 <= j < |draws| ==> !Accepts(Sample(min, max, mean, stdDev, draws[j]), min, max)
  {
    var k := 0;
    while k < |draws|
      invariant 0 <= k <= |draws|
      invariant forall j :: 0 <= j < k ==> !Accepts(Sample(min, max, mean, stdDev, draws[j]), min, max)
    {
      var value := Sample(min, max, mean, stdDev, draws[k]);
      if Accepts(value, min, max) {
        r := Some(value);
        return;
      }
      k := k + 1;
    }
    r := None;
  }

  /** With the default mean and deviation, a variate is accepted exactly when it lies within three deviations. */
  lemma DefaultAcceptsWithinThreeSigma(min: real, max: real, z: real)
    requires min < max
    ensures Accepts(DefaultMean(min, max) + DefaultStdDev(min, max) * z, min, max) <==> -3.0 <= z <= 3.0
  {
    var v := DefaultMean(min, max) + DefaultStdDev(min, max) * z;
    var w := max - min;
    assert v == min + w / 2.0 + w * z / 6.0;
    assert v - min == w * (3.0 + z) / 6.0;
    assert max - v == w * (3.0 - z) / 6.0;
    assert v >= min <==> 3.0 + z >= 0.0 by {
      assert w > 0.0;
      if 3.0 + z >= 0.0 { assert w * (3.0 + z) >= 0.0; } else { assert w * (3.0 + z) < 0.0; }
    }
    assert v <= max <==> 3.0 - z >= 0.0 by {
      assert w > 0.0;
      if 3.0 - z >= 0.0 { assert w * (3.0 - z) >= 0.0; } else { assert w * (3.0 - z) < 0.0; }
    }
  }

  function YearsToSeconds(years: real): (s: real)
    ensures years >= 0.0 ==> s >= years
  {
    years * SECONDS_PER_YEAR
  }

  function SecondsToYears(seconds: real): (y: real)
    ensures seconds >= 0.0 ==> 0.0 <= y <= seconds
  {
    seconds / SECONDS_PER_YEAR
  }

  lemma YearsSecondsRoundTrip(years: real, seconds: real)
    ensures SecondsToYears(YearsToSeconds(years)) == years
    ensures YearsToSeconds(SecondsToYears(seconds)) == seconds
  {
  }

  /** Euclidean distance in the plane. */
  function Distance2D(m: MathLib, x1: real, y1: real, x2: real, y2: real): (d: real)
    requires m.Lawful()
    ensures d >= 0.0
    ensures x1 == x2 && y1 == y2 ==> d == 0.0
  {
    var s := (x2 - x1) * (x2 - x1) + (y2 - y1) * (y2 - y1);
    assert s >= 0.0;
    m.sqrt(s)
  }

  lemma Distance2DSymmetric(m: MathLib, x1: real, y1: real, x2: real, y2: real)
    requires m.Lawful()
    ensures Distance2D(m, x1, y1, x2, y2) == Distance2D(m, x2, y2, x1, y1)
  {
    assert (x2 - x1) * (x2 - x1) == (x1 - x2) * (x1 - x2);
    assert (y2 - y1) * (y2 - y1) == (y1 - y2) * (y1 - y2);
  }
}
