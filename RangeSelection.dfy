/**
 * Range descriptors that sample themselves from a `SeededRandom`
 * (`utils.RangeSelection`). The integer range is one datatype; the three
 * real-valued descriptors are the variants of another, so that the bounded
 * gaussian is the gaussian with a different sampling strategy rather than a
 * subclass overriding `Sample`.
 */
module RangeSelection {
  import opened Wrappers
  import opened Random

  /** `MinMaxInt`: an integer range whose maximum is inclusive. */
  datatype MinMaxInt = MinMaxInt(minimum: Int32, maximum: Int32)

  /**
   * `MinMaxFloat`, `Gaussian` (mean 0 and standard deviation 1 unless given) and
   * `MinMaxGaussian` (a `Gaussian` confined to [minimum, maximum]).
   */
  datatype RealSampler =
    | MinMaxFloat(minimum: real, maximum: real)
    | Gaussian(mean: real := 0.0, stdev: real := 1.0)
    | MinMaxGaussian(minimum: real, maximum: real, mean: real, stdev: real)

  /** C# `int` arithmetic: the value modulo 2^32, in the signed range. */
  function WrapInt32(x: int): (r: Int32)
    ensures INT32_MIN <= x <= INT32_MAX ==> r == x
    ensures (x - r) % 0x1_0000_0000 == 0
  {
    (x - INT32_MIN) % 0x1_0000_0000 + INT32_MIN
  }

  /** The exclusive bound `maximum + 1` that `MinMaxInt.Sample` hands to `GetInt`; it wraps at `int.MaxValue`. */
  function ExclusiveUpper(maximum: Int32): (r: Int32)
    ensures maximum < INT32_MAX ==> r == maximum + 1
    ensures maximum == INT32_MAX ==> r == INT32_MIN
  {
    WrapInt32(maximum + 1)
  }

  /**
   * What `MinMaxInt.Sample` yields on the draws from position `pos`:
   * `GetInt(minimum, maximum + 1)`, which `System.Random` refuses when the
   * wrapped bound lies below the minimum.
   */
  function SampleIntFromDraws(range: MinMaxInt, s: Stream, pos: nat): (r: Result<int, RandomError>)
    ensures r.Err? <==> ExclusiveUpper(range.maximum) < range.minimum
    ensures r.Ok? && range.minimum <= range.maximum ==> range.minimum <= r.value <= range.maximum
    ensures range.minimum <= range.maximum < INT32_MAX ==> r.Ok?
    ensures range.minimum > INT32_MIN && range.maximum == INT32_MAX ==> r.Err?
    ensures range.minimum == range.maximum + 1 ==> r == Ok(range.minimum)
    ensures range.minimum <= range.maximum < INT32_MAX && range.maximum - range.minimum < INT32_MAX ==>
      r == Ok(IntFromDraw(s(pos), range.minimum, range.maximum + 1))
    ensures range.minimum <= range.maximum < INT32_MAX && range.maximum - range.minimum >= INT32_MAX ==>
      r == Ok(IntFromDraw(LargeRangeSample(s(pos), s(pos + 1)), range.minimum, range.maximum + 1))
  {
    var upper := ExclusiveUpper(range.maximum);
    if upper < range.minimum then Err(ArgumentOutOfRange(range.minimum, upper))
    else Ok(NextInt(s, pos, range.minimum, upper))
  }

  /** How many draws `MinMaxInt.Sample` consumes: none when refused, else those of `Next`. */
  function SampleIntDraws(range: MinMaxInt): (n: nat)
    ensures n <= 2
    ensures n == 0 <==> ExclusiveUpper(range.maximum) < range.minimum
    ensures range.minimum <= range.maximum < INT32_MAX ==> (n == 2 <==> range.maximum - range.minimum >= INT32_MAX)
  {
    var upper := ExclusiveUpper(range.maximum);
    if upper < range.minimum then 0 else NextIntDraws(range.minimum, upper)
  }

  /** `MinMaxInt.Sample(seededRandom)`: one or two draws unless the range is refused. */
  method SampleInt(range: MinMaxInt, rng: SeededRandom) returns (r: Result<int, RandomError>)
    modifies rng
    ensures r == SampleIntFromDraws(range, rng.Draws(), old(rng.position))
    ensures r.Ok? && range.minimum <= range.maximum ==> range.minimum <= r.value <= range.maximum
    ensures rng.position == old(rng.position) + SampleIntDraws(range)
  {
    var upper := ExclusiveUpper(range.maximum);
    if upper < range.minimum {
      return Err(ArgumentOutOfRange(range.minimum, upper));
    }
    var v := rng.GetInt(range.minimum, upper);
    r := Ok(v);
  }

  /**
   * `Sample(seededRandom)` of the real-valued descriptors. A bounded gaussian
   * with a non-empty range loops until a candidate lies in range; the
   * precondition says that the stream has one.
   */
  method Sample(sampler: RealSampler, rng: SeededRandom) returns (r: Result<real, RandomError>)
    requires sampler.MinMaxGaussian? && sampler.minimum < sampler.maximum ==>
      exists k: nat :: InRange(NthCandidate(rng.Draws(), rng.source.standardNormal, rng.position, k, sampler.mean, sampler.stdev),
                               sampler.minimum, sampler.maximum)
    modifies rng
    ensures sampler.MinMaxFloat? ==>
      r == Ok(FloatFromDraw(rng.Draws()(old(rng.position)), sampler.minimum, sampler.maximum))
      && rng.position == old(rng.position) + 1
    ensures sampler.Gaussian? ==>
      r == Ok(GaussianFromDraws(rng.source.standardNormal, rng.Draws()(old(rng.position)), rng.Draws()(old(rng.position) + 1),
                                sampler.mean, sampler.stdev))
      && rng.position == old(rng.position) + 2
    ensures sampler.MinMaxGaussian? ==> (r.Ok? ==> sampler.minimum <= r.value <= sampler.maximum)
    ensures sampler.MinMaxGaussian? ==> (r.Err? <==> sampler.minimum > sampler.maximum)
    ensures sampler.MinMaxGaussian? && sampler.minimum == sampler.maximum ==>
      r == Ok(sampler.minimum) && rng.position == old(rng.position)
    ensures sampler.MinMaxGaussian? && sampler.minimum > sampler.maximum ==>
      r == Err(InvalidBounds(sampler.minimum, sampler.maximum)) && rng.position == old(rng.position)
    ensures sampler.MinMaxGaussian? && sampler.minimum < sampler.maximum ==>
      exists k: nat ::
        && FirstInRange(rng.Draws(), rng.source.standardNormal, old(rng.position), k, sampler.mean, sampler.stdev,
                        sampler.minimum, sampler.maximum)
        && r == Ok(NthCandidate(rng.Draws(), rng.source.standardNormal, old(rng.position), k, sampler.mean, sampler.stdev))
        && rng.position == old(rng.position) + 2 * (k + 1)
  {
    match sampler
    case MinMaxFloat(minimum, maximum) =>
      var v := rng.GetFloatBetween(minimum, maximum);
      r := Ok(v);
    case Gaussian(mean, stdev) =>
      var v := rng.GetGaussian(mean, stdev);
      r := Ok(v);
    case MinMaxGaussian(minimum, maximum, mean, stdev) =>
      r := rng.GetBoundedGaussian(minimum, maximum, mean, stdev);
  }
}
