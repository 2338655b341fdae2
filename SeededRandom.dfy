/**
 * The seeded pseudo-random generator wrapper (`utils.SeededRandom`).
 *
 * `System.Random` is foreign code: a generator built from a seed is modelled
 * as the infinite stream of `NextDouble()` values it yields, and a
 * `SeededRandom` object as that stream plus a cursor. Every draw reads the
 * value under the cursor and advances it, so equal seeds give equal streams
 * and equal call sequences give equal results. The Box–Muller normal deviate
 * (logarithm, sine and square root on doubles) is likewise a parameter.
 */
module Random {
  import opened Wrappers

  const INT32_MIN: int := -0x8000_0000
  const INT32_MAX: int := 0x7fff_ffff

  /** A C# `int`. */
  type Int32 = x: int | INT32_MIN <= x <= INT32_MAX

  /** One `NextDouble()` draw: a real in [0, 1). */
  type Unit = r: real | 0.0 <= r < 1.0

  /** The draws a generator yields, by position. */
  type Stream = nat -> Unit

  /**
   * The foreign parts of random generation: the stream `new System.Random(seed)`
   * yields, and the standard normal deviate computed from two inputs in (0, 1].
   */
  datatype PrngSource = PrngSource(stream: int -> Stream, standardNormal: (real, real) -> real)

  /** Why a draw was refused. */
  datatype RandomError =
    | ArgumentOutOfRange(minValue: int, maxValue: int)
    | InvalidBounds(minInclusive: real, maxInclusive: real)

  /** `Next(minInclusive, maxExclusive)` on the draw `u`: the draw scaled onto the range and truncated. */
  function IntFromDraw(u: Unit, minInclusive: int, maxExclusive: int): (r: int)
    requires minInclusive <= maxExclusive
    ensures minInclusive <= r
    ensures minInclusive < maxExclusive ==> r < maxExclusive
    ensures minInclusive == maxExclusive ==> r == minInclusive
  {
    var x: real := u;
    var width := maxExclusive - minInclusive;
    assert 0.0 <= x * width as real <= width as real;
    assert minInclusive < maxExclusive ==> x * width as real < width as real;
    minInclusive + (x * width as real).Floor
  }

  /**
   * `System.Random` makes each `NextDouble()` from an internal sample in
   * [0, int.MaxValue), divided by `int.MaxValue`; this recovers the sample of a draw.
   */
  function InternalSample(u: Unit): (r: int)
    ensures 0 <= r < INT32_MAX
    ensures r as real <= u * INT32_MAX as real < (r + 1) as real
  {
    var x: real := u;
    assert x * INT32_MAX as real < INT32_MAX as real;
    (x * INT32_MAX as real).Floor
  }

  /** The middle value `GetSampleForLargeRange()` yields for a zero sample, either sign. */
  const LARGE_RANGE_MIDDLE: real := (INT32_MAX - 1) as real / (2 * INT32_MAX - 1) as real

  /**
   * `GetSampleForLargeRange()` of `System.Random` on the draws `u1`, `u2`: the
   * sample of `u1`, negated when the sample of `u2` is even, shifted by
   * `int.MaxValue - 1` and divided by `2 * int.MaxValue - 1`. An even second
   * sample lands the value at or below the middle, an odd one at or above it.
   */
  function LargeRangeSample(u1: Unit, u2: Unit): (r: Unit)
    ensures InternalSample(u2) % 2 == 0 ==> r <= LARGE_RANGE_MIDDLE
    ensures InternalSample(u2) % 2 != 0 ==> r >= LARGE_RANGE_MIDDLE
    ensures InternalSample(u1) == 0 ==> r == LARGE_RANGE_MIDDLE
  {
    var result := InternalSample(u1);
    var signed := if InternalSample(u2) % 2 == 0 then -result else result;
    var numerator := (signed + INT32_MAX - 1) as real;
    var denominator := (2 * INT32_MAX - 1) as real;
    assert 0.0 <= numerator < denominator;
    DivideMonotone(numerator, (INT32_MAX - 1) as real, denominator);
    DivideMonotone((INT32_MAX - 1) as real, numerator, denominator);
    numerator / denominator
  }

  /**
   * The large-range sample determines the first draw's sample, and, unless
   * that sample is zero, the sign the second draw chose.
   */
  lemma LargeRangeSampleDetermines(a1: Unit, a2: Unit, b1: Unit, b2: Unit)
    requires LargeRangeSample(a1, a2) == LargeRangeSample(b1, b2)
    ensures InternalSample(a1) == InternalSample(b1)
    ensures InternalSample(a1) != 0 ==> (InternalSample(a2) % 2 == 0 <==> InternalSample(b2) % 2 == 0)
  {
    var denominator := (2 * INT32_MAX - 1) as real;
    var sa := if InternalSample(a2) % 2 == 0 then -InternalSample(a1) else InternalSample(a1);
    var sb := if InternalSample(b2) % 2 == 0 then -InternalSample(b1) else InternalSample(b1);
    assert (sa + INT32_MAX - 1) as real / denominator == (sb + INT32_MAX - 1) as real / denominator;
    assert sa == sb;
  }

  lemma DivideMonotone(x: real, y: real, d: real)
    requires d > 0.0
    ensures x <= y ==> x / d <= y / d
  {
  }

  /**
   * `Next(minValue, maxValue)` from stream position `pos`. A range at most
   * `int.MaxValue` wide scales one draw; a wider one scales
   * `GetSampleForLargeRange()`, which takes two.
   */
  function NextInt(s: Stream, pos: nat, minValue: Int32, maxValue: Int32): (r: Int32)
    requires minValue <= maxValue
    ensures minValue <= r
    ensures minValue < maxValue ==> r < maxValue
    ensures minValue == maxValue ==> r == minValue
  {
    if maxValue - minValue <= INT32_MAX then IntFromDraw(s(pos), minValue, maxValue)
    else IntFromDraw(LargeRangeSample(s(pos), s(pos + 1)), minValue, maxValue)
  }

  /** How many draws `Next(minValue, maxValue)` consumes. */
  function NextIntDraws(minValue: int, maxValue: int): (n: nat)
    ensures n == 1 <==> maxValue - minValue <= INT32_MAX
    ensures n == 2 <==> maxValue - minValue > INT32_MAX
  {
    if maxValue - minValue <= INT32_MAX then 1 else 2
  }

  /**
   * `Next` reads only the draws it consumes: two streams that agree on those
   * give the same value.
   */
  lemma NextIntReadsItsDraws(s: Stream, t: Stream, pos: nat, minValue: Int32, maxValue: Int32)
    requires minValue <= maxValue
    requires s(pos) == t(pos)
    requires NextIntDraws(minValue, maxValue) == 2 ==> s(pos + 1) == t(pos + 1)
    ensures NextInt(s, pos, minValue, maxValue) == NextInt(t, pos, minValue, maxValue)
  {
  }

  /**
   * A range wider than `int.MaxValue` does not scale the draw under the
   * cursor: a zero draw, which a narrow range maps to its minimum, lands in
   * the middle of [-1, int.MaxValue).
   */
  lemma NextIntWideUsesSecondDraw(s: Stream, pos: nat)
    requires s(pos) == 0.0
    ensures NextInt(s, pos, -1, INT32_MAX) == INT32_MAX / 2 - 1
    ensures NextInt(s, pos, -1, INT32_MAX) != IntFromDraw(s(pos), -1, INT32_MAX)
  {
  }

  /** The affine remap of `GetFloat(minInclusive, maxInclusive)`. */
  function FloatFromDraw(u: Unit, minInclusive: real, maxInclusive: real): (r: real)
    ensures minInclusive < maxInclusive ==> minInclusive <= r < maxInclusive
    ensures minInclusive == maxInclusive ==> r == minInclusive
    ensures minInclusive > maxInclusive ==> maxInclusive < r <= minInclusive
  {
    var x: real := u;
    var delta := maxInclusive - minInclusive;
    assert delta > 0.0 ==> 0.0 <= x * delta < delta;
    assert delta < 0.0 ==> delta < x * delta <= 0.0;
    x * delta + minInclusive
  }

  /**
   * The deviate `GetGaussian(mean, stdev)` returns for draws `d1`, `d2`: the
   * standard deviate `z` of `1 - d1` and `1 - d2`, combined as the source
   * writes it, `z + mean + stdev * z`.
   */
  function GaussianFromDraws(standardNormal: (real, real) -> real, d1: Unit, d2: Unit, mean: real, stdev: real): real
  {
    var z := standardNormal(1.0 - d1, 1.0 - d2);
    z + mean + stdev * z
  }

  /** The `k`-th gaussian a rejection loop starting at position `start` computes (two draws each). */
  function NthCandidate(s: Stream, standardNormal: (real, real) -> real, start: nat, k: nat, mean: real, stdev: real): real
  {
    GaussianFromDraws(standardNormal, s(start + 2 * k), s(start + 2 * k + 1), mean, stdev)
  }

  predicate InRange(v: real, minInclusive: real, maxInclusive: real) {
    minInclusive <= v <= maxInclusive
  }

  /** The candidate `k` is the first one that lies in [min, max]. */
  ghost predicate FirstInRange(s: Stream, standardNormal: (real, real) -> real, start: nat, k: nat,
                               mean: real, stdev: real, minInclusive: real, maxInclusive: real)
  {
    && InRange(NthCandidate(s, standardNormal, start, k, mean, stdev), minInclusive, maxInclusive)
    && forall j: nat :: j < k ==> !InRange(NthCandidate(s, standardNormal, start, j, mean, stdev), minInclusive, maxInclusive)
  }

  /** `Next(min, max)` returns exactly the values of [min, max) and spreads the draws evenly over them. */
  lemma IntFromDrawPreimage(u: Unit, minInclusive: int, maxExclusive: int, k: int)
    requires minInclusive < maxExclusive
    ensures IntFromDraw(u, minInclusive, maxExclusive) == k <==>
      (k - minInclusive) as real <= (u as real) * (maxExclusive - minInclusive) as real < (k - minInclusive + 1) as real
  {
  }

  class SeededRandom {
    /** The seed the wrapped generator was built from. */
    const seed: int
    /** The foreign generator family the wrapped generator comes from. */
    const source: PrngSource
    /** How many draws have been consumed. */
    var position: nat

    /** The values `NextDouble()` of the wrapped generator yields, in order. */
    function Draws(): Stream {
      source.stream(seed)
    }

    /** `new SeededRandom(seed)`: a fresh generator at the start of the seed's stream. */
    constructor (seed: int, source: PrngSource)
      ensures this.seed == seed && this.source == source
      ensures position == 0
    {
      this.seed := seed;
      this.source := source;
      position := 0;
    }

    /** `NextDouble()` of the wrapped generator. */
    method NextDouble() returns (u: Unit)
      modifies this
      ensures u == Draws()(old(position)) && position == old(position) + 1
    {
      u := Draws()(position);
      position := position + 1;
    }

    method GetBool() returns (b: bool)
      modifies this
      ensures b <==> Draws()(old(position)) > 0.5
      ensures position == old(position) + 1
    {
      var u := NextDouble();
      b := u > 0.5;
    }

    /**
     * `GetInt(minInclusive, maxExclusive)`, that is `Next`: one draw for a range
     * up to `int.MaxValue` wide, two for a wider one. `System.Random` refuses a
     * minimum above the maximum.
     */
    method GetInt(minInclusive: Int32, maxExclusive: Int32) returns (r: Int32)
      requires minInclusive <= maxExclusive
      modifies this
      ensures minInclusive < maxExclusive ==> minInclusive <= r < maxExclusive
      ensures minInclusive == maxExclusive ==> r == minInclusive
      ensures r == NextInt(Draws(), old(position), minInclusive, maxExclusive)
      ensures position == old(position) + NextIntDraws(minInclusive, maxExclusive)
    {
      if maxExclusive - minInclusive <= INT32_MAX {
        var u := NextDouble();
        r := IntFromDraw(u, minInclusive, maxExclusive);
      } else {
        var u1 := NextDouble();
        var u2 := NextDouble();
        r := IntFromDraw(LargeRangeSample(u1, u2), minInclusive, maxExclusive);
      }
    }

    method GetFloat() returns (r: real)
      modifies this
      ensures 0.0 <= r < 1.0 && r == Draws()(old(position))
      ensures position == old(position) + 1
    {
      var u := NextDouble();
      r := u;
    }

    /** `GetFloat(minInclusive, maxInclusive)`: one `GetFloat()` remapped onto the range. */
    method GetFloatBetween(minInclusive: real, maxInclusive: real) returns (r: real)
      modifies this
      ensures r == Draws()(old(position)) * (maxInclusive - minInclusive) + minInclusive
      ensures r == FloatFromDraw(Draws()(old(position)), minInclusive, maxInclusive)
      ensures position == old(position) + 1
    {
      var f := GetFloat();
      var delta := maxInclusive - minInclusive;
      r := f * delta + minInclusive;
    }

    method GetDouble() returns (r: real)
      modifies this
      ensures 0.0 <= r < 1.0 && r == Draws()(old(position))
      ensures position == old(position) + 1
    {
      var u := NextDouble();
      r := u;
    }

    /** `GetGaussian(mean = 0, stdev = 1)`: consumes exactly two draws. */
    method GetGaussian(mean: real := 0.0, stdev: real := 1.0) returns (r: real)
      modifies this
      ensures r == GaussianFromDraws(source.standardNormal, Draws()(old(position)), Draws()(old(position) + 1), mean, stdev)
      ensures position == old(position) + 2
    {
      var d1: real := NextDouble();
      var d2: real := NextDouble();
      var z := source.standardNormal(1.0 - d1, 1.0 - d2);
      r := z + mean + stdev * z;
    }

    /**
     * `GetBoundedGaussian(min, max, mean = 0, stdev = 1)`. Equal bounds return the bound
     * without drawing; inverted bounds fail without drawing; otherwise gaussians
     * are drawn until one lies in [min, max]. The source's loop has no cap, so
     * it ends exactly when some later candidate of the stream lies in range;
     * the precondition states that, and only for the case that loops.
     */
    method GetBoundedGaussian(minInclusive: real, maxInclusive: real, mean: real := 0.0, stdev: real := 1.0)
      returns (r: Result<real, RandomError>)
      requires minInclusive < maxInclusive ==>
        exists k: nat :: InRange(NthCandidate(Draws(), source.standardNormal, position, k, mean, stdev), minInclusive, maxInclusive)
      modifies this
      ensures r.Ok? ==> minInclusive <= r.value <= maxInclusive
      ensures minInclusive == maxInclusive ==> r == Ok(minInclusive) && position == old(position)
      ensures minInclusive > maxInclusive ==>
        r == Err(InvalidBounds(minInclusive, maxInclusive)) && position == old(position)
      ensures minInclusive < maxInclusive ==> r.Ok?
      ensures minInclusive < maxInclusive ==>
        exists k: nat :: (FirstInRange(Draws(), source.standardNormal, old(position), k, mean, stdev, minInclusive, maxInclusive)
          && r == Ok(NthCandidate(Draws(), source.standardNormal, old(position), k, mean, stdev))
          && position == old(position) + 2 * (k + 1))
    {
      if minInclusive == maxInclusive {
        return Ok(minInclusive);
      } else if minInclusive > maxInclusive {
        return Err(InvalidBounds(minInclusive, maxInclusive));
      }
      var value := DrawUntilInRange(minInclusive, maxInclusive, mean, stdev);
      r := Ok(value);
    }

    /** The `while (true)` rejection loop of `GetBoundedGaussian`. */
    method DrawUntilInRange(minInclusive: real, maxInclusive: real, mean: real, stdev: real) returns (value: real)
      requires exists k: nat :: InRange(NthCandidate(Draws(), source.standardNormal, position, k, mean, stdev), minInclusive, maxInclusive)
      modifies this
      ensures exists k: nat :: (FirstInRange(Draws(), source.standardNormal, old(position), k, mean, stdev, minInclusive, maxInclusive)
        && value == NthCandidate(Draws(), source.standardNormal, old(position), k, mean, stdev)
        && position == old(position) + 2 * (k + 1))
    {
      ghost var start := position;
      ghost var hit: nat :| InRange(NthCandidate(Draws(), source.standardNormal, start, hit, mean, stdev), minInclusive, maxInclusive);
      ghost var tries: nat := 0;
      while true
        invariant position == start + 2 * tries
        invariant tries <= hit
        invariant forall j: nat :: j < tries ==>
          !InRange(NthCandidate(Draws(), source.standardNormal, start, j, mean, stdev), minInclusive, maxInclusive)
        decreases hit - tries
      {
        value := GetGaussian(mean, stdev);
        assert value == NthCandidate(Draws(), source.standardNormal, start, tries, mean, stdev);
        if InRange(value, minInclusive, maxInclusive) {
          assert FirstInRange(Draws(), source.standardNormal, start, tries, mean, stdev, minInclusive, maxInclusive);
          assert position == start + 2 * (tries + 1);
          return;
        }
        tries := tries + 1;
      }
    }
  }
}
