# santa-sim core in Dafny

A model of the deterministic core of the santa-sim game: the state of one
game (`game.GameState`) with its ledger of gold, hearts and time, its day
cycle up to Christmas and its tree of random seeds; the `Currency` value
and its text; the seeded random generator wrapper (`utils.SeededRandom`);
weighted selection without replacement (`utils.WeightedSelection`); and the
range descriptors that sample themselves (`utils.RangeSelection`).

Modules, one per file:

- `Wrappers` holds `Option`, `Result` and `Outcome`. A thrown exception is an
  `Err`/`Fail` result. A `GameError` carries the exception's message; a
  `RandomError` carries the arguments that were refused, not the message text.
- `SimTime` holds `logic.sim.Time` and `Duration` as integer milliseconds.
  `Elapsed(a, b)` is `b - a`. `After` and `Longer` are strict `>`.
- `Rounding` holds `Mathf.RoundToInt` on exact reals: nearest integer, ties
  to even.
- `Random` models `SeededRandom` as a class. The wrapped `System.Random` is
  identified by its seed and by a `PrngSource`. That source supplies the
  infinite stream of `NextDouble()` values a seed yields, and the Box–Muller
  standard deviate. The class keeps a cursor, `position`, into that stream.
  Every method states its result as a function of the draws under the
  cursor, and how far it moves the cursor. `Next(min, max)` takes one draw
  for a range up to `int.MaxValue` wide. A wider range goes through
  `System.Random`'s `GetSampleForLargeRange`, which takes two draws and
  rebuilds the generator's internal samples from them.
- `RangeSelection` models the four descriptors as two datatypes and their
  `Sample` methods. `MinMaxInt` is one datatype. `MinMaxFloat`, `Gaussian`
  and `MinMaxGaussian` are the variants of `RealSampler`; the bounded
  gaussian is a variant, not a subclass.
- `WeightedSelection` models `SelectWeighted` on a `List` class whose
  `Remove`/`RemoveAt` change it in place. The functions `ScanFrom`,
  `RoundOnce`, `WeightedRounds` and `Selection` state the algorithm on the
  draw stream. The methods, with their `for` and `while` loops, are proved
  to compute exactly those functions.
- `GameCurrency` models `Currency`, its scaling constructor and `ToString`.
- `Game` models `GameState` as a class with the source's fields. The
  listeners are a `signals` log of the notifications raised, in order.
  `string.GetHashCode` and `System.Random` are constants of the state
  (`hash`, `source`).

Behaviour of the code worth noting:

- The constructor sets `numGames` to 0 after its own reset. The first
  `ResetState` a caller makes therefore leaves it at 1, not at 2.
- `GetGaussian` returns `z + mean + stdev * z`, as written, not
  `mean + stdev * z`.
- In one pass of `SelectWeighted`, a rejected hit is removed and the scan
  moves on to the next index of the shortened list. The candidate that moved
  into the freed slot is passed over in that pass
  (`RejectedHitSkipsShiftedCandidate`).
- `MinMaxInt.Sample` passes `maximum + 1` as a C# `int`. At `int.MaxValue`
  this wraps to `int.MinValue`, and `System.Random` then refuses the range,
  unless the minimum is `int.MinValue` too, when the sample is `int.MinValue`.
- A `MinMaxInt` whose maximum exceeds its minimum by `int.MaxValue` or more
  hands `Next` a range wider than `int.MaxValue`. The sample then takes two
  draws through the large-range path, not one.

## Model

| member | source | states |
|---|---|---|
| GameCurrency.Scaled | Assets/Scripts/game/GameState.cs:25-36 | the hearts are copied, not scaled. Gold is the scaled gold rounded, within 0.5. Without `roundToMinutes` the duration is the scaled duration within 0.5 ms. With it, the duration is a whole number of minutes within half a minute (plus 0.5 ms) of the scaled duration |
| GameCurrency.NatToString | Assets/Scripts/game/GameState.cs:43 | the decimal text of a count is non-empty, all digits, and has a leading zero only for 0 |
| GameCurrency.ParseNatToString | Assets/Scripts/game/GameState.cs:43 | reading the decimal text of a number back gives the number |
| GameCurrency.TwoDigitsRoundTrip | Assets/Scripts/game/GameState.cs:55-62 | the minutes, below 60, are zero-padded to exactly two digits that read back as the minutes |
| GameCurrency.DurationTextRoundTrip | Assets/Scripts/game/GameState.cs:53-62 | the time is written `H:MM`: digits, a colon, two digits below 60. Hours times 60 plus minutes is the whole minutes of the duration |
| GameCurrency.HeartsPlural | Assets/Scripts/game/GameState.cs:51 | the hearts text ends in "s" exactly when there is more than one heart |
| GameCurrency.ToStringIsEnglishList | Assets/Scripts/game/GameState.cs:38-66 | the text is the positive gold and hearts joined by ", ", then " and " before the time when there is one |
| GameCurrency.ToStringEmpty | Assets/Scripts/game/GameState.cs:38-66 | the text is empty exactly when gold, hearts and duration are all non-positive |
| GameCurrency.ToStringSample | Assets/Scripts/game/GameState.cs:38-66 | 1500 gold, 2 hearts and 65 minutes read "1500 gold, 2 hearts and 1:05" |
| GameCurrency.ToString | Assets/Scripts/game/GameState.cs:38-66 | the gold text, when the gold is positive, starts the text, and the time, when the duration is positive, ends it |
| GameCurrency.AllPartsShown | Assets/Scripts/game/GameState.cs:38-66 | with all three parts positive the text is the gold, ", ", the hearts, " and ", the time |
| GameCurrency.GoldText | Assets/Scripts/game/GameState.cs:43 | the gold text is decimal digits followed by " gold" |
| GameCurrency.HeartsText | Assets/Scripts/game/GameState.cs:51 | the hearts text is decimal digits followed by " heart", with an "s" when there is more than one |
| GameCurrency.AmountTextRoundTrip | Assets/Scripts/game/GameState.cs:41-52 | the digits in front of " gold" and of " heart(s)" read back as the gold and the hearts |
| GameCurrency.DurationText | Assets/Scripts/game/GameState.cs:53-62 | the time text has at least four characters, with the colon third from the end |
| GameCurrency.TwoDigits | Assets/Scripts/game/GameState.cs:62 | the padded minutes are at least two digits, and exactly two below 100 |
| Rounding.RoundToInt | Assets/Scripts/game/GameState.cs:27-33 | the result is within 0.5 of the argument, and is even when exactly 0.5 away |
| Rounding.RoundToIntUnique | Assets/Scripts/game/GameState.cs:27-33 | those two conditions determine the result: any integer that meets them is `RoundToInt` |
| Random.IntFromDraw | Assets/Scripts/utils/SeededRandom.cs:24-27 | `Next(min, max)` scales a sample in [0, 1) onto the range and truncates: the value lies in [min, max), and is `min` when the range is empty |
| Random.IntFromDrawPreimage | Assets/Scripts/utils/SeededRandom.cs:24-27 | for a scaled sample, the value is `k` exactly when the sample lies in [k - min, k - min + 1): each value gets an equal share of the samples |
| Random.InternalSample | Assets/Scripts/utils/SeededRandom.cs:24-27 | the internal sample behind a draw lies in [0, `int.MaxValue`), and the draw times `int.MaxValue` lies in [sample, sample + 1) |
| Random.LargeRangeSample | Assets/Scripts/utils/SeededRandom.cs:24-27 | `GetSampleForLargeRange` on two draws, a value in [0, 1). An even second sample puts it at or below (`int.MaxValue` - 1) / (2 `int.MaxValue` - 1), an odd one at or above; a zero first sample puts it exactly there |
| Random.LargeRangeSampleDetermines | Assets/Scripts/utils/SeededRandom.cs:24-27 | equal large-range samples come from equal first samples and, unless that sample is zero, from second samples of the same parity |
| Random.NextInt | Assets/Scripts/utils/SeededRandom.cs:24-27 | `Next(min, max)` from a stream position, on either path: the value lies in [min, max), and is `min` when the range is empty |
| Random.NextIntReadsItsDraws | Assets/Scripts/utils/SeededRandom.cs:24-27 | `Next` reads no draw beyond those it consumes: two streams that agree on the draw under the cursor and, for a range wider than `int.MaxValue`, on the next one give the same value |
| Random.NextIntWideUsesSecondDraw | Assets/Scripts/utils/SeededRandom.cs:24-27 | over [-1, `int.MaxValue`), a zero draw gives `int.MaxValue / 2 - 1`, not the -1 the one-draw path would give |
| Random.FloatFromDraw | Assets/Scripts/utils/SeededRandom.cs:34-38 | the remapped draw lies in [min, max) for an ascending range, is `min` for an empty one, and lies in (max, min] for an inverted one |
| Random.SeededRandom.constructor | Assets/Scripts/utils/SeededRandom.cs:14-17 | a new generator sits at the start of its seed's stream |
| Random.SeededRandom.NextDouble | Assets/Scripts/utils/SeededRandom.cs:21 | `NextDouble()` of the wrapped generator is the draw under the cursor, which moves by one |
| Random.SeededRandom.GetBool | Assets/Scripts/utils/SeededRandom.cs:19-22 | true exactly when the draw under the cursor exceeds 0.5; one draw is consumed |
| Random.SeededRandom.GetInt | Assets/Scripts/utils/SeededRandom.cs:24-27 | takes C# `int` bounds. The result lies in [min, max) (or is `min` when they are equal) and is `NextInt` at the cursor. The cursor moves by one for a range up to `int.MaxValue` wide and by two for a wider one |
| Random.SeededRandom.GetFloat | Assets/Scripts/utils/SeededRandom.cs:29-32 | the draw under the cursor, in [0, 1); one draw is consumed |
| Random.SeededRandom.GetFloatBetween | Assets/Scripts/utils/SeededRandom.cs:34-38 | equals `GetFloat() * (max - min) + min` on the same draw; one draw is consumed |
| Random.SeededRandom.GetDouble | Assets/Scripts/utils/SeededRandom.cs:40-43 | the draw under the cursor, in [0, 1); one draw is consumed |
| Random.SeededRandom.GetGaussian | Assets/Scripts/utils/SeededRandom.cs:45-53 | the deviate of the two draws under the cursor, combined as `z + mean + stdev * z`; exactly two draws are consumed. `mean` and `stdev` default to 0 and 1 |
| Random.SeededRandom.GetBoundedGaussian | Assets/Scripts/utils/SeededRandom.cs:55-74 | equal bounds return the bound and draw nothing. Inverted bounds fail and draw nothing. Otherwise the result is the first candidate of the stream in [min, max], after two draws per candidate tried. Any result lies in [min, max]. `mean` and `stdev` default to 0 and 1 |
| Random.SeededRandom.DrawUntilInRange | Assets/Scripts/utils/SeededRandom.cs:66-73 | the rejection loop returns the first in-range candidate and stops right after it |
| RangeSelection.ExclusiveUpper | Assets/Scripts/utils/RangeSelection.cs:26 | `maximum + 1` as a C# `int`: exact below `int.MaxValue`, `int.MinValue` at it |
| RangeSelection.SampleIntFromDraws | Assets/Scripts/utils/RangeSelection.cs:24-27 | fails exactly when the exclusive bound falls below the minimum. A non-empty range yields a value within [minimum, maximum] inclusive. Every non-empty range with maximum below `int.MaxValue` succeeds, and a range ending at `int.MaxValue` fails unless it starts at `int.MinValue`. A range spanning fewer than `int.MaxValue` steps scales the draw under the cursor; a wider one scales the large-range sample of the next two draws |
| RangeSelection.SampleIntDraws | Assets/Scripts/utils/RangeSelection.cs:24-27 | `MinMaxInt.Sample` draws nothing exactly when the range is refused, and at most two draws otherwise. Below `int.MaxValue` it takes two exactly when maximum - minimum is at least `int.MaxValue` |
| RangeSelection.SampleInt | Assets/Scripts/utils/RangeSelection.cs:24-27 | `MinMaxInt.Sample`: the value of `SampleIntFromDraws` at the cursor, which moves as `SampleIntDraws` says |
| RangeSelection.Sample | Assets/Scripts/utils/RangeSelection.cs:47-92 | `MinMaxFloat` is `GetFloat(minimum, maximum)` and `Gaussian` is `GetGaussian(mean, stdev)`, with their draws; a `Gaussian` defaults to mean 0 and deviation 1. `MinMaxGaussian` is `GetBoundedGaussian`: equal bounds give the bound without drawing, inverted bounds fail without drawing, and otherwise the result is the first in-range candidate after two draws per candidate tried |
| WeightedSelection.RemoveFirst | Assets/Scripts/utils/WeightedSelection.cs:71 | `List.Remove` drops one occurrence of a present element and leaves an absent one's list as it was |
| WeightedSelection.FirstIndex | Assets/Scripts/utils/WeightedSelection.cs:71 | the index of the first occurrence of an element present in the list |
| WeightedSelection.RemoveFirstAt | Assets/Scripts/utils/WeightedSelection.cs:71 | `List.Remove` takes out exactly the first occurrence and keeps every other element in order |
| WeightedSelection.List.constructor | Assets/Scripts/utils/WeightedSelection.cs:38-46 | `new List<T>(options)` holds exactly the given elements |
| WeightedSelection.List.Remove | Assets/Scripts/utils/WeightedSelection.cs:71 | the list becomes `RemoveFirst` of what it was |
| WeightedSelection.List.RemoveAt | Assets/Scripts/utils/WeightedSelection.cs:88 | the list loses exactly the element at the index; the rest keep their order |
| WeightedSelection.ScanFrom | Assets/Scripts/utils/WeightedSelection.cs:64-84 | a pass keeps only some of the candidates. A pass that hit nothing leaves the list as it was, and one that hit something shrank it. A selection was hit, accepted and among the candidates |
| WeightedSelection.RoundOnce | Assets/Scripts/utils/WeightedSelection.cs:59-89 | every iteration of the `while` loop removes at least one candidate and consumes one or two draws. What it selects was accepted |
| WeightedSelection.WeightedRounds | Assets/Scripts/utils/WeightedSelection.cs:57-90 | the loop ends with an accepted candidate, which it has removed from the list, or with an empty list, after at most two draws per original candidate |
| WeightedSelection.Selection | Assets/Scripts/utils/WeightedSelection.cs:53-97 | the result is one of the options. It was accepted, or the list was exhausted and it is the uniform pick drawn first. When no option is acceptable it is that pick. The list left over, with the result added back, is a sub-multiset of the options: the result was taken out of the list |
| WeightedSelection.ScanRemovesSelected | Assets/Scripts/utils/WeightedSelection.cs:64-84 | the candidate a pass selects has been taken out of the list: the list left over, with it added back, is a sub-multiset of the candidates |
| WeightedSelection.ScanHitRemovesSelected | Assets/Scripts/utils/WeightedSelection.cs:69-78 | the same, for a pass whose current candidate is hit |
| WeightedSelection.RoundOnceRemovesSelected | Assets/Scripts/utils/WeightedSelection.cs:59-89 | the candidate one iteration of the `while` loop selects has been taken out of the list, in the same sense |
| WeightedSelection.NonNegativeWeightsHitEveryPass | Assets/Scripts/utils/WeightedSelection.cs:64-89 | with non-negative weights every pass hits a candidate: the blind removal is never taken, and the pass costs exactly one draw |
| WeightedSelection.NonNegativeWeightsDrawOncePerCandidate | Assets/Scripts/utils/WeightedSelection.cs:57-90 | with non-negative weights the whole loop draws at most once per candidate |
| WeightedSelection.SelectionAcceptingAnyIsCumulative | Assets/Scripts/utils/WeightedSelection.cs:48-84 | accepting everything, the result is the candidate whose cumulative-weight slice holds the drawn value, after exactly two draws |
| WeightedSelection.RejectedHitSkipsShiftedCandidate | Assets/Scripts/utils/WeightedSelection.cs:66-84 | on [1, 2, 3] with unit weights and an accepter refusing 1: 1 is hit and rejected, 2 moves into its slot and is skipped, and 3 is selected |
| WeightedSelection.ScanTriesWithinTotal | Assets/Scripts/utils/WeightedSelection.cs:64-84 | a value no larger than the remaining weight always hits some candidate |
| WeightedSelection.SelectWeighted | Assets/Scripts/utils/WeightedSelection.cs:53-97 | on the caller's list, the result, the list left over and the draws consumed are exactly those of `Selection` |
| WeightedSelection.Fallback | Assets/Scripts/utils/WeightedSelection.cs:55 | the uniform pick is one of the options |
| WeightedSelection.DrawFallback | Assets/Scripts/utils/WeightedSelection.cs:55 | the pick is `Fallback` at the cursor, which moves by one; the list is not changed |
| WeightedSelection.Round | Assets/Scripts/utils/WeightedSelection.cs:59-89 | one iteration of the `while` loop, in place: the selection, the list left over and the cursor are those of `RoundOnce` |
| WeightedSelection.DropBlindPick | Assets/Scripts/utils/WeightedSelection.cs:85-89 | when a pass tried nothing, the candidate at the drawn index is removed, the rest keep their order, and the cursor moves by one |
| WeightedSelection.SelectionLoop | Assets/Scripts/utils/WeightedSelection.cs:57-90 | the `while` loop computes `WeightedRounds` in place on the list |
| WeightedSelection.Pass | Assets/Scripts/utils/WeightedSelection.cs:64-84 | the `for` loop leaves the list, the `tried` flag and the selection exactly as `ScanFrom` says |
| WeightedSelection.SumWeights | Assets/Scripts/utils/WeightedSelection.cs:59-63 | the `foreach` total is the summed weight of the candidates |
| WeightedSelection.SelectWeightedAll | Assets/Scripts/utils/WeightedSelection.cs:48-51 | the list overload without an accepter is `Selection` with every option acceptable |
| WeightedSelection.SelectWeightedArray | Assets/Scripts/utils/WeightedSelection.cs:43-46 | the array overload returns the selection of its contents and leaves the array unchanged |
| WeightedSelection.SelectWeightedArrayAll | Assets/Scripts/utils/WeightedSelection.cs:38-41 | the same, with every option acceptable |
| Game.SeedAt | Assets/Scripts/game/GameState.cs:239-242 | every seed drawn lies in [0, int.MaxValue) |
| Game.GenerateRandomSeed | Assets/Scripts/game/GameState.cs:239-242 | the seed is the one `SeedAt` gives at the cursor, which moves by one |
| Game.DailySeedsAt | Assets/Scripts/game/GameState.cs:228-232 | the i-th daily seed is the draw right after the generation seed and the i daily seeds before it |
| Game.DailySeeds | Assets/Scripts/game/GameState.cs:228-232 | there are exactly as many daily seeds as asked for, each in [0, int.MaxValue) |
| Game.CeilDays | Assets/Scripts/game/GameState.cs:226 | the least whole number of days covering a duration |
| Game.CeilDaysUnique | Assets/Scripts/game/GameState.cs:226 | that bound determines the day count |
| Game.SeedCount | Assets/Scripts/game/GameState.cs:224-232 | some daily seed is drawn exactly when the start is before Christmas |
| Game.SeedCountNextDay | Assets/Scripts/game/GameState.cs:224-232 | a day later, one daily seed fewer is needed |
| Game.DayWindowEnd | Assets/Scripts/game/GameState.cs:280-287 | the day end lies after the start, at most one day after it, no later than Christmas, and a whole number of days before Christmas |
| Game.DayWindowEndUnique | Assets/Scripts/game/GameState.cs:280-287 | those conditions determine the day end |
| Game.NextDayWindow | Assets/Scripts/game/GameState.cs:270-295 | before Christmas, the next day's window ends exactly one day later |
| Game.DefaultCalendar | Assets/Scripts/game/GameStateBehavior.cs:8-10 | the default start draws five daily seeds, and Santa arrives one hour before Christmas. The first day ends at 1640073600000 |
| Game.DailyGold | Assets/Scripts/game/GameState.cs:297-317 | with no upgrades the income is the base income |
| Game.SpecialsIncomeClosedForm | Assets/Scripts/game/GameState.cs:304-314 | the specials of one upgrade add half the gold (rounded) per CompoundInterest, and the base income per ExtraIncome |
| Game.DailyGoldClosedForm | Assets/Scripts/game/GameState.cs:297-317 | the income is the base, plus half the gold (rounded) per CompoundInterest special, plus the base again per ExtraIncome special, over all upgrades. Both read the fields as they were before the call |
| Game.GameState.constructor | Assets/Scripts/game/GameState.cs:160-164 | `numGames` is 0, the parameters and empty rosters are stored, and the calendar holds. The first day has started: its seed is popped, its generators are fresh and undrawn, and the gold is the given gold plus the daily income |
| Game.GameState.Create | Assets/Scripts/game/GameState.cs:160-193 | construction fails, with the out-of-seeds message, exactly when the start is not before Christmas. Otherwise it yields the constructor's state |
| Game.GameState.ResetState | Assets/Scripts/game/GameState.cs:166-193 | `numGames` goes up by one, the parameters and empty rosters are stored, the seed tree is redrawn from the hashed seed string, and the calendar holds. Before Christmas the first day starts and the reset is announced. Otherwise `StartDay` fails after the fields are set |
| Game.GameState.SetParameters | Assets/Scripts/game/GameState.cs:170-184 | the parameters are stored, the simulation lasts from Santa's arrival to Christmas, and the four rosters are empty |
| Game.GameState.ResetFields | Assets/Scripts/game/GameState.cs:170-189 | after the assignments, the seed tree is drawn from the hashed seed string and the calendar holds. The start is clamped at Christmas, and `numGames` is untouched |
| Game.GameState.StartFirstDay | Assets/Scripts/game/GameState.cs:190-192 | fails, changing nothing, exactly when the start is at or after Christmas. Otherwise the first day starts and change, new day, reset and change are announced in that order |
| Game.GameState.AddPrepper | Assets/Scripts/game/GameState.cs:195-199 | the prepper is appended and a change is announced; nothing else changes |
| Game.GameState.AddMover | Assets/Scripts/game/GameState.cs:201-205 | the mover is appended and a change is announced; nothing else changes |
| Game.GameState.AddUpgrade | Assets/Scripts/game/GameState.cs:207-211 | the upgrade is appended and a change is announced; nothing else changes |
| Game.GameState.AddMetrics | Assets/Scripts/game/GameState.cs:213-216 | the metrics are appended, silently; nothing else changes |
| Game.GameState.GenerateRandomSeeds | Assets/Scripts/game/GameState.cs:218-237 | the draws from the hashed seed string come in fixed order: the generation seed, then one seed per remaining day (part days included), then the simulation seed |
| Game.GameState.StartDay | Assets/Scripts/game/GameState.cs:244-268 | fails, changing nothing, exactly when no daily seed is left. Otherwise: the front seed is popped and the rest stay in order; the clock is set to the day start; the four generators are fresh, undrawn, and seeded from the game-wide seeds and the popped seed's first two draws; the gold gains the daily income; change and new day are announced |
| Game.GameState.MakeDayRandoms | Assets/Scripts/game/GameState.cs:252-262 | the day's four generators are fresh, undrawn and seeded as `StartDay` does it |
| Game.GameState.EndDay | Assets/Scripts/game/GameState.cs:270-276 | the clock moves to the old day end and the start moves one day on, clamped at Christmas. The calendar holds, and before Christmas the day end moves by exactly one day |
| Game.GameState.ComputeDayEndTime | Assets/Scripts/game/GameState.cs:278-295 | before Christmas the day end is a whole number of days before Christmas, within one day after the start, and the work day ends the simulation's length earlier. Otherwise all three day fields are Christmas |
| Game.GameState.ComputeDailyGold | Assets/Scripts/game/GameState.cs:297-317 | the nested loops compute `DailyGold` of the current fields |
| Game.GameState.HaveEnoughCurrency | Assets/Scripts/game/GameState.cs:319-335 | true exactly when the gold, the hearts and the time left in the work day each cover the cost |
| Game.GameState.SpendCurrency | Assets/Scripts/game/GameState.cs:337-349 | fails, changing nothing, exactly when the cost is not covered. Otherwise gold and hearts drop by the cost and stay non-negative, and the clock advances by the cost's duration and stays within the work day |
| Game.GameState.AddHearts | Assets/Scripts/game/GameState.cs:351-355 | only the hearts change, by the given amount, and a change is announced |
| Game.NewDefaultGame | Assets/Scripts/game/GameStateBehavior.cs:8-29 | the default game has a one-hour simulation and four daily seeds left after the first day. The first day ends at 1640073600000 and its work day at 1640070000000. The gold is 2000 |

## Left out

- Float arithmetic: `float` and `double` are exact reals. `Mathf.RoundToInt` is exact rounding, ties to even, and `Mathf.CeilToInt` of the day count is exact ceiling division. Single- and double-precision error is not modelled.
- `System.Random` and `string.GetHashCode` are foreign code. They are the parameters `PrngSource.stream` and `GameState.hash`: a function from seed to draw stream, and one from string to seed.
- Random.InternalSample rebuilds the internal sample behind a draw as the whole part of draw × `int.MaxValue`, which is exact on reals. On doubles, `NextDouble()` is sample × (1 / `int.MaxValue`), and that rounding is not modelled.
- The Box–Muller transform (logarithm, sine and square root) is foreign. It is the parameter `PrngSource.standardNormal`.
- The clock-seeded private constructor, the shared `UNSEEDED` generator, and the parameterless `Sample()` of every descriptor are not modelled. They draw from a generator seeded by the wall clock, which is I/O; all the seeded overloads are modelled.
- Random.SeededRandom.GetBoundedGaussian requires, for a non-empty range, that some later candidate of the stream lies in range. The source's uncapped loop returns exactly in that case and runs forever otherwise.
- Random.SeededRandom.DrawUntilInRange requires that some later candidate of the stream lies in range, for the same reason: the `while (true)` loop ends only then.
- RangeSelection.Sample requires, for a `MinMaxGaussian` with a non-empty range, that some later candidate of the stream lies in range, because it runs `GetBoundedGaussian`.
- Random.SeededRandom.GetInt requires `minInclusive <= maxExclusive`. Callers in the core meet this; the `ArgumentOutOfRangeException` that `System.Random` raises otherwise appears only in RangeSelection.SampleIntFromDraws, the one caller that can trip it.
- WeightedSelection.SelectWeighted, SelectWeightedAll, SelectWeightedArray, SelectWeightedArrayAll, DrawFallback, Fallback and Selection require a non-empty list or array. On an empty one the source draws `GetInt(0, 0)`, consuming one draw, and `options[0]` then throws `ArgumentOutOfRangeException`; the model does not produce that exception.
- WeightedSelection.SelectWeighted, SelectWeightedAll, SelectionLoop, Round, DrawFallback and DropBlindPick require at most `int.MaxValue` candidates, and SelectWeightedArray and SelectWeightedArrayAll an array no longer than that. A C# `List.Count` and array `Length` are `int`s, so no caller can pass more.
- Game.GameState.constructor requires the start to be before Christmas, because a Dafny constructor cannot fail. Game.GameState.Create models the throwing case.
- The listener events are not modelled. The points where the game notifies its listeners are recorded in order in the `signals` log.
- `Creature`, `Metrics` and `UpgradeScriptableObject` are not part of this model. Creatures and metrics are type parameters, and an upgrade is the list of its effect's specials.
- Generators are compared by seed and foreign source, not by object identity. `fresh` says that `StartDay` allocates new ones.
- C# `int` overflow in the gold, hearts and income sums is not modelled. Only the `maximum + 1` of `MinMaxInt.Sample`, where wrapping changes the outcome, is written out.
- GameCurrency.Scaled: `Mathf.RoundToInt` returns a 32-bit `int`, so in the source a scaled gold amount or a scaled duration of 2^31 ms (about 24.9 days) or more overflows before it is stored; the model keeps both unbounded.
- The `Weighted` and `WeightedOption` wrapper classes are not modelled. A weight is a function from option to real, and the generic constraint is dropped.
- The `GameStateBehavior` Unity component is not modelled beyond its default settings.
