/**
 * `game.GameState`: the ledger (gold, hearts, time), the day cycle up to
 * Christmas, the rosters, and the tree of random seeds a game draws from.
 *
 * The listeners the source notifies are left out; the points at which it
 * invokes them are recorded, in order, in the `signals` log.
 * `string.GetHashCode` and `System.Random` are parameters of the state
 * (`hash`, `source`), so the same seed string gives the same game.
 */
module Game {
  import opened Wrappers
  import opened SimTime
  import opened Random
  import opened Rounding
  import opened GameCurrency

  /** December 25th, 12am. */
  const END_TIME: Time := 1640419200000
  /** 24 hours. */
  const ONE_DAY: Duration := 24 * 60 * 60 * 1000

  const COMPOUND_INTEREST: real := 0.5
  const EXTRA_INCOME: real := 1.0

  /** The special effects an upgrade can carry; only two of them yield income. */
  datatype Special = CompoundInterest | ExtraIncome | OtherSpecial(name: string)

  /** An upgrade, as far as income is concerned: the specials of its effect, in order. */
  datatype Upgrade = Upgrade(specials: seq<Special>)

  /** The events the state raises. */
  datatype Signal = GameStateChanged | NewDay | ResetGame

  /** `System.InvalidOperationException` and its message. */
  datatype GameError = InvalidOperation(message: string)

  const OUT_OF_SEEDS: string := "Ran out of daily random seeds"

  /** The settings the game starts with (`GameStateBehavior`). */
  const DEFAULT_START: Time := 1640041200000
  const DEFAULT_SANTA_ARRIVAL: Time := 1640415600000
  const DEFAULT_SEED: string := "Claus"
  const DEFAULT_NUM_TASKS: int := 200
  const DEFAULT_STARTING_GOLD: int := 1000
  const DEFAULT_DAILY_GOLD: int := 1000

  // ---------------------------------------------------------------------
  // The seed tree

  /** `GenerateRandomSeed` at stream position `k`: `GetInt(0, int.MaxValue)`. */
  function SeedAt(s: Stream, k: nat): (r: int)
    ensures 0 <= r < INT32_MAX
  {
    IntFromDraw(s(k), 0, INT32_MAX)
  }

  /** The daily seeds: the `n` draws after the simulation-generation seed, in order. */
  function DailySeeds(s: Stream, n: nat): (r: seq<int>)
    ensures |r| == n
    ensures forall i :: 0 <= i < n ==> 0 <= r[i] < INT32_MAX
  {
    if n == 0 then [] else DailySeeds(s, n - 1) + [SeedAt(s, n)]
  }

  /** The `i`-th daily seed is the draw at position `i + 1`, after the simulation-generation seed. */
  lemma {:induction false} DailySeedsAt(s: Stream, n: nat)
    ensures forall i :: 0 <= i < n ==> DailySeeds(s, n)[i] == SeedAt(s, i + 1)
  {
    if n > 0 {
      DailySeedsAt(s, n - 1);
    }
  }

  /** `Mathf.CeilToInt(ms / ONE_DAY)` on exact values: the least whole number of days covering `ms`. */
  function CeilDays(ms: int): (r: int)
    ensures (r - 1) * ONE_DAY < ms <= r * ONE_DAY
  {
    -((-ms) / ONE_DAY)
  }

  /** How many daily seeds a game starting at `dayStartTime` draws: one per day, part days included. */
  function SeedCount(dayStartTime: Time): (r: nat)
    ensures r > 0 <==> dayStartTime < END_TIME
  {
    var n := CeilDays(Elapsed(dayStartTime, END_TIME));
    if n > 0 then n else 0
  }

  lemma CeilDaysUnique(ms: int, k: int)
    requires (k - 1) * ONE_DAY < ms <= k * ONE_DAY
    ensures k == CeilDays(ms)
  {
  }

  /**
   * A day that ends before Christmas leaves one seed fewer for the days
   * after it: the seed supply drawn at reset matches the days the calendar
   * still holds.
   */
  lemma SeedCountNextDay(dayStartTime: Time)
    requires dayStartTime < END_TIME
    ensures SeedCount(dayStartTime + ONE_DAY) == SeedCount(dayStartTime) - 1
  {
    var ms := END_TIME - dayStartTime;
    CeilDaysUnique(ms - ONE_DAY, CeilDays(ms) - 1);
  }

  // ---------------------------------------------------------------------
  // The calendar

  /**
   * The day end `ComputeDayEndTime` finds for a day starting before
   * Christmas: a whole number of days before `END_TIME`, and within one day
   * after the start.
   */
  function DayWindowEnd(dayStartTime: Time): (r: Time)
    requires dayStartTime < END_TIME
    ensures dayStartTime < r <= END_TIME
    ensures r - dayStartTime <= ONE_DAY
    ensures (END_TIME - r) % ONE_DAY == 0
  {
    END_TIME - ((END_TIME - dayStartTime - 1) / ONE_DAY) * ONE_DAY
  }

  /** Those three conditions pick out one time. */
  lemma DayWindowEndUnique(dayStartTime: Time, t: Time)
    requires dayStartTime < t <= END_TIME
    requires t - dayStartTime <= ONE_DAY
    requires (END_TIME - t) % ONE_DAY == 0
    ensures t == DayWindowEnd(dayStartTime)
  {
  }

  /** The next day's window is this day's, one day later. */
  lemma NextDayWindow(dayStartTime: Time)
    requires dayStartTime + ONE_DAY < END_TIME
    ensures DayWindowEnd(dayStartTime + ONE_DAY) == DayWindowEnd(dayStartTime) + ONE_DAY
  {
    var r := DayWindowEnd(dayStartTime);
    var a := (END_TIME - r) / ONE_DAY;
    assert END_TIME - r == a * ONE_DAY;
    assert a >= 1;
    assert END_TIME - (r + ONE_DAY) == (a - 1) * ONE_DAY;
    DayWindowEndUnique(dayStartTime + ONE_DAY, r + ONE_DAY);
  }

  /**
   * The default game: play starts on December 21st, 11pm, and Santa arrives
   * one hour before Christmas. 4.375 days remain, so five daily seeds are
   * drawn, and the first day ends four whole days before Christmas.
   */
  lemma DefaultCalendar()
    ensures SeedCount(DEFAULT_START) == 5
    ensures Elapsed(DEFAULT_SANTA_ARRIVAL, END_TIME) == 3600000
    ensures DayWindowEnd(DEFAULT_START) == 1640073600000
  {
    CeilDaysUnique(END_TIME - DEFAULT_START, 5);
    DayWindowEndUnique(DEFAULT_START, 1640073600000);
  }

  // ---------------------------------------------------------------------
  // Daily income

  /** What one special adds to the daily income. */
  function SpecialIncome(special: Special, dailyGold: int, gold: int): int {
    (if special.CompoundInterest? then RoundToInt(gold as real * COMPOUND_INTEREST) else 0)
    + (if special.ExtraIncome? then RoundToInt(dailyGold as real * EXTRA_INCOME) else 0)
  }

  function SpecialsIncome(specials: seq<Special>, dailyGold: int, gold: int): int {
    if specials == [] then 0
    else SpecialsIncome(specials[..|specials| - 1], dailyGold, gold) + SpecialIncome(specials[|specials| - 1], dailyGold, gold)
  }

  function UpgradesIncome(upgrades: seq<Upgrade>, dailyGold: int, gold: int): int {
    if upgrades == [] then 0
    else UpgradesIncome(upgrades[..|upgrades| - 1], dailyGold, gold)
         + SpecialsIncome(upgrades[|upgrades| - 1].specials, dailyGold, gold)
  }

  /** `ComputeDailyGold()` for the given fields. */
  function DailyGold(dailyGold: int, gold: int, upgrades: seq<Upgrade>): (r: int)
    ensures upgrades == [] ==> r == dailyGold
  {
    dailyGold + UpgradesIncome(upgrades, dailyGold, gold)
  }

  /** How many of the specials are `kind`. */
  function SpecialCount(specials: seq<Special>, kind: Special): nat {
    if specials == [] then 0
    else SpecialCount(specials[..|specials| - 1], kind) + (if specials[|specials| - 1] == kind then 1 else 0)
  }

  /** How many specials of all the upgrades are `kind`. */
  function UpgradeCount(upgrades: seq<Upgrade>, kind: Special): nat {
    if upgrades == [] then 0
    else UpgradeCount(upgrades[..|upgrades| - 1], kind) + SpecialCount(upgrades[|upgrades| - 1].specials, kind)
  }

  lemma Distribute(a: int, b: int, x: int)
    ensures (a + b) * x == a * x + b * x
  {
  }

  lemma {:induction false} SpecialsIncomeClosedForm(specials: seq<Special>, dailyGold: int, gold: int)
    ensures SpecialsIncome(specials, dailyGold, gold)
         == SpecialCount(specials, CompoundInterest) * RoundToInt(gold as real * COMPOUND_INTEREST)
          + SpecialCount(specials, ExtraIncome) * dailyGold
    decreases |specials|
  {
    if specials != [] {
      var front, last := specials[..|specials| - 1], specials[|specials| - 1];
      var half := RoundToInt(gold as real * COMPOUND_INTEREST);
      SpecialsIncomeClosedForm(front, dailyGold, gold);
      RoundToIntOfInt(dailyGold);
      assert dailyGold as real * EXTRA_INCOME == dailyGold as real;
      var c, e := SpecialCount(front, CompoundInterest), SpecialCount(front, ExtraIncome);
      var c', e' := if last == CompoundInterest then 1 else 0, if last == ExtraIncome then 1 else 0;
      assert SpecialIncome(last, dailyGold, gold) == c' * half + e' * dailyGold;
      Distribute(c, c', half);
      Distribute(e, e', dailyGold);
    }
  }

  /**
   * The daily income in closed form: the base income, plus half the gold
   * (rounded) for every CompoundInterest special and the base income again
   * for every ExtraIncome special, over all upgrades. Both bonuses read the
   * gold and base income as they were before the call.
   */
  lemma {:induction false} DailyGoldClosedForm(dailyGold: int, gold: int, upgrades: seq<Upgrade>)
    ensures DailyGold(dailyGold, gold, upgrades)
         == dailyGold
          + UpgradeCount(upgrades, CompoundInterest) * RoundToInt(gold as real * COMPOUND_INTEREST)
          + UpgradeCount(upgrades, ExtraIncome) * dailyGold
    decreases |upgrades|
  {
    if upgrades != [] {
      var front, last := upgrades[..|upgrades| - 1], upgrades[|upgrades| - 1].specials;
      var half := RoundToInt(gold as real * COMPOUND_INTEREST);
      DailyGoldClosedForm(dailyGold, gold, front);
      SpecialsIncomeClosedForm(last, dailyGold, gold);
      var c, e := UpgradeCount(front, CompoundInterest), UpgradeCount(front, ExtraIncome);
      var c', e' := SpecialCount(last, CompoundInterest), SpecialCount(last, ExtraIncome);
      Distribute(c, c', half);
      Distribute(e, e', dailyGold);
    }
  }

  // ---------------------------------------------------------------------
  // The state

  /** `GenerateRandomSeed(seededRandom)`: `GetInt(0, int.MaxValue)`. */
  method GenerateRandomSeed(seededRandom: SeededRandom) returns (seed: int)
    modifies seededRandom
    ensures seed == SeedAt(seededRandom.Draws(), old(seededRandom.position))
    ensures seededRandom.position == old(seededRandom.position) + 1
  {
    seed := seededRandom.GetInt(0, INT32_MAX);
  }

  class GameState<Creature, Metrics> {
    /** `System.Random` and the Box–Muller deviate. */
    const source: PrngSource
    /** `string.GetHashCode`. */
    const hash: string -> int

    var overallRandomSeed: string
    var numTasks: int
    var santaArrivalTime: Time
    var simulationDuration: Duration
    var dayEndTime: Time
    var workDayEndTime: Time
    var dayStartTime: Time
    var currentTime: Time
    var dailyGold: int
    var gold: int
    var hearts: int
    var preppers: seq<Creature>
    var movers: seq<Creature>
    var upgrades: seq<Upgrade>
    var simulationGenerationSeed: int
    var simulationGenerationRandom: SeededRandom?
    /** The seeds of the days still to start, front first. */
    var dailyRandomSeeds: seq<int>
    var simulationRandomSeed: int
    var hiringRandom: SeededRandom?
    var simulationRandom: SeededRandom?
    var indoorCreatureRandom: SeededRandom?
    var metrics: seq<Metrics>
    var numGames: int
    /** The listener invocations, in order. */
    var signals: seq<Signal>

    /**
     * The day fields as `ComputeDayEndTime` leaves them: the day starts no
     * later than Christmas, ends at its window end, and the work day ends
     * the simulation's length before that.
     */
    ghost predicate Calendar()
      reads this`dayStartTime, this`dayEndTime, this`workDayEndTime, this`simulationDuration
    {
      && dayStartTime <= END_TIME
      && (dayStartTime < END_TIME ==>
            dayEndTime == DayWindowEnd(dayStartTime) && workDayEndTime == dayEndTime - simulationDuration)
      && (dayStartTime == END_TIME ==> dayEndTime == END_TIME && workDayEndTime == END_TIME)
    }

    /** Every seed held is a value of `GetInt(0, int.MaxValue)`. */
    ghost predicate SeedsInRange()
      reads this`simulationGenerationSeed, this`simulationRandomSeed, this`dailyRandomSeeds
    {
      && 0 <= simulationGenerationSeed < INT32_MAX
      && 0 <= simulationRandomSeed < INT32_MAX
      && forall i :: 0 <= i < |dailyRandomSeeds| ==> 0 <= dailyRandomSeeds[i] < INT32_MAX
    }

    /** `rng` is a generator built by `new SeededRandom(seed)`. */
    ghost predicate SeededWith(rng: SeededRandom?, seed: int) {
      rng != null && rng.seed == seed && rng.source == source
    }

    /** The four generators `StartDay` makes for the day whose seed is `daySeed`. */
    ghost predicate DayRandoms(daySeed: int)
      reads this`simulationGenerationRandom, this`hiringRandom, this`simulationRandom, this`indoorCreatureRandom,
            this`simulationGenerationSeed, this`simulationRandomSeed
    {
      var today := source.stream(daySeed);
      && SeededWith(simulationGenerationRandom, simulationGenerationSeed)
      && SeededWith(hiringRandom, SeedAt(today, 0))
      && SeededWith(simulationRandom, simulationRandomSeed)
      && SeededWith(indoorCreatureRandom, SeedAt(today, 1))
    }

    /** None of the four generators has been drawn from yet. */
    ghost predicate Undrawn()
      reads this`simulationGenerationRandom, this`hiringRandom, this`simulationRandom, this`indoorCreatureRandom
      reads simulationGenerationRandom, hiringRandom, simulationRandom, indoorCreatureRandom
    {
      && simulationGenerationRandom != null && simulationGenerationRandom.position == 0
      && hiringRandom != null && hiringRandom.position == 0
      && simulationRandom != null && simulationRandom.position == 0
      && indoorCreatureRandom != null && indoorCreatureRandom.position == 0
    }

    /**
     * `new GameState(...)`. The source throws when the first day cannot
     * start, which a constructor cannot do; `Create` models that case.
     */
    constructor (source: PrngSource, hash: string -> int, overallRandomSeed: string, numTasks: int,
                 santaArrivalTime: Time, dayStartTime: Time, dailyGold: int, gold: int, hearts: int)
      requires dayStartTime < END_TIME
      ensures this.source == source && this.hash == hash
      ensures numGames == 0
      ensures Reset(overallRandomSeed, numTasks, santaArrivalTime, dailyGold, hearts)
      ensures Calendar() && SeedsInRange()
      ensures Started(overallRandomSeed, dayStartTime, gold) && Undrawn()
      ensures signals == [GameStateChanged, NewDay, ResetGame, GameStateChanged]
      ensures fresh(simulationGenerationRandom) && fresh(hiringRandom) && fresh(simulationRandom) && fresh(indoorCreatureRandom)
    {
      this.source := source;
      this.hash := hash;
      new;
      signals := [];
      var outcome := ResetState(overallRandomSeed, numTasks, santaArrivalTime, dayStartTime, dailyGold, gold, hearts);
      numGames := 0;
    }

    /** The fields every reset sets, whatever the outcome. */
    ghost predicate Reset(overallRandomSeed: string, numTasks: int, santaArrivalTime: Time,
                          dailyGold: int, hearts: int)
      reads this
    {
      var s := source.stream(hash(overallRandomSeed));
      && this.overallRandomSeed == overallRandomSeed
      && this.numTasks == numTasks
      && this.santaArrivalTime == santaArrivalTime
      && simulationDuration == Elapsed(santaArrivalTime, END_TIME)
      && this.dailyGold == dailyGold
      && this.hearts == hearts
      && preppers == [] && movers == [] && upgrades == [] && metrics == []
      && simulationGenerationSeed == SeedAt(s, 0)
    }

    /** After a reset from `dayStartTime`, the first day has started. */
    ghost predicate Started(overallRandomSeed: string, dayStartTime: Time, gold: int)
      reads this
    {
      var s := source.stream(hash(overallRandomSeed));
      var n := SeedCount(dayStartTime);
      && n > 0
      && simulationRandomSeed == SeedAt(s, n + 1)
      && this.dayStartTime == dayStartTime
      && currentTime == dayStartTime
      && dailyRandomSeeds == DailySeeds(s, n)[1..]
      && this.gold == gold + dailyGold
      && DayRandoms(DailySeeds(s, n)[0])
    }

    /**
     * `new GameState(...)` with its exception: it fails exactly when the
     * start of the first day is not before Christmas, so that no daily seed
     * is drawn.
     */
    static method Create(source: PrngSource, hash: string -> int, overallRandomSeed: string, numTasks: int,
                         santaArrivalTime: Time, dayStartTime: Time, dailyGold: int, gold: int, hearts: int)
      returns (r: Result<GameState<Creature, Metrics>, GameError>)
      ensures r.Err? <==> dayStartTime >= END_TIME
      ensures r.Err? ==> r.error == InvalidOperation(OUT_OF_SEEDS)
      ensures r.Ok? ==> fresh(r.value) && r.value.numGames == 0
      ensures r.Ok? ==> r.value.Reset(overallRandomSeed, numTasks, santaArrivalTime, dailyGold, hearts)
      ensures r.Ok? ==> r.value.Calendar() && r.value.SeedsInRange()
      ensures r.Ok? ==> r.value.Started(overallRandomSeed, dayStartTime, gold) && r.value.Undrawn()
    {
      if dayStartTime >= END_TIME {
        return Err(InvalidOperation(OUT_OF_SEEDS));
      }
      var state := new GameState(source, hash, overallRandomSeed, numTasks, santaArrivalTime, dayStartTime,
                                 dailyGold, gold, hearts);
      r := Ok(state);
    }

    /**
     * `ResetState(...)`: counts the game, sets the fields, draws a fresh seed
     * tree and starts the first day. When no daily seed was drawn (the start
     * is not before Christmas) `StartDay` throws, after the fields are set.
     */
    method ResetState(overallRandomSeed: string, numTasks: int, santaArrivalTime: Time, dayStartTime: Time,
                      dailyGold: int, gold: int, hearts: int) returns (r: Outcome<GameError>)
      modifies this
      ensures r.Fail? <==> dayStartTime >= END_TIME
      ensures numGames == old(numGames) + 1
      ensures Reset(overallRandomSeed, numTasks, santaArrivalTime, dailyGold, hearts)
      ensures Calendar() && SeedsInRange()
      ensures r.Pass? ==> Started(overallRandomSeed, dayStartTime, gold) && Undrawn()
      ensures r.Pass? ==> fresh(simulationGenerationRandom) && fresh(hiringRandom)
      ensures r.Pass? ==> fresh(simulationRandom) && fresh(indoorCreatureRandom)
      ensures r.Pass? ==> signals == old(signals) + [GameStateChanged, NewDay, ResetGame, GameStateChanged]
      ensures r.Fail? ==> r.error == InvalidOperation(OUT_OF_SEEDS)
      ensures r.Fail? ==> this.dayStartTime == END_TIME && dailyRandomSeeds == [] && this.gold == gold
      ensures r.Fail? ==> simulationRandomSeed == SeedAt(source.stream(hash(overallRandomSeed)), 1)
      ensures r.Fail? ==> unchanged(this`currentTime, this`signals)
      ensures r.Fail? ==>
        unchanged(this`simulationGenerationRandom, this`hiringRandom, this`simulationRandom, this`indoorCreatureRandom)
    {
      numGames := numGames + 1;
      ResetFields(overallRandomSeed, numTasks, santaArrivalTime, dayStartTime, dailyGold, gold, hearts);
      r := StartFirstDay(overallRandomSeed, numTasks, santaArrivalTime, dayStartTime, dailyGold, gold, hearts);
    }

    /** The end of `ResetState`: the first day starts, and when it did the reset is announced. */
    method StartFirstDay(ghost overallRandomSeed: string, ghost numTasks: int, ghost santaArrivalTime: Time,
                         ghost dayStartTime: Time, ghost dailyGold: int, ghost gold: int, ghost hearts: int)
      returns (r: Outcome<GameError>)
      requires Reset(overallRandomSeed, numTasks, santaArrivalTime, dailyGold, hearts)
      requires Calendar() && SeedsInRange() && this.gold == gold
      requires this.dayStartTime == if dayStartTime < END_TIME then dayStartTime else END_TIME
      requires var s := source.stream(hash(overallRandomSeed));
        && dailyRandomSeeds == DailySeeds(s, SeedCount(dayStartTime))
        && simulationRandomSeed == SeedAt(s, SeedCount(dayStartTime) + 1)
      modifies this`currentTime, this`simulationGenerationRandom, this`dailyRandomSeeds, this`hiringRandom,
               this`simulationRandom, this`indoorCreatureRandom, this`gold, this`signals
      ensures r.Fail? <==> dayStartTime >= END_TIME
      ensures Reset(overallRandomSeed, numTasks, santaArrivalTime, dailyGold, hearts)
      ensures Calendar() && SeedsInRange()
      ensures r.Pass? ==> Started(overallRandomSeed, dayStartTime, gold) && Undrawn()
      ensures r.Pass? ==> fresh(simulationGenerationRandom) && fresh(hiringRandom)
      ensures r.Pass? ==> fresh(simulationRandom) && fresh(indoorCreatureRandom)
      ensures r.Pass? ==> signals == old(signals) + [GameStateChanged, NewDay, ResetGame, GameStateChanged]
      ensures r.Fail? ==> r.error == InvalidOperation(OUT_OF_SEEDS) && unchanged(this)
      ensures unchanged(this`numGames, this`overallRandomSeed, this`numTasks, this`santaArrivalTime, this`simulationDuration,
                this`dayStartTime, this`dayEndTime, this`workDayEndTime, this`dailyGold, this`hearts,
                this`preppers, this`movers, this`upgrades, this`metrics, this`simulationGenerationSeed,
                this`simulationRandomSeed)
    {
      r := StartDay();
      if r.Fail? {
        return;
      }
      signals := signals + [ResetGame, GameStateChanged];
    }

    /** The assignments of `ResetState` before the first day starts. */
    method ResetFields(overallRandomSeed: string, numTasks: int, santaArrivalTime: Time, dayStartTime: Time,
                       dailyGold: int, gold: int, hearts: int)
      modifies this`overallRandomSeed, this`numTasks, this`santaArrivalTime, this`simulationDuration,
               this`dayStartTime, this`dayEndTime, this`workDayEndTime, this`dailyGold, this`gold, this`hearts,
               this`preppers, this`movers, this`upgrades, this`metrics,
               this`simulationGenerationSeed, this`dailyRandomSeeds, this`simulationRandomSeed
      ensures Reset(overallRandomSeed, numTasks, santaArrivalTime, dailyGold, hearts)
      ensures Calendar() && SeedsInRange()
      ensures this.gold == gold
      ensures unchanged(this`numGames)
      ensures this.dayStartTime == if dayStartTime < END_TIME then dayStartTime else END_TIME
      ensures var s := source.stream(hash(overallRandomSeed));
        && dailyRandomSeeds == DailySeeds(s, SeedCount(dayStartTime))
        && simulationRandomSeed == SeedAt(s, SeedCount(dayStartTime) + 1)
    {
      SetParameters(overallRandomSeed, numTasks, santaArrivalTime, dayStartTime, dailyGold, gold, hearts);
      simulationGenerationSeed, dailyRandomSeeds := GenerateRandomSeeds();
      DailySeedsAt(source.stream(hash(overallRandomSeed)), SeedCount(dayStartTime));
      assert SeedsInRange();
      ComputeDayEndTime();
    }

    /** The plain assignments of `ResetState`, in the source's order. */
    method SetParameters(overallRandomSeed: string, numTasks: int, santaArrivalTime: Time, dayStartTime: Time,
                         dailyGold: int, gold: int, hearts: int)
      modifies this`overallRandomSeed, this`numTasks, this`santaArrivalTime, this`simulationDuration,
               this`dayStartTime, this`dailyGold, this`gold, this`hearts,
               this`preppers, this`movers, this`upgrades, this`metrics
      ensures this.overallRandomSeed == overallRandomSeed && this.numTasks == numTasks
      ensures this.santaArrivalTime == santaArrivalTime && simulationDuration == Elapsed(santaArrivalTime, END_TIME)
      ensures this.dayStartTime == dayStartTime && this.dailyGold == dailyGold
      ensures this.gold == gold && this.hearts == hearts
      ensures preppers == [] && movers == [] && upgrades == [] && metrics == []
    {
      this.overallRandomSeed := overallRandomSeed;
      this.numTasks := numTasks;
      this.santaArrivalTime := santaArrivalTime;
      simulationDuration := Elapsed(santaArrivalTime, END_TIME);
      this.dayStartTime := dayStartTime;
      this.dailyGold := dailyGold;
      this.gold := gold;
      this.hearts := hearts;
      preppers := [];
      movers := [];
      upgrades := [];
      metrics := [];
    }

    /** `AddPrepper(prepper)`. */
    method AddPrepper(prepper: Creature)
      modifies this`preppers, this`signals
      ensures preppers == old(preppers) + [prepper]
      ensures signals == old(signals) + [GameStateChanged]
    {
      preppers := preppers + [prepper];
      signals := signals + [GameStateChanged];
    }

    /** `AddMover(mover)`. */
    method AddMover(mover: Creature)
      modifies this`movers, this`signals
      ensures movers == old(movers) + [mover]
      ensures signals == old(signals) + [GameStateChanged]
    {
      movers := movers + [mover];
      signals := signals + [GameStateChanged];
    }

    /** `AddUpgrade(upgrade)`. */
    method AddUpgrade(upgrade: Upgrade)
      modifies this`upgrades, this`signals
      ensures upgrades == old(upgrades) + [upgrade]
      ensures signals == old(signals) + [GameStateChanged]
    {
      upgrades := upgrades + [upgrade];
      signals := signals + [GameStateChanged];
    }

    /** `AddMetrics(metrics)`: raises no event. */
    method AddMetrics(metrics: Metrics)
      modifies this`metrics
      ensures this.metrics == old(this.metrics) + [metrics]
    {
      this.metrics := this.metrics + [metrics];
    }

    /**
     * `GenerateRandomSeeds()`: from the generator of the hashed seed string,
     * the simulation-generation seed, then one seed per remaining day, then
     * the simulation seed (stored in its field).
     */
    method GenerateRandomSeeds() returns (generationSeed: int, randomSeeds: seq<int>)
      modifies this`simulationRandomSeed
      ensures var s := source.stream(hash(overallRandomSeed));
        && generationSeed == SeedAt(s, 0)
        && randomSeeds == DailySeeds(s, SeedCount(dayStartTime))
        && simulationRandomSeed == SeedAt(s, SeedCount(dayStartTime) + 1)
    {
      var overallRandom := new SeededRandom(hash(overallRandomSeed), source);
      generationSeed := GenerateRandomSeed(overallRandom);
      var durationRemaining := Elapsed(dayStartTime, END_TIME);
      var numDays := CeilDays(durationRemaining);
      randomSeeds := [];
      var i := 0;
      while i < numDays
        invariant numDays > 0 ==> 0 <= i <= numDays
        invariant numDays <= 0 ==> i == 0
        invariant overallRandom.seed == hash(overallRandomSeed) && overallRandom.source == source
        invariant overallRandom.position == i + 1
        invariant randomSeeds == DailySeeds(overallRandom.Draws(), i)
      {
        var seed := GenerateRandomSeed(overallRandom);
        randomSeeds := randomSeeds + [seed];
        i := i + 1;
      }
      assert i == SeedCount(dayStartTime);
      simulationRandomSeed := GenerateRandomSeed(overallRandom);
    }

    /**
     * `StartDay()`: fails, changing nothing, when no daily seed is left;
     * otherwise pops the front seed, makes the day's generators from it and
     * from the game-wide seeds, and credits the daily income.
     */
    method StartDay() returns (r: Outcome<GameError>)
      modifies this`currentTime, this`simulationGenerationRandom, this`dailyRandomSeeds, this`hiringRandom,
               this`simulationRandom, this`indoorCreatureRandom, this`gold, this`signals
      ensures r.Fail? <==> old(dailyRandomSeeds) == []
      ensures r.Fail? ==> r.error == InvalidOperation(OUT_OF_SEEDS) && unchanged(this)
      ensures r.Pass? ==> dailyRandomSeeds == old(dailyRandomSeeds)[1..]
      ensures old(SeedsInRange()) ==> SeedsInRange()
      ensures r.Pass? ==> currentTime == dayStartTime
      ensures r.Pass? ==> gold == old(gold) + DailyGold(dailyGold, old(gold), upgrades)
      ensures r.Pass? ==> DayRandoms(old(dailyRandomSeeds)[0]) && Undrawn()
      ensures r.Pass? ==> fresh(simulationGenerationRandom) && fresh(hiringRandom)
      ensures r.Pass? ==> fresh(simulationRandom) && fresh(indoorCreatureRandom)
      ensures r.Pass? ==> signals == old(signals) + [GameStateChanged, NewDay]
      ensures unchanged(this`numGames, this`overallRandomSeed, this`numTasks, this`santaArrivalTime, this`simulationDuration,
                this`dayStartTime, this`dayEndTime, this`workDayEndTime, this`dailyGold, this`hearts,
                this`preppers, this`movers, this`upgrades, this`metrics, this`simulationGenerationSeed,
                this`simulationRandomSeed)
    {
      if |dailyRandomSeeds| <= 0 {
        return Fail(InvalidOperation(OUT_OF_SEEDS));
      }
      currentTime := dayStartTime;
      var daySeed := dailyRandomSeeds[0];
      dailyRandomSeeds := dailyRandomSeeds[1..];
      MakeDayRandoms(daySeed);
      var income := ComputeDailyGold();
      gold := gold + income;
      signals := signals + [GameStateChanged, NewDay];
      r := Pass;
    }

    /** The generators of `StartDay`, for the day whose seed is `daySeed`. */
    method MakeDayRandoms(daySeed: int)
      modifies this`simulationGenerationRandom, this`hiringRandom, this`simulationRandom, this`indoorCreatureRandom
      ensures DayRandoms(daySeed) && Undrawn()
      ensures fresh(simulationGenerationRandom) && fresh(hiringRandom)
      ensures fresh(simulationRandom) && fresh(indoorCreatureRandom)
      ensures unchanged(this`numGames, this`overallRandomSeed, this`numTasks, this`santaArrivalTime, this`simulationDuration,
                this`dayStartTime, this`dayEndTime, this`workDayEndTime, this`currentTime, this`dailyGold, this`gold,
                this`hearts, this`preppers, this`movers, this`upgrades, this`metrics, this`simulationGenerationSeed,
                this`dailyRandomSeeds, this`simulationRandomSeed, this`signals)
    {
      var generation := new SeededRandom(simulationGenerationSeed, source);
      var randomToday := new SeededRandom(daySeed, source);
      var hiringRandomSeed := GenerateRandomSeed(randomToday);
      var indoorCreatureRandomSeed := GenerateRandomSeed(randomToday);
      var hiring := new SeededRandom(hiringRandomSeed, source);
      var simulation := new SeededRandom(simulationRandomSeed, source);
      var indoor := new SeededRandom(indoorCreatureRandomSeed, source);
      simulationGenerationRandom, hiringRandom, simulationRandom, indoorCreatureRandom := generation, hiring, simulation, indoor;
    }

    /**
     * `EndDay()`: the clock moves to the end of the day, the next day starts
     * one day later, and its window is recomputed; before Christmas the
     * window moves by exactly one day.
     */
    method EndDay()
      modifies this`currentTime, this`dayStartTime, this`dayEndTime, this`workDayEndTime, this`signals
      ensures currentTime == old(dayEndTime)
      ensures var next := old(dayStartTime) + ONE_DAY; dayStartTime == if next < END_TIME then next else END_TIME
      ensures Calendar()
      ensures old(dayStartTime) + ONE_DAY < END_TIME ==> dayEndTime == DayWindowEnd(old(dayStartTime)) + ONE_DAY
      ensures signals == old(signals) + [GameStateChanged]
    {
      currentTime := dayEndTime;
      dayStartTime := Add(dayStartTime, ONE_DAY);
      ComputeDayEndTime();
      if old(dayStartTime) + ONE_DAY < END_TIME {
        NextDayWindow(old(dayStartTime));
      }
      signals := signals + [GameStateChanged];
    }

    /**
     * `ComputeDayEndTime()`: before Christmas, the day ends at Christmas less
     * as many whole days as leave at most one day after the start; the work
     * day ends the simulation's length earlier. Otherwise all three day
     * fields are clamped to Christmas.
     */
    method ComputeDayEndTime()
      modifies this`dayStartTime, this`dayEndTime, this`workDayEndTime
      ensures Calendar()
      ensures old(dayStartTime) < END_TIME ==> dayStartTime == old(dayStartTime)
      ensures old(dayStartTime) >= END_TIME ==> dayStartTime == END_TIME
    {
      if After(END_TIME, dayStartTime) {
        dayEndTime := END_TIME;
        while Longer(Elapsed(dayStartTime, dayEndTime), ONE_DAY)
          invariant dayStartTime == old(dayStartTime)
          invariant dayStartTime < dayEndTime <= END_TIME
          invariant (END_TIME - dayEndTime) % ONE_DAY == 0
          decreases dayEndTime - dayStartTime
        {
          dayEndTime := dayEndTime - ONE_DAY;
        }
        DayWindowEndUnique(dayStartTime, dayEndTime);
        workDayEndTime := dayEndTime - simulationDuration;
      } else {
        dayStartTime := END_TIME;
        dayEndTime := END_TIME;
        workDayEndTime := END_TIME;
      }
    }

    /** `ComputeDailyGold()`: the base income plus what every special of every upgrade adds. */
    method ComputeDailyGold() returns (total: int)
      ensures total == DailyGold(dailyGold, gold, upgrades)
    {
      total := dailyGold;
      var i := 0;
      while i < |upgrades|
        invariant 0 <= i <= |upgrades|
        invariant total == dailyGold + UpgradesIncome(upgrades[..i], dailyGold, gold)
      {
        var specials := upgrades[i].specials;
        var j := 0;
        while j < |specials|
          invariant 0 <= j <= |specials|
          invariant total == dailyGold + UpgradesIncome(upgrades[..i], dailyGold, gold)
                             + SpecialsIncome(specials[..j], dailyGold, gold)
        {
          var special := specials[j];
          if special.CompoundInterest? {
            total := total + RoundToInt(gold as real * COMPOUND_INTEREST);
          }
          if special.ExtraIncome? {
            total := total + RoundToInt(dailyGold as real * EXTRA_INCOME);
          }
          assert specials[..j + 1][..j] == specials[..j];
          j := j + 1;
        }
        assert specials[..j] == specials;
        assert upgrades[..i + 1][..i] == upgrades[..i];
        i := i + 1;
      }
      assert upgrades[..i] == upgrades;
    }

    /** `HaveEnoughCurrency(currency)`: the gold, the hearts and the time left in the work day all cover the cost. */
    function HaveEnoughCurrency(currency: Currency): (r: bool)
      reads this
      ensures r <==> gold >= currency.gold && hearts >= currency.hearts
                     && currentTime + currency.duration <= workDayEndTime
    {
      if gold < currency.gold then false
      else if hearts < currency.hearts then false
      else if Longer(currency.duration, Elapsed(currentTime, workDayEndTime)) then false
      else true
    }

    /**
     * `SpendCurrency(currency)`: fails, changing nothing, when the cost is
     * not covered; otherwise pays it, which leaves gold and hearts
     * non-negative and the clock no later than the end of the work day.
     */
    method SpendCurrency(currency: Currency) returns (r: Outcome<GameError>)
      modifies this`gold, this`hearts, this`currentTime, this`signals
      ensures r.Fail? <==> !old(HaveEnoughCurrency(currency))
      ensures r.Fail? ==> r.error == InvalidOperation("Insufficient currency: " + ToString(currency)) && unchanged(this)
      ensures r.Pass? ==> gold == old(gold) - currency.gold && hearts == old(hearts) - currency.hearts
      ensures r.Pass? ==> currentTime == old(currentTime) + currency.duration
      ensures r.Pass? ==> 0 <= gold && 0 <= hearts && currentTime <= workDayEndTime
      ensures r.Pass? ==> signals == old(signals) + [GameStateChanged]
    {
      if !HaveEnoughCurrency(currency) {
        return Fail(InvalidOperation("Insufficient currency: " + ToString(currency)));
      }
      gold := gold - currency.gold;
      hearts := hearts - currency.hearts;
      currentTime := Add(currentTime, currency.duration);
      signals := signals + [GameStateChanged];
      r := Pass;
    }

    /** `AddHearts(hearts)`. */
    method AddHearts(hearts: int)
      modifies this`hearts, this`signals
      ensures this.hearts == old(this.hearts) + hearts
      ensures signals == old(signals) + [GameStateChanged]
    {
      this.hearts := this.hearts + hearts;
      signals := signals + [GameStateChanged];
    }
  }

  /**
   * `GameStateBehavior.Awake()`: the game built from the default settings.
   * Its first day has started, so four of its five daily seeds are left.
   */
  method NewDefaultGame<Creature, Metrics>(source: PrngSource, hash: string -> int)
    returns (g: GameState<Creature, Metrics>)
    ensures fresh(g) && g.numGames == 0
    ensures g.simulationDuration == 3600000
    ensures |g.dailyRandomSeeds| == 4
    ensures g.currentTime == DEFAULT_START
    ensures g.dayEndTime == 1640073600000 && g.workDayEndTime == 1640070000000
    ensures g.gold == 2000 && g.hearts == 0
  {
    DefaultCalendar();
    g := new GameState(source, hash, DEFAULT_SEED, DEFAULT_NUM_TASKS, DEFAULT_SANTA_ARRIVAL, DEFAULT_START,
                       DEFAULT_DAILY_GOLD, DEFAULT_STARTING_GOLD, 0);
  }
}
