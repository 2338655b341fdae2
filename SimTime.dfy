/**
 * Points in time and durations of the simulation, both in integer
 * milliseconds. The source's `TimeUtils` helpers are modelled on integers:
 * elapsed time is a difference, and both "after" and "longer" are strict.
 */
module SimTime {

  /** Milliseconds since the Unix epoch. */
  type Time = int

  /** A signed span of milliseconds. */
  type Duration = int

  /** Time elapsed from `a` to `b`. */
  function Elapsed(a: Time, b: Time): Duration { b - a }

  /** `a` lies strictly after `b`. */
  predicate After(a: Time, b: Time) { a > b }

  /** Duration `a` is strictly longer than `b`. */
  predicate Longer(a: Duration, b: Duration) { a > b }

  /** The time `d` after `t`. */
  function Add(t: Time, d: Duration): Time { t + d }
}
