/**
 * Weighted selection without replacement (`utils.WeightedSelection`).
 *
 * A uniform fallback is drawn first. Then, while nothing is selected and
 * candidates remain, a value is drawn uniformly below the candidates' total
 * weight and the candidates are walked in order: a candidate whose weight
 * reaches the running value is removed and, if the accepter takes it,
 * selected; a candidate whose weight does not is skipped and its weight
 * subtracted. A pass that removes nothing removes one uniformly drawn
 * candidate instead. If the pool empties, the fallback is returned.
 *
 * `ScanFrom`, `RoundOnce`, `WeightedRounds` and `Selection` state the
 * algorithm as functions of the draw stream; the methods run it in place on
 * a `List` and are proved to compute exactly those functions.
 */
module WeightedSelection {
  import opened Wrappers
  import opened Random

  /**
   * The caller's `List<T>`: `Remove` and `RemoveAt` change it in place. Its
   * `Count` is a C# `int`, so the methods that draw an index with
   * `GetInt(0, options.Count)` take at most `int.MaxValue` candidates.
   */
  class List<T(==)> {
    var items: seq<T>

    /** `new List<T>(options)`: a copy of the given elements. */
    constructor (elements: seq<T>)
      ensures items == elements
    {
      items := elements;
    }

    /** `List.Remove(x)`: removes the first element equal to `x`, if any. */
    method Remove(x: T)
      modifies this
      ensures items == RemoveFirst(old(items), x)
    {
      items := RemoveFirst(items, x);
    }

    /** `List.RemoveAt(index)`. */
    method RemoveAt(index: nat)
      requires index < |items|
      modifies this
      ensures items == old(items)[..index] + old(items)[index + 1..]
    {
      items := items[..index] + items[index + 1..];
    }
  }

  /** The sequence without its first occurrence of `x`, if any. */
  function RemoveFirst<T(==)>(s: seq<T>, x: T): (r: seq<T>)
    ensures x in s ==> |r| == |s| - 1 && multiset(r) == multiset(s) - multiset{x}
    ensures x !in s ==> r == s
  {
    if s == [] then []
    else if s[0] == x then
      assert s == [s[0]] + s[1..];
      s[1..]
    else
      assert s == [s[0]] + s[1..];
      [s[0]] + RemoveFirst(s[1..], x)
  }

  /** The index of the first occurrence of `x`. */
  function FirstIndex<T(==)>(s: seq<T>, x: T): (i: nat)
    requires x in s
    ensures i < |s| && s[i] == x && x !in s[..i]
  {
    if s[0] == x then 0
    else
      assert x in s[1..];
      var j := FirstIndex(s[1..], x);
      assert s[..j + 1] == [s[0]] + s[1..][..j];
      j + 1
  }

  /** `List.Remove` takes out exactly the first occurrence and keeps the others in order. */
  lemma {:induction false} RemoveFirstAt<T>(s: seq<T>, x: T)
    requires x in s
    ensures RemoveFirst(s, x) == s[..FirstIndex(s, x)] + s[FirstIndex(s, x) + 1..]
  {
    if s[0] == x {
      assert s[..0] == [];
    } else {
      var t := s[1..];
      assert x in t;
      var j := FirstIndex(t, x);
      RemoveFirstAt(t, x);
      ConsSlices(s, j);
    }
  }

  /** Cutting a sequence around index `j + 1` is cutting its tail around `j`, with the head in front. */
  lemma ConsSlices<T>(s: seq<T>, j: nat)
    requires j + 1 < |s|
    ensures [s[0]] + (s[1..][..j] + s[1..][j + 1..]) == s[..j + 1] + s[j + 2..]
  {
    assert s[..j + 1] == [s[0]] + s[1..][..j];
    assert s[j + 2..] == s[1..][j + 1..];
  }

  /** The summed weight of the candidates. */
  function Total<T>(s: seq<T>, weight: T -> real): real
  {
    if s == [] then 0.0 else weight(s[0]) + Total(s[1..], weight)
  }

  /** The summed weight of the first `n` candidates. */
  function PrefixTotal<T>(s: seq<T>, n: nat, weight: T -> real): real
    requires n <= |s|
  {
    Total(s[..n], weight)
  }

  /** The accepter of the overloads that take none. */
  function AcceptAny<T>(x: T): bool { true }

  /** The state of one pass over the candidates. */
  datatype Scan<T> = Scan(options: seq<T>, value: real, tried: bool, selected: Option<T>)

  /**
   * The `for` loop of one pass, from index `i` on. The list shrinks under
   * the loop: after a rejected hit the next index of the shortened list is
   * examined with `value` unchanged, so the candidate that moved into the
   * hit's slot is not examined in this pass.
   */
  function ScanFrom<T(==)>(options: seq<T>, i: nat, value: real, tried: bool,
                           weight: T -> real, accept: T -> bool): (r: Scan<T>)
    ensures multiset(r.options) <= multiset(options)
    ensures |r.options| <= |options|
    ensures tried ==> r.tried
    ensures !r.tried ==> r.options == options
    ensures r.tried && !tried ==> |r.options| < |options|
    ensures r.selected.Some? ==> r.tried && accept(r.selected.value) && r.selected.value in options
    decreases |options| - i
  {
    if i >= |options| then Scan(options, value, tried, None)
    else
      var option := options[i];
      if value <= weight(option) then
        var rest := RemoveFirst(options, option);
        if accept(option) then Scan(rest, value, true, Some(option))
        else
          var r := ScanFrom(rest, i + 1, value, true, weight, accept);
          assert r.selected.Some? ==> r.selected.value in multiset(rest);
          r
      else ScanFrom(options, i + 1, value - weight(option), tried, weight, accept)
  }

  /** The outcome of the selection loop: what it selected, the candidates left, and the stream position. */
  datatype Rounds<T> = Rounds(selected: Option<T>, remaining: seq<T>, position: nat)

  /**
   * One pass of the `while` loop body from stream position `pos`: draw the
   * value, scan, and when the scan removed nothing draw the index of the
   * candidate to drop.
   */
  function RoundOnce<T(==)>(s: Stream, pos: nat, options: seq<T>,
                            weight: T -> real, accept: T -> bool): (r: Rounds<T>)
    requires |options| > 0
    ensures r.selected.Some? ==> accept(r.selected.value) && r.selected.value in options
    ensures multiset(r.remaining) <= multiset(options)
    ensures |r.remaining| < |options|
    ensures pos + 1 <= r.position <= pos + 2
  {
    var value := FloatFromDraw(s(pos), 0.0, Total(options, weight));
    var scan := ScanFrom(options, 0, value, false, weight, accept);
    if scan.tried then Rounds(scan.selected, scan.options, pos + 1)
    else
      var index := IntFromDraw(s(pos + 1), 0, |options|);
      assert options == options[..index] + [options[index]] + options[index + 1..];
      Rounds(None, options[..index] + options[index + 1..], pos + 2)
  }

  /**
   * The `while` loop: passes from stream position `pos` until a candidate is
   * selected or none remains.
   */
  function WeightedRounds<T(==)>(s: Stream, pos: nat, options: seq<T>,
                                 weight: T -> real, accept: T -> bool): (r: Rounds<T>)
    ensures r.selected.Some? ==> accept(r.selected.value) && r.selected.value in options
    ensures r.selected.Some? ==> multiset(r.remaining) + multiset{r.selected.value} <= multiset(options)
    ensures r.selected.None? ==> r.remaining == []
    ensures multiset(r.remaining) <= multiset(options)
    ensures pos <= r.position <= pos + 2 * |options|
    decreases |options|
  {
    if |options| == 0 then Rounds(None, options, pos)
    else
      var round := RoundOnce(s, pos, options, weight, accept);
      if round.selected.Some? then
        RoundOnceRemovesSelected(s, pos, options, weight, accept);
        round
      else
        var r := WeightedRounds(s, round.position, round.remaining, weight, accept);
        assert r.selected.Some? ==> r.selected.value in multiset(round.remaining);
        r
  }

  /** A pass takes the candidate it selects out of the list: it is removed before the accepter is asked. */
  lemma {:induction false} ScanRemovesSelected<T>(options: seq<T>, i: nat, value: real, tried: bool,
                                                 weight: T -> real, accept: T -> bool)
    ensures var r := ScanFrom(options, i, value, tried, weight, accept);
      r.selected.Some? ==> multiset(r.options) + multiset{r.selected.value} <= multiset(options)
    decreases |options| - i, 1
  {
    if i < |options| {
      var option := options[i];
      if value <= weight(option) {
        ScanHitRemovesSelected(options, i, value, tried, weight, accept);
      } else {
        assert ScanFrom(options, i, value, tried, weight, accept)
            == ScanFrom(options, i + 1, value - weight(option), tried, weight, accept);
        ScanRemovesSelected(options, i + 1, value - weight(option), tried, weight, accept);
      }
    }
  }

  /** The case of `ScanRemovesSelected` where the candidate at `i` is hit. */
  lemma {:induction false} ScanHitRemovesSelected<T>(options: seq<T>, i: nat, value: real, tried: bool,
                                                    weight: T -> real, accept: T -> bool)
    requires i < |options| && value <= weight(options[i])
    ensures var r := ScanFrom(options, i, value, tried, weight, accept);
      r.selected.Some? ==> multiset(r.options) + multiset{r.selected.value} <= multiset(options)
    decreases |options| - i, 0
  {
    var option := options[i];
    var rest := RemoveFirst(options, option);
    assert multiset(rest) + multiset{option} == multiset(options) by {
      assert option in options;
    }
    if !accept(option) {
      assert ScanFrom(options, i, value, tried, weight, accept) == ScanFrom(rest, i + 1, value, true, weight, accept);
      ScanRemovesSelected(rest, i + 1, value, true, weight, accept);
    }
  }

  /** The same for one iteration of the `while` loop. */
  lemma RoundOnceRemovesSelected<T>(s: Stream, pos: nat, options: seq<T>, weight: T -> real, accept: T -> bool)
    requires |options| > 0
    ensures var r := RoundOnce(s, pos, options, weight, accept);
      r.selected.Some? ==> multiset(r.remaining) + multiset{r.selected.value} <= multiset(options)
  {
    ScanRemovesSelected(options, 0, FloatFromDraw(s(pos), 0.0, Total(options, weight)), false, weight, accept);
  }

  /** `options[seededRandom.GetInt(0, options.Count)]`: the uniform pick drawn before the loop. */
  function Fallback<T>(s: Stream, pos: nat, options: seq<T>): (r: T)
    requires |options| > 0
    ensures r in options
  {
    options[IntFromDraw(s(pos), 0, |options|)]
  }

  /** The result of `SelectWeighted`: the selection, what is left of the list, and the stream position. */
  datatype Picked<T> = Picked(selected: T, remaining: seq<T>, position: nat)

  /**
   * `SelectWeighted` from stream position `pos`: the fallback takes the first
   * draw, the weighted loop the following ones. The result is an option; it
   * was accepted, or every candidate was tried or dropped and it is the
   * fallback, whatever the accepter says of it.
   */
  function Selection<T(==)>(s: Stream, pos: nat, options: seq<T>,
                            weight: T -> real, accept: T -> bool): (r: Picked<T>)
    requires |options| > 0
    ensures r.selected in options
    ensures accept(r.selected) || (r.selected == Fallback(s, pos, options) && r.remaining == [])
    ensures (forall x :: x in options ==> !accept(x)) ==>
      r.selected == Fallback(s, pos, options) && r.remaining == []
    ensures multiset(r.remaining) <= multiset(options)
    ensures multiset(r.remaining) + multiset{r.selected} <= multiset(options)
    ensures pos + 1 <= r.position <= pos + 1 + 2 * |options|
  {
    var rounds := WeightedRounds(s, pos + 1, options, weight, accept);
    var selected := if rounds.selected.Some? then rounds.selected.value else Fallback(s, pos, options);
    assert rounds.selected.None? ==> multiset(rounds.remaining) + multiset{selected} == multiset{selected};
    Picked(selected, rounds.remaining, rounds.position)
  }

  lemma {:induction false} TotalConcat<T>(a: seq<T>, b: seq<T>, weight: T -> real)
    ensures Total(a + b, weight) == Total(a, weight) + Total(b, weight)
  {
    if a == [] {
      assert a + b == b;
    } else {
      assert (a + b)[1..] == a[1..] + b;
      TotalConcat(a[1..], b, weight);
    }
  }

  /** Adding the candidate at index `k` to the prefix sum. */
  lemma PrefixTotalStep<T>(s: seq<T>, k: nat, weight: T -> real)
    requires k < |s|
    ensures PrefixTotal(s, k + 1, weight) == PrefixTotal(s, k, weight) + weight(s[k])
  {
    assert s[..k + 1] == s[..k] + [s[k]];
    TotalConcat(s[..k], [s[k]], weight);
  }

  lemma {:induction false} NonNegativeTotal<T>(s: seq<T>, weight: T -> real)
    requires forall x :: x in s ==> 0.0 <= weight(x)
    ensures 0.0 <= Total(s, weight)
  {
    if s != [] {
      assert s[0] in s;
      assert forall x :: x in s[1..] ==> x in s;
      NonNegativeTotal(s[1..], weight);
    }
  }

  /**
   * A pass that starts at index `i` with a value no larger than the weight
   * of the candidates from `i` on removes a candidate: all misses would
   * leave a positive remainder after the last one.
   */
  lemma {:induction false} ScanTriesWithinTotal<T>(options: seq<T>, i: nat, value: real,
                                                       weight: T -> real, accept: T -> bool)
    requires i < |options|
    requires value <= Total(options[i..], weight)
    ensures ScanFrom(options, i, value, false, weight, accept).tried
    decreases |options| - i
  {
    var w := weight(options[i]);
    assert options[i..][1..] == options[i + 1..];
    assert Total(options[i..], weight) == w + Total(options[i + 1..], weight);
    if value > w {
      assert i + 1 < |options|;
      ScanTriesWithinTotal(options, i + 1, value - w, weight, accept);
    }
  }

  /**
   * With non-negative weights the drawn value never exceeds the total weight,
   * so every pass hits a candidate: the safety valve that drops a blind pick
   * is never taken and the pass costs exactly one draw.
   */
  lemma NonNegativeWeightsHitEveryPass<T>(s: Stream, pos: nat, options: seq<T>, weight: T -> real, accept: T -> bool)
    requires |options| > 0
    requires forall x :: x in options ==> 0.0 <= weight(x)
    ensures ScanFrom(options, 0, FloatFromDraw(s(pos), 0.0, Total(options, weight)), false, weight, accept).tried
    ensures RoundOnce(s, pos, options, weight, accept).position == pos + 1
  {
    NonNegativeTotal(options, weight);
    assert options[0..] == options;
    ScanTriesWithinTotal(options, 0, FloatFromDraw(s(pos), 0.0, Total(options, weight)), weight, accept);
  }

  /** Hence, with non-negative weights, the whole loop draws at most once per candidate. */
  lemma {:induction false} NonNegativeWeightsDrawOncePerCandidate<T>(s: Stream, pos: nat, options: seq<T>,
                                                                       weight: T -> real, accept: T -> bool)
    requires forall x :: x in options ==> 0.0 <= weight(x)
    ensures WeightedRounds(s, pos, options, weight, accept).position <= pos + |options|
    decreases |options|
  {
    if |options| > 0 {
      NonNegativeWeightsHitEveryPass(s, pos, options, weight, accept);
      var round := RoundOnce(s, pos, options, weight, accept);
      if round.selected.None? {
        forall x | x in round.remaining
          ensures 0.0 <= weight(x)
        {
          assert x in multiset(round.remaining);
        }
        NonNegativeWeightsDrawOncePerCandidate(s, pos + 1, round.remaining, weight, accept);
      }
    }
  }

  /**
   * The first pass misses every candidate before the first index `j` whose
   * prefix sum reaches the drawn value: it reaches `j` with that prefix
   * subtracted from the value.
   */
  lemma {:induction false} ScanReachesCumulativeIndex<T>(options: seq<T>, i: nat, j: nat, value: real,
                                                             weight: T -> real, accept: T -> bool)
    requires i <= j < |options|
    requires forall k: nat :: i < k <= j ==> PrefixTotal(options, k, weight) < value
    ensures ScanFrom(options, i, value - PrefixTotal(options, i, weight), false, weight, accept)
         == ScanFrom(options, j, value - PrefixTotal(options, j, weight), false, weight, accept)
    decreases j - i
  {
    if i < j {
      PrefixTotalStep(options, i, weight);
      var remainder := value - PrefixTotal(options, i, weight);
      assert PrefixTotal(options, i + 1, weight) < value;
      assert remainder > weight(options[i]);
      assert remainder - weight(options[i]) == value - PrefixTotal(options, i + 1, weight);
      ScanMiss(options, i, remainder, weight, accept);
      ScanReachesCumulativeIndex(options, i + 1, j, value, weight, accept);
    }
  }

  /** A miss at index `i` moves on to `i + 1` with the weight there subtracted. */
  lemma ScanMiss<T>(options: seq<T>, i: nat, value: real, weight: T -> real, accept: T -> bool)
    requires i < |options|
    requires value > weight(options[i])
    ensures ScanFrom(options, i, value, false, weight, accept)
         == ScanFrom(options, i + 1, value - weight(options[i]), false, weight, accept)
  {
  }

  /**
   * Accepting everything, the selection is the candidate whose slice of the
   * cumulative weight, (PrefixTotal(j), PrefixTotal(j + 1)], holds the value
   * drawn after the fallback: a candidate is picked with probability
   * proportional to its weight, and the loop ends after one pass.
   */
  lemma SelectionAcceptingAnyIsCumulative<T>(s: Stream, pos: nat, options: seq<T>, weight: T -> real, j: nat)
    requires j < |options|
    requires forall k: nat :: 0 < k <= j ==>
      PrefixTotal(options, k, weight) < FloatFromDraw(s(pos + 1), 0.0, Total(options, weight))
    requires FloatFromDraw(s(pos + 1), 0.0, Total(options, weight)) <= PrefixTotal(options, j + 1, weight)
    ensures Selection(s, pos, options, weight, AcceptAny).selected == options[j]
    ensures Selection(s, pos, options, weight, AcceptAny).position == pos + 2
  {
    var value := FloatFromDraw(s(pos + 1), 0.0, Total(options, weight));
    FirstPassHitsCumulative(options, j, value, weight);
    SelectionOfFirstPassHit(s, pos, options, weight, AcceptAny);
  }

  /** The first pass, accepting everything, selects the candidate whose cumulative slice holds the value. */
  lemma FirstPassHitsCumulative<T>(options: seq<T>, j: nat, value: real, weight: T -> real)
    requires j < |options|
    requires forall k: nat :: 0 < k <= j ==> PrefixTotal(options, k, weight) < value
    requires value <= PrefixTotal(options, j + 1, weight)
    ensures ScanFrom(options, 0, value, false, weight, AcceptAny).selected == Some(options[j])
  {
    assert PrefixTotal(options, 0, weight) == 0.0 by {
      assert options[..0] == [];
    }
    ScanReachesCumulativeIndex(options, 0, j, value, weight, AcceptAny);
    PrefixTotalStep(options, j, weight);
    ScanHitAccepted(options, j, value - PrefixTotal(options, j, weight), weight);
  }

  /** A pass at index `i` whose value falls within the weight there takes that candidate, all being acceptable. */
  lemma ScanHitAccepted<T>(options: seq<T>, i: nat, value: real, weight: T -> real)
    requires i < |options|
    requires value <= weight(options[i])
    ensures ScanFrom(options, i, value, false, weight, AcceptAny).selected == Some(options[i])
  {
  }

  /** A first pass that selects ends the selection after two draws. */
  lemma SelectionOfFirstPassHit<T>(s: Stream, pos: nat, options: seq<T>, weight: T -> real, accept: T -> bool)
    requires |options| > 0
    requires ScanFrom(options, 0, FloatFromDraw(s(pos + 1), 0.0, Total(options, weight)), false, weight, accept).selected.Some?
    ensures Selection(s, pos, options, weight, accept).selected
         == ScanFrom(options, 0, FloatFromDraw(s(pos + 1), 0.0, Total(options, weight)), false, weight, accept).selected.value
    ensures Selection(s, pos, options, weight, accept).position == pos + 2
  {
    RoundOnceUnfold(s, pos + 1, options, weight, accept);
    SelectionUnfold(s, pos, options, weight, accept);
  }

  /**
   * After a rejected hit the pass goes on at the next index of the shortened
   * list with the value unchanged: here 1 is hit and rejected, 2 moves into
   * its slot and is passed over, and 3 is hit and selected.
   */
  lemma RejectedHitSkipsShiftedCandidate()
    ensures ScanFrom([1, 2, 3], 0, 0.5, false, (x: int) => 1.0, (x: int) => x != 1) == Scan([2], 0.5, true, Some(3))
  {
    assert RemoveFirst([1, 2, 3], 1) == [2, 3];
    assert RemoveFirst([2, 3], 3) == [2];
  }

  /**
   * `SelectWeighted(seededRandom, options, accepter)` on the caller's list:
   * every candidate the loop tries or drops is removed from `options`.
   */
  method SelectWeighted<T(==)>(rng: SeededRandom, options: List<T>, weight: T -> real, accept: T -> bool)
    returns (selected: T)
    requires 0 < |options.items| <= INT32_MAX
    modifies rng, options
    ensures Picked(selected, options.items, rng.position)
         == Selection(rng.Draws(), old(rng.position), old(options.items), weight, accept)
  {
    ghost var s, pos, items := rng.Draws(), rng.position, options.items;
    var randomSelection := DrawFallback(rng, options);
    var chosen := SelectionLoop(rng, options, weight, accept);
    selected := if chosen.Some? then chosen.value else randomSelection;
    SelectionUnfold(s, pos, items, weight, accept);
  }

  /** `options[seededRandom.GetInt(0, options.Count)]`, drawn before the loop. */
  method DrawFallback<T(==)>(rng: SeededRandom, options: List<T>) returns (pick: T)
    requires 0 < |options.items| <= INT32_MAX
    modifies rng
    ensures pick == Fallback(rng.Draws(), old(rng.position), options.items)
    ensures rng.position == old(rng.position) + 1
  {
    var randomIndex := rng.GetInt(0, |options.items|);
    pick := options.items[randomIndex];
  }

  /** `Selection` in terms of the loop it runs after the fallback draw. */
  lemma SelectionUnfold<T>(s: Stream, pos: nat, options: seq<T>, weight: T -> real, accept: T -> bool)
    requires |options| > 0
    ensures var rounds := WeightedRounds(s, pos + 1, options, weight, accept);
      Selection(s, pos, options, weight, accept)
      == Picked(if rounds.selected.Some? then rounds.selected.value else Fallback(s, pos, options), rounds.remaining, rounds.position)
  {
  }

  /** The `while` loop of `SelectWeighted`: passes until a candidate is selected or the list is empty. */
  method SelectionLoop<T(==)>(rng: SeededRandom, options: List<T>, weight: T -> real, accept: T -> bool)
    returns (chosen: Option<T>)
    requires |options.items| <= INT32_MAX
    modifies rng, options
    ensures Rounds(chosen, options.items, rng.position)
         == WeightedRounds(rng.Draws(), old(rng.position), old(options.items), weight, accept)
  {
    chosen := None;
    ghost var goal := WeightedRounds(rng.Draws(), rng.position, options.items, weight, accept);
    while chosen.None? && |options.items| > 0
      invariant chosen.None? ==> WeightedRounds(rng.Draws(), rng.position, options.items, weight, accept) == goal
      invariant chosen.Some? ==> Rounds(chosen, options.items, rng.position) == goal
      invariant |options.items| <= INT32_MAX
      decreases |options.items|
    {
      chosen := Round(rng, options, weight, accept);
    }
  }

  /** One pass of the `while` loop body. */
  method Round<T(==)>(rng: SeededRandom, options: List<T>, weight: T -> real, accept: T -> bool)
    returns (chosen: Option<T>)
    requires 0 < |options.items| <= INT32_MAX
    modifies rng, options
    ensures Rounds(chosen, options.items, rng.position)
         == RoundOnce(rng.Draws(), old(rng.position), old(options.items), weight, accept)
  {
    ghost var s, pos, items := rng.Draws(), rng.position, options.items;
    var total := SumWeights(options, weight);
    var value := rng.GetFloatBetween(0.0, total);
    var tried;
    tried, chosen := Pass(options, value, weight, accept);
    RoundOnceUnfold(s, pos, items, weight, accept);
    if !tried {
      DropBlindPick(rng, options);
    }
  }

  /** `RoundOnce` by cases on whether the scan removed a candidate. */
  lemma RoundOnceUnfold<T>(s: Stream, pos: nat, options: seq<T>, weight: T -> real, accept: T -> bool)
    requires |options| > 0
    ensures var scan := ScanFrom(options, 0, FloatFromDraw(s(pos), 0.0, Total(options, weight)), false, weight, accept);
      && (scan.tried ==> RoundOnce(s, pos, options, weight, accept) == Rounds(scan.selected, scan.options, pos + 1))
      && (!scan.tried ==>
            var index := IntFromDraw(s(pos + 1), 0, |options|);
            RoundOnce(s, pos, options, weight, accept) == Rounds(None, options[..index] + options[index + 1..], pos + 2))
  {
  }

  /** Nothing was hit: remove a uniformly drawn candidate so that the loop still ends. */
  method DropBlindPick<T(==)>(rng: SeededRandom, options: List<T>)
    requires 0 < |options.items| <= INT32_MAX
    modifies rng, options
    ensures var index := IntFromDraw(rng.Draws()(old(rng.position)), 0, |old(options.items)|);
      options.items == old(options.items)[..index] + old(options.items)[index + 1..]
    ensures rng.position == old(rng.position) + 1
  {
    var index := rng.GetInt(0, |options.items|);
    options.RemoveAt(index);
  }

  /** The `foreach` loop that sums the weights of the remaining candidates. */
  method SumWeights<T(==)>(options: List<T>, weight: T -> real) returns (total: real)
    ensures total == Total(options.items, weight)
  {
    total := 0.0;
    var k := 0;
    while k < |options.items|
      invariant 0 <= k <= |options.items|
      invariant total == PrefixTotal(options.items, k, weight)
    {
      PrefixTotalStep(options.items, k, weight);
      total := total + weight(options.items[k]);
      k := k + 1;
    }
    assert options.items[..k] == options.items;
  }

  /** The `for` loop of one pass over the list, removing the candidates it hits. */
  method Pass<T(==)>(options: List<T>, value: real, weight: T -> real, accept: T -> bool)
    returns (tried: bool, chosen: Option<T>)
    modifies options
    ensures ScanFrom(old(options.items), 0, value, false, weight, accept).options == options.items
    ensures ScanFrom(old(options.items), 0, value, false, weight, accept).tried == tried
    ensures ScanFrom(old(options.items), 0, value, false, weight, accept).selected == chosen
  {
    ghost var scan := ScanFrom(options.items, 0, value, false, weight, accept);
    var remainder := value;
    tried, chosen := false, None;
    var i := 0;
    while i < |options.items|
      invariant chosen.None?
      invariant ScanFrom(options.items, i, remainder, tried, weight, accept) == scan
      decreases |options.items| - i
    {
      var option := options.items[i];
      if remainder <= weight(option) {
        options.Remove(option);
        tried := true;
        if accept(option) {
          chosen := Some(option);
          break;
        }
      } else {
        remainder := remainder - weight(option);
      }
      i := i + 1;
    }
  }

  /** `SelectWeighted(seededRandom, options)` on the caller's list: every candidate is acceptable. */
  method SelectWeightedAll<T(==)>(rng: SeededRandom, options: List<T>, weight: T -> real) returns (selected: T)
    requires 0 < |options.items| <= INT32_MAX
    modifies rng, options
    ensures Picked(selected, options.items, rng.position)
         == Selection(rng.Draws(), old(rng.position), old(options.items), weight, AcceptAny)
  {
    selected := SelectWeighted(rng, options, weight, AcceptAny);
  }

  /**
   * `SelectWeighted(seededRandom, options, accepter)` on an array: the fresh
   * list copy is what the selection consumes, so the array keeps its contents.
   */
  method SelectWeightedArray<T(==)>(rng: SeededRandom, options: array<T>, weight: T -> real, accept: T -> bool)
    returns (selected: T)
    requires 0 < options.Length <= INT32_MAX
    modifies rng
    ensures selected == Selection(rng.Draws(), old(rng.position), options[..], weight, accept).selected
    ensures rng.position == Selection(rng.Draws(), old(rng.position), options[..], weight, accept).position
    ensures options[..] == old(options[..])
  {
    var copy := new List(options[..]);
    selected := SelectWeighted(rng, copy, weight, accept);
  }

  /** `SelectWeighted(seededRandom, options)` on an array: the fresh list copy is consumed, not the array. */
  method SelectWeightedArrayAll<T(==)>(rng: SeededRandom, options: array<T>, weight: T -> real) returns (selected: T)
    requires 0 < options.Length <= INT32_MAX
    modifies rng
    ensures selected == Selection(rng.Draws(), old(rng.position), options[..], weight, AcceptAny).selected
    ensures rng.position == Selection(rng.Draws(), old(rng.position), options[..], weight, AcceptAny).position
    ensures options[..] == old(options[..])
  {
    selected := SelectWeightedArray(rng, options, weight, AcceptAny);
  }
}
