/**
 * `game.Currency`: a price or payment in gold, hearts and time. Its fields
 * are set by the constructors only, so it is a value.
 */
module GameCurrency {
  import opened SimTime
  import opened Rounding
  import opened Wrappers

  const MS_PER_MINUTE: int := 60000

  /** `new Currency(gold, hearts, duration)`. */
  datatype Currency = Currency(gold: int, hearts: int, duration: Duration)

  /**
   * `new Currency(other, multiplier, roundToMinutes)`: gold and duration are
   * scaled and rounded, hearts are copied; with `roundToMinutes` the
   * duration is then rounded to the nearest whole minute.
   */
  function Scaled(other: Currency, multiplier: real, roundToMinutes: bool): (r: Currency)
    ensures r.hearts == other.hearts
    ensures Distance(r.gold as real, other.gold as real * multiplier) <= 0.5
    ensures !roundToMinutes ==> Distance(r.duration as real, other.duration as real * multiplier) <= 0.5
    ensures roundToMinutes ==> r.duration % MS_PER_MINUTE == 0
    ensures roundToMinutes ==>
      Distance(r.duration as real, other.duration as real * multiplier) <= (MS_PER_MINUTE / 2) as real + 0.5
  {
    var milliseconds := RoundToInt(other.duration as real * multiplier);
    var duration :=
      if roundToMinutes then RoundToInt(milliseconds as real / MS_PER_MINUTE as real) * MS_PER_MINUTE
      else milliseconds;
    assert roundToMinutes ==> Distance(duration as real, milliseconds as real) <= (MS_PER_MINUTE / 2) as real by {
      if roundToMinutes {
        MinuteRounding(milliseconds);
      }
    }
    RoundToIntOfInt(other.hearts);
    Currency(RoundToInt(other.gold as real * multiplier), RoundToInt(other.hearts as real), duration)
  }

  /** Rounding to whole minutes moves a duration by at most half a minute. */
  lemma MinuteRounding(ms: int)
    ensures Distance((RoundToInt(ms as real / MS_PER_MINUTE as real) * MS_PER_MINUTE) as real, ms as real)
         <= (MS_PER_MINUTE / 2) as real
  {
    var x := ms as real / MS_PER_MINUTE as real;
    var k := RoundToInt(x);
    assert Distance(k as real, x) <= 0.5;
    assert ms as real == x * MS_PER_MINUTE as real;
    assert (k * MS_PER_MINUTE) as real - ms as real == (k as real - x) * MS_PER_MINUTE as real;
  }

  // ---------------------------------------------------------------------
  // Decimal text

  predicate IsDigit(c: char) {
    '0' <= c <= '9'
  }

  predicate AllDigits(s: string) {
    forall i :: 0 <= i < |s| ==> IsDigit(s[i])
  }

  function DigitChar(d: nat): (c: char)
    requires d < 10
    ensures IsDigit(c) && (c as int) - ('0' as int) == d
  {
    "0123456789"[d]
  }

  /** `n.ToString()` for a non-negative `int`: its decimal digits, without leading zeros. */
  function NatToString(n: nat): (r: string)
    ensures |r| >= 1 && AllDigits(r)
    ensures r[0] == '0' <==> n == 0
    ensures n == 0 ==> r == "0"
    decreases n
  {
    if n < 10 then [DigitChar(n)]
    else NatToString(n / 10) + [DigitChar(n % 10)]
  }

  /** The number a string of decimal digits denotes. */
  function ParseNat(s: string): nat
    requires AllDigits(s)
  {
    if s == [] then 0
    else ParseNat(s[..|s| - 1]) * 10 + ((s[|s| - 1] as int) - ('0' as int))
  }

  /** Reading back the text of a number gives the number. */
  lemma {:induction false} ParseNatToString(n: nat)
    ensures ParseNat(NatToString(n)) == n
    decreases n
  {
    if n >= 10 {
      var r := NatToString(n);
      assert r[..|r| - 1] == NatToString(n / 10);
      ParseNatToString(n / 10);
    }
  }

  // ---------------------------------------------------------------------
  // Currency.ToString

  /** `gold + " gold"`: the amount's digits, then the word. */
  function GoldText(gold: nat): (r: string)
    ensures |r| > 5 && r[|r| - 5..] == " gold" && AllDigits(r[..|r| - 5])
  {
    var digits := NatToString(gold);
    assert (digits + " gold")[..|digits|] == digits;
    digits + " gold"
  }

  /** `hearts + " heart" + (hearts > 1 ? "s" : "")`: the count's digits, then the word, plural above one. */
  function HeartsText(hearts: nat): (r: string)
    ensures var word := if hearts > 1 then " hearts" else " heart";
      |r| > |word| && r[|r| - |word|..] == word && AllDigits(r[..|r| - |word|])
  {
    var digits := NatToString(hearts);
    var word := if hearts > 1 then " hearts" else " heart";
    assert digits + " heart" + (if hearts > 1 then "s" else "") == digits + word;
    assert (digits + word)[..|digits|] == digits;
    digits + " heart" + (if hearts > 1 then "s" else "")
  }

  /** The digits in front of the word read back as the amount. */
  lemma AmountTextRoundTrip(gold: nat, hearts: nat)
    ensures var g := GoldText(gold); ParseNat(g[..|g| - 5]) == gold
    ensures var h := HeartsText(hearts); var word := if hearts > 1 then " hearts" else " heart";
      ParseNat(h[..|h| - |word|]) == hearts
  {
    ParseNatToString(gold);
    ParseNatToString(hearts);
    var g := GoldText(gold);
    assert g[..|g| - 5] == NatToString(gold);
    var h := HeartsText(hearts);
    var word := if hearts > 1 then " hearts" else " heart";
    assert h == NatToString(hearts) + word;
    assert h[..|h| - |word|] == NatToString(hearts);
  }

  /** `(int)(ms / 60000)` split into hours and minutes, as `H:MM`. */
  function DurationText(ms: nat): (r: string)
    ensures |r| >= 4 && r[|r| - 3] == ':'
  {
    var totalMinutes := ms / MS_PER_MINUTE;
    var hours := totalMinutes / 60;
    var h := NatToString(hours);
    var mm := TwoDigits(totalMinutes % 60);
    assert (h + ":" + mm)[|h|] == ':';
    h + ":" + mm
  }

  /** `(minutes < 10 ? "0" : "") + minutes`: at least two digits, exactly two below 100. */
  function TwoDigits(minutes: nat): (r: string)
    ensures |r| >= 2 && AllDigits(r)
    ensures minutes < 100 ==> |r| == 2
  {
    var digits := NatToString(minutes);
    if minutes < 10 then "0" + digits
    else
      assert digits == NatToString(minutes / 10) + [DigitChar(minutes % 10)];
      assert minutes < 100 ==> NatToString(minutes / 10) == [DigitChar(minutes / 10)];
      digits
  }

  /** Below 60, the padded minutes are two digits that read back as the minutes. */
  lemma TwoDigitsRoundTrip(minutes: nat)
    requires minutes < 60
    ensures var t := TwoDigits(minutes); |t| == 2 && AllDigits(t) && ParseNat(t) == minutes
  {
    var t := TwoDigits(minutes);
    ParseNatToString(minutes);
    if minutes < 10 {
      assert t == "0" + NatToString(minutes);
      assert t[..1] == "0";
    } else {
      assert NatToString(minutes) == NatToString(minutes / 10) + [DigitChar(minutes % 10)];
    }
  }

  /** `Currency.ToString()`: the gold, if any, comes first and the time, if any, last. */
  function ToString(c: Currency): (r: string)
    ensures c.gold > 0 ==> |GoldText(c.gold)| <= |r| && r[..|GoldText(c.gold)|] == GoldText(c.gold)
    ensures c.duration > 0 ==>
      |DurationText(c.duration)| <= |r| && r[|r| - |DurationText(c.duration)|..] == DurationText(c.duration)
  {
    var withGold := if c.gold > 0 then GoldText(c.gold) else "";
    var withHearts :=
      if c.hearts > 0 then withGold + (if withGold != "" then ", " else "") + HeartsText(c.hearts)
      else withGold;
    if Longer(c.duration, 0) then withHearts + (if withHearts != "" then " and " else "") + DurationText(c.duration)
    else withHearts
  }

  /** Items joined by ", ". */
  function Commas(items: seq<string>): string {
    if |items| == 0 then ""
    else if |items| == 1 then items[0]
    else items[0] + ", " + Commas(items[1..])
  }

  /** An English list: the amounts joined by ", ", then " and " before the time, if any. */
  function EnglishList(amounts: seq<string>, time: Option<string>): string {
    match time
    case None => Commas(amounts)
    case Some(t) => if amounts == [] then t else Commas(amounts) + " and " + t
  }

  /** The parts of a currency that are shown: positive gold and hearts, and a positive duration. */
  function Amounts(c: Currency): seq<string> {
    (if c.gold > 0 then [GoldText(c.gold)] else []) + (if c.hearts > 0 then [HeartsText(c.hearts)] else [])
  }

  function TimePart(c: Currency): Option<string> {
    if c.duration > 0 then Some(DurationText(c.duration)) else None
  }

  /** The text of a currency is the English list of its shown parts. */
  lemma ToStringIsEnglishList(c: Currency)
    ensures ToString(c) == EnglishList(Amounts(c), TimePart(c))
  {
    var amounts := Commas(Amounts(c));
    if c.gold > 0 && c.hearts > 0 {
      var items := [GoldText(c.gold), HeartsText(c.hearts)];
      assert Amounts(c) == items;
      assert items[1..] == [HeartsText(c.hearts)];
      assert Commas(items[1..]) == HeartsText(c.hearts);
    } else if c.gold > 0 {
      assert Amounts(c) == [GoldText(c.gold)];
    } else if c.hearts > 0 {
      assert Amounts(c) == [HeartsText(c.hearts)];
    } else {
      assert Amounts(c) == [];
    }
    assert amounts == "" <==> c.gold <= 0 && c.hearts <= 0 by {
      if c.gold > 0 {
        assert |GoldText(c.gold)| > 0;
      } else if c.hearts > 0 {
        assert |HeartsText(c.hearts)| > 0;
      }
    }
  }

  /** The text is empty exactly when there is no positive gold, heart or time. */
  lemma ToStringEmpty(c: Currency)
    ensures ToString(c) == "" <==> c.gold <= 0 && c.hearts <= 0 && c.duration <= 0
  {
    if c.gold > 0 {
      assert |GoldText(c.gold)| > 0;
    }
    if c.hearts > 0 {
      assert |HeartsText(c.hearts)| > 0;
    }
    if c.duration > 0 {
      assert |DurationText(c.duration)| > 0;
    }
  }

  /** "heart" takes a plural "s" exactly when there is more than one. */
  lemma HeartsPlural(hearts: nat)
    ensures var t := HeartsText(hearts); t[|t| - 1] == 's' <==> hearts > 1
  {
    var t := HeartsText(hearts);
    if hearts <= 1 {
      assert t == NatToString(hearts) + " heart";
    }
  }

  /**
   * The time is written `H:MM`: after the colon come exactly two digits, and
   * reading the hours and the minutes back gives the whole minutes of the
   * duration.
   */
  lemma DurationTextRoundTrip(ms: nat)
    ensures var t := DurationText(ms);
      && |t| >= 4
      && t[|t| - 3] == ':'
      && AllDigits(t[..|t| - 3]) && AllDigits(t[|t| - 2..])
      && ParseNat(t[|t| - 2..]) < 60
      && ParseNat(t[..|t| - 3]) * 60 + ParseNat(t[|t| - 2..]) == ms / MS_PER_MINUTE
  {
    var totalMinutes := ms / MS_PER_MINUTE;
    var h := NatToString(totalMinutes / 60);
    var mm := TwoDigits(totalMinutes % 60);
    TwoDigitsRoundTrip(totalMinutes % 60);
    ParseNatToString(totalMinutes / 60);
    var t := DurationText(ms);
    assert t == h + ":" + mm;
    assert t[..|t| - 3] == h;
    assert t[|t| - 2..] == mm;
  }

  /** A sample: 1500 gold, 2 hearts and 65 minutes. */
  lemma ToStringSample()
    ensures ToString(Currency(1500, 2, 3900000)) == "1500 gold, 2 hearts and 1:05"
  {
    AllPartsShown(Currency(1500, 2, 3900000));
    SampleParts();
    SampleJoined();
  }

  lemma SampleJoined()
    ensures "1500 gold" + ", " + "2 hearts" + " and " + "1:05" == "1500 gold, 2 hearts and 1:05"
  {
  }

  lemma AllPartsShown(c: Currency)
    requires c.gold > 0 && c.hearts > 0 && c.duration > 0
    ensures ToString(c) == GoldText(c.gold) + ", " + HeartsText(c.hearts) + " and " + DurationText(c.duration)
  {
    assert GoldText(c.gold) != "";
  }

  lemma SampleParts()
    ensures GoldText(1500) == "1500 gold"
    ensures HeartsText(2) == "2 hearts"
    ensures DurationText(3900000) == "1:05"
  {
    SampleDigits();
    assert NatToString(2) == "2";
    SampleDuration();
  }

  lemma SampleDigits()
    ensures NatToString(1500) == "1500"
  {
    assert NatToString(1) == "1";
    assert NatToString(15) == "15";
    assert NatToString(150) == "150";
  }

  lemma SampleDuration()
    ensures DurationText(3900000) == "1:05"
  {
    assert 3900000 / MS_PER_MINUTE == 65;
    assert NatToString(1) == "1";
    assert TwoDigits(5) == "05" by {
      assert NatToString(5) == "5";
    }
  }

}
