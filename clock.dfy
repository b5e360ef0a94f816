/**
 * The game clock: a time in milliseconds shown as `MM:SS`, minutes and
 * seconds each cut to their last two decimal digits, negative parts shown as
 * zero.
 */
module Clock {

  import opened Js

  /** `s.substr(-2)`: the last two characters, or all of a shorter string. */
  function LastTwo(s: string): (r: string)
    ensures |s| >= 2 ==> |r| == 2 && s == s[..|s| - 2] + r
    ensures |s| < 2 ==> r == s
  {
    if |s| >= 2 then s[|s| - 2..] else s
  }

  /**
   * `padWithLeadingZeros`: the last two characters of `"00"` followed by the
   * digits of `n` — its tens and units digits.
   */
  function Pad(n: nat): (s: string)
    ensures s == [Digit((n / 10) % 10), Digit(n % 10)]
  {
    LastTwoOfZeroPadded(n);
    LastTwo("00" + NatToString(n))
  }

  /** `getFormattedTime` over an integer number of milliseconds. */
  function FormattedTime(ms: int): (text: string)
    ensures |text| == 5 && text[2] == ':'
    ensures AllDigits(text[..2]) && AllDigits(text[3..])
  {
    var minutes := FloorDiv(ms, 60000);
    var seconds := Rem(FloorDiv(ms, 1000), 60);
    var m := if minutes >= 0 then minutes else 0;
    var s := if seconds >= 0 then seconds else 0;
    PadsJoined(m, s);
    Pad(m) + ":" + Pad(s)
  }

  /** Two padded numbers joined by a colon: five characters, digits around the colon. */
  lemma PadsJoined(m: nat, s: nat)
    ensures var text := Pad(m) + ":" + Pad(s);
      && |text| == 5 && text[2] == ':' && text[..2] == Pad(m) && text[3..] == Pad(s)
      && AllDigits(text[..2]) && AllDigits(text[3..])
  {
    var text := Pad(m) + ":" + Pad(s);
    assert text[..2] == Pad(m) && text[3..] == Pad(s);
  }

  /** The tens and units digits of `n` make up `n` modulo 100. */
  lemma TensAndUnits(n: nat)
    ensures ((n / 10) % 10) * 10 + n % 10 == n % 100
  {
    var a, r := n / 100, n % 100;
    assert n == 10 * (10 * a + r / 10) + r % 10;
    assert n / 10 == 10 * a + r / 10 && n % 10 == r % 10;
    assert (n / 10) % 10 == r / 10;
  }

  /** Two digits read back as the number below 100 they denote. */
  lemma PadReadsBack(n: nat)
    ensures ParseNat(Pad(n)) == n % 100
  {
    var tens, units := (n / 10) % 10, n % 10;
    var s := Pad(n);
    assert s[..1] == [Digit(tens)];
    assert [Digit(tens)][..0] == [];
    assert ParseNat(s[..1]) == tens && DigitValue(s[1]) == units;
    assert ParseNat(s) == tens * 10 + units;
    TensAndUnits(n);
  }

  /** A non-negative time is shown as its whole minutes and its seconds within the minute. */
  lemma FormattedTimeParts(ms: int)
    requires ms >= 0
    ensures FormattedTime(ms) == Pad(ms / 60000) + ":" + Pad((ms / 1000) % 60)
  {
    assert FloorDiv(ms, 60000) == ms / 60000;
    assert Rem(FloorDiv(ms, 1000), 60) == (ms / 1000) % 60;
  }

  /** The two halves of a joined text read back as the minutes below 100 and the seconds. */
  lemma PadsReadBack(m: nat, s: nat)
    requires s < 60
    ensures var text := Pad(m) + ":" + Pad(s);
      && ParseNat(text[..2]) == m % 100 && ParseNat(text[3..]) == s
  {
    PadsJoined(m, s);
    PadReadsBack(m);
    PadReadsBack(s);
  }

  /**
   * For a non-negative time the text shows the whole minutes modulo 100 and
   * the seconds within the minute.
   */
  lemma FormattedTimeOfNonNegative(ms: int)
    requires ms >= 0
    ensures var text := FormattedTime(ms);
      && ParseNat(text[..2]) == (ms / 60000) % 100
      && ParseNat(text[3..]) == (ms / 1000) % 60
  {
    FormattedTimeParts(ms);
    PadsReadBack(ms / 60000, (ms / 1000) % 60);
  }

  /** A minute count of 100 or more loses its hundreds: 100 minutes shows `00:00`. */
  lemma HundredMinutesWrap()
    ensures FormattedTime(6000000) == "00:00"
  {
    assert FloorDiv(6000000, 60000) == 100;
    assert Rem(FloorDiv(6000000, 1000), 60) == 0;
  }

  /** Any negative time shows as `00:00`. */
  lemma NegativeTimeShowsZero(ms: int)
    requires ms < 0
    ensures FormattedTime(ms) == "00:00"
  {
    var q := FloorDiv(ms, 1000);
    assert q < 0;
    assert Rem(q, 60) <= 0;
  }

  /** Whole minutes are whole seconds divided by 60. */
  lemma MinutesOfSeconds(ms: nat)
    ensures (ms / 1000) / 60 == ms / 60000
  {
    var q, r := ms / 60000, ms % 60000;
    assert ms == 60000 * q + r;
    assert ms == 1000 * (60 * q + r / 1000) + r % 1000;
    assert ms / 1000 == 60 * q + r / 1000;
  }

  /**
   * Within the first 100 minutes the text locates the time to the second:
   * the minutes and seconds it shows add up to the time, rounded down.
   */
  lemma FormattedTimeLocates(ms: int)
    requires 0 <= ms < 6000000
    ensures var text := FormattedTime(ms);
      var shown := ParseNat(text[..2]) * 60000 + ParseNat(text[3..]) * 1000;
      shown <= ms < shown + 1000
  {
    var text := FormattedTime(ms);
    FormattedTimeOfNonNegative(ms);
    MinutesOfSeconds(ms);
    var seconds, minutes := ms / 1000, ms / 60000;
    assert minutes % 100 == minutes by {
      assert 0 <= minutes < 100;
    }
    var m, s := ParseNat(text[..2]), ParseNat(text[3..]);
    assert m == minutes && s == seconds % 60;
    assert seconds == 60 * minutes + s;
    assert m * 60000 + s * 1000 == 1000 * seconds;
    assert 1000 * seconds <= ms < 1000 * seconds + 1000;
  }
}
