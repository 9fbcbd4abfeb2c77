/**
 * The election countdown (components/campaign/CampaignHero.tsx): the
 * remaining milliseconds split into days, hours, minutes and seconds, each
 * shown with at least two digits.
 */
module CampaignHero {
  import opened Decimal

  const MsPerSecond := 1000
  const MsPerMinute := 60 * 1000
  const MsPerHour := 60 * 60 * 1000
  const MsPerDay := 24 * 60 * 60 * 1000

  datatype TimeLeft = TimeLeft(days: nat, hours: nat, minutes: nat, seconds: nat)

  /** The state before the first tick. */
  const Initial := TimeLeft(0, 0, 0, 0)

  /** The split of a positive number of milliseconds (the `Math.floor`s over whole milliseconds). */
  function Split(d: nat): TimeLeft
  {
    TimeLeft(d / MsPerDay, (d / MsPerHour) % 24, (d / MsPerMinute) % 60, (d / MsPerSecond) % 60)
  }

  /** One tick of the interval: a positive difference is split, otherwise the shown value stays. */
  function Tick(shown: TimeLeft, difference: int): (r: TimeLeft)
    ensures difference <= 0 ==> r == shown
  {
    if difference > 0 then Split(difference) else shown
  }

  /** The milliseconds a split stands for. */
  function Total(t: TimeLeft): nat
  {
    t.days * MsPerDay + t.hours * MsPerHour + t.minutes * MsPerMinute + t.seconds * MsPerSecond
  }

  /** The split depends on the whole seconds only. */
  lemma SplitBySeconds(d: nat)
    ensures Split(d) == TimeLeft(d / 1000 / 86400, (d / 1000 / 3600) % 24, (d / 1000 / 60) % 60, (d / 1000) % 60)
  {
    var s := d / 1000;
    assert d / MsPerMinute == s / 60;
    assert d / MsPerHour == s / 3600;
    assert d / MsPerDay == s / 86400;
  }

  /** Days, hours, minutes and seconds of a number of seconds add back up to it. */
  lemma SecondsRecombine(s: nat)
    ensures 86400 * (s / 86400) + 3600 * ((s / 3600) % 24) + 60 * ((s / 60) % 60) + s % 60 == s
  {
    var m := s / 60;
    var h := m / 60;
    assert s / 3600 == h;
    assert s / 86400 == h / 24;
    assert h == 24 * (h / 24) + h % 24;
    assert m == 60 * h + m % 60;
    assert s == 60 * m + s % 60;
  }

  /**
   * Hours, minutes and seconds are within their ranges, and the split
   * accounts for the time to the second: recombined, it is the difference
   * rounded down to whole seconds, at most 999 milliseconds below it.
   */
  lemma SplitFaithful(d: nat)
    ensures Split(d).hours < 24 && Split(d).minutes < 60 && Split(d).seconds < 60
    ensures Total(Split(d)) == 1000 * (d / 1000)
    ensures Total(Split(d)) <= d < Total(Split(d)) + 1000
  {
    var s := d / 1000;
    SplitBySeconds(d);
    SecondsRecombine(s);
    var t := Split(d);
    assert Total(t) == 1000 * (86400 * t.days + 3600 * t.hours + 60 * t.minutes + t.seconds);
  }

  /** Two differences show the same countdown exactly when they fall in the same whole second. */
  lemma SplitSameSecond(d1: nat, d2: nat)
    ensures Split(d1) == Split(d2) <==> d1 / 1000 == d2 / 1000
  {
    SplitFaithful(d1);
    SplitFaithful(d2);
    SplitBySeconds(d1);
    SplitBySeconds(d2);
  }

  /** `String(value).padStart(2, "0")`. */
  function Shown(value: nat): (s: string)
    ensures |s| >= 2
  {
    PadStart2(ToDecimal(value))
  }

  /**
   * Each shown value reads back as the value; hours, minutes and seconds
   * always take exactly two characters, and so do days below 100.
   */
  lemma ShownFaithful(t: TimeLeft, d: nat)
    ensures AllDigits(Shown(t.days)) && Value(Shown(t.days)) == t.days
    ensures t.days < 100 ==> |Shown(t.days)| == 2
    ensures |Shown(Split(d).hours)| == 2 && |Shown(Split(d).minutes)| == 2 && |Shown(Split(d).seconds)| == 2
  {
    PadStart2Value(t.days);
    TwoDigits(t.days);
    SplitFaithful(d);
    TwoDigits(Split(d).hours);
    TwoDigits(Split(d).minutes);
    TwoDigits(Split(d).seconds);
  }

  /** A number below 100 is padded to exactly two characters. */
  lemma TwoDigits(n: nat)
    ensures n < 100 ==> |Shown(n)| == 2
  {
    if 10 <= n < 100 {
      assert ToDecimal(n) == ToDecimal(n / 10) + [DigitChar(n % 10)];
    }
  }

  /** Before the first tick, and whenever the election time has passed, every field shows "00". */
  lemma InitialShowsZeros(difference: int)
    requires difference <= 0
    ensures Tick(Initial, difference) == Initial
    ensures Shown(Initial.days) == "00" && Shown(Initial.seconds) == "00"
  {
    assert ToDecimal(0) == "0";
  }
}
