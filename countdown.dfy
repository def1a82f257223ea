/** The countdown on the landing page (src/components/HomePage.tsx): the
    remaining milliseconds split into hours, minutes and seconds, each
    shown as a decimal numeral padded to two characters. */
module Countdown {
  import Decimal

  const SecondMs: int := 1000
  const MinuteMs: int := 1000 * 60
  const HourMs: int := 1000 * 60 * 60
  /** The offer ends 24 hours after the page mounts. */
  const DayMs: int := 24 * 60 * 60 * 1000

  datatype Display = Display(hours: string, minutes: string, seconds: string)

  /** What one timer tick does: show `display`, and whether the interval
      is cleared. */
  datatype Tick = Tick(display: Display, stopped: bool)

  function EndTime(mountTime: int): int {
    mountTime + DayMs
  }

  /** `Math.floor` of the divisions on a positive remaining time. */
  function Hours(t: int): nat requires t > 0 { t / HourMs }
  function Minutes(t: int): nat requires t > 0 { (t % HourMs) / MinuteMs }
  function Seconds(t: int): nat requires t > 0 { (t % MinuteMs) / SecondMs }

  /** `n.toString().padStart(2, '0')`. */
  function Field(n: nat): string {
    Decimal.PadStart(Decimal.FromNat(n), 2, '0')
  }

  const Zeros: Display := Display("00", "00", "00")

  /** The body of the interval callback at time `currentTime`. */
  function TickAt(endTime: int, currentTime: int): Tick {
    var t := endTime - currentTime;
    if t <= 0 then Tick(Zeros, true)
    else Tick(Display(Field(Hours(t)), Field(Minutes(t)), Field(Seconds(t))), false)
  }

  /** Minutes and seconds are each in [0, 59]. */
  lemma ComponentsInRange(t: int)
    requires t > 0
    ensures Minutes(t) <= 59 && Seconds(t) <= 59
  {
  }

  /** The three components add up to the remaining time, less its
      sub-second part. */
  lemma Reconstruction(t: int)
    requires t > 0
    ensures var sum := Hours(t) * HourMs + Minutes(t) * MinuteMs + Seconds(t) * SecondMs;
            sum <= t < sum + SecondMs
  {
    var h, r := t / HourMs, t % HourMs;
    assert t == h * HourMs + r;
    var m, r2 := r / MinuteMs, r % MinuteMs;
    assert r == m * MinuteMs + r2;
    assert t % MinuteMs == r2 by {
      assert t == (h * 60 + m) * MinuteMs + r2;
    }
    var s := r2 / SecondMs;
    assert r2 == s * SecondMs + r2 % SecondMs;
  }

  /** With the clock not running backwards, at most a day remains, so the
      hours field never exceeds 24. */
  lemma HoursAtMostDay(mountTime: int, currentTime: int)
    requires mountTime <= currentTime < EndTime(mountTime)
    ensures Hours(EndTime(mountTime) - currentTime) <= 24
  {
  }

  /** Once the end time is reached every field shows "00" and the timer
      stops; before it, the timer keeps running. */
  lemma ExpiredShowsZeros(endTime: int, currentTime: int)
    ensures TickAt(endTime, currentTime).stopped <==> currentTime >= endTime
    ensures currentTime >= endTime ==> TickAt(endTime, currentTime).display == Display("00", "00", "00")
  {
  }

  /** A field is a numeral of at least two characters, exactly two below
      100, and it reads back as the number shown. */
  lemma FieldFormat(n: nat)
    ensures |Field(n)| >= 2
    ensures n < 100 ==> |Field(n)| == 2
    ensures Decimal.AllDigits(Field(n)) && Decimal.ToNat(Field(n)) == n
  {
    Decimal.FromNatLength(n);
    Decimal.ToNatFromNat(n);
    Decimal.ToNatPadZeros(Decimal.FromNat(n), 2);
  }

  /** What a running tick shows reads back as hours, minutes and seconds
      in range that reconstruct the remaining time. */
  lemma {:induction false} TickShowsRemaining(endTime: int, currentTime: int)
    requires currentTime < endTime
    ensures var d := TickAt(endTime, currentTime).display;
            var t := endTime - currentTime;
            && Decimal.AllDigits(d.hours) && Decimal.AllDigits(d.minutes) && Decimal.AllDigits(d.seconds)
            && |d.minutes| == 2 && |d.seconds| == 2
            && var sum := Decimal.ToNat(d.hours) * HourMs + Decimal.ToNat(d.minutes) * MinuteMs
                          + Decimal.ToNat(d.seconds) * SecondMs;
               sum <= t < sum + SecondMs
  {
    var t := endTime - currentTime;
    ComponentsInRange(t);
    Reconstruction(t);
    FieldFormat(Hours(t));
    FieldFormat(Minutes(t));
    FieldFormat(Seconds(t));
  }
}
