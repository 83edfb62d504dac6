/** The hero section's countdown: splitting the milliseconds left until the
    wedding into days, hours, minutes and seconds, and the two-digit display
    of each value. The clock reading is an input: `difference` is the target
    instant minus the current one, in whole milliseconds. */
module Countdown {
  import opened Text

  const MsPerSecond := 1000
  const MsPerMinute := 1000 * 60
  const MsPerHour := 1000 * 60 * 60
  const MsPerDay := 1000 * 60 * 60 * 24

  datatype TimeLeft = TimeLeft(days: nat, hours: nat, minutes: nat, seconds: nat)

  const Zero := TimeLeft(0, 0, 0, 0)

  /** `calculateTimeLeft`: past or present targets show zero everywhere;
      otherwise each unit is the whole count of that unit, reduced modulo the
      next larger one (days are not reduced). */
  function CalculateTimeLeft(difference: int): (t: TimeLeft)
    ensures difference <= 0 ==> t == Zero
    ensures t.hours < 24 && t.minutes < 60 && t.seconds < 60
  {
    if difference > 0 then
      TimeLeft(difference / MsPerDay,
               (difference / MsPerHour) % 24,
               (difference / MsPerMinute) % 60,
               (difference / MsPerSecond) % 60)
    else
      Zero
  }

  /** The number of whole seconds a countdown value stands for. */
  function TotalSeconds(t: TimeLeft): nat {
    t.days * 86400 + t.hours * 3600 + t.minutes * 60 + t.seconds
  }

  lemma MulLeftMonotonic(b: nat, x: nat, y: nat)
    requires x <= y
    ensures b * x <= b * y
  {
  }

  lemma LemmaDivUnique(a: nat, d: nat, q: nat, r: nat)
    requires d > 0 && r < d && a == d * q + r
    ensures a / d == q
  {
    var q' := a / d;
    var r' := a % d;
    assert a == d * q' + r';
    if q' < q {
      MulLeftMonotonic(d, q' + 1, q);
      assert false;
    } else if q < q' {
      MulLeftMonotonic(d, q + 1, q');
      assert false;
    }
  }

  /** A positive difference decomposes exactly: the four fields read as a
      mixed-radix number give the whole seconds left, truncated. */
  lemma Decomposition(difference: int)
    requires difference > 0
    ensures TotalSeconds(CalculateTimeLeft(difference)) == difference / MsPerSecond
    ensures CalculateTimeLeft(difference).days == (difference / MsPerSecond) / 86400
  {
    var s := difference / 1000;
    var m := difference / MsPerMinute;
    var h := difference / MsPerHour;
    var d := difference / MsPerDay;
    assert m == s / 60;
    assert h == m / 60;
    assert d == h / 24;
    assert s == 60 * m + s % 60;
    assert m == 60 * h + m % 60;
    assert h == 24 * d + h % 24;
  }

  /** Targets less than a second away already show zero everywhere. */
  lemma SubSecondShowsZero(difference: int)
    requires 0 < difference < MsPerSecond
    ensures CalculateTimeLeft(difference) == Zero
  {
    Decomposition(difference);
  }

  /** The day count is not capped: any number of days can be shown. */
  lemma DaysUnbounded(days: nat)
    ensures CalculateTimeLeft(days * MsPerDay).days == days
  {
    if days > 0 {
      LemmaDivUnique(days * MsPerDay, MsPerDay, days, 0);
    }
  }

  /** A later reading never shows more time left. */
  lemma Monotonic(d1: int, d2: int)
    requires d1 <= d2
    ensures TotalSeconds(CalculateTimeLeft(d1)) <= TotalSeconds(CalculateTimeLeft(d2))
  {
    if d1 > 0 {
      Decomposition(d1);
      Decomposition(d2);
      LemmaDivMonotonic(d1, d2, MsPerSecond);
    }
  }

  lemma LemmaDivMonotonic(a: nat, b: nat, d: nat)
    requires a <= b && d > 0
    ensures a / d <= b / d
  {
    var qa, ra := a / d, a % d;
    var qb, rb := b / d, b % d;
    assert a == d * qa + ra && b == d * qb + rb;
    if qb < qa {
      MulLeftMonotonic(d, qb + 1, qa);
      assert false;
    }
  }

  /** One second more elapsed means exactly one second less shown, down to
      the last tick from one second to zero. */
  lemma OneSecondTick(difference: int)
    requires difference >= MsPerSecond
    ensures TotalSeconds(CalculateTimeLeft(difference - MsPerSecond)) == TotalSeconds(CalculateTimeLeft(difference)) - 1
  {
    Decomposition(difference);
    var q := difference / 1000;
    var r := difference % 1000;
    if difference - MsPerSecond > 0 {
      Decomposition(difference - MsPerSecond);
      LemmaDivUnique(difference - 1000, 1000, q - 1, r);
    } else {
      assert q == 1;
    }
  }

  /** `String(value).padStart(2, "0")`: the countdown cell for one value. */
  function Display(value: nat): string {
    PadStart(NatToString(value), 2, '0')
  }

  /** Values below ten gain exactly one leading zero; larger values are shown
      as they are, never truncated; the cell always reads back as the value. */
  lemma DisplayShape(value: nat)
    ensures value < 10 ==> Display(value) == ['0', DigitChar(value)]
    ensures value >= 10 ==> Display(value) == NatToString(value)
    ensures |Display(value)| >= 2
    ensures AllDigits(Display(value)) && ParseDigits(Display(value)) == value
  {
    var digits := NatToString(value);
    ParseNatToString(value);
    if value < 10 {
      assert Display(value) == ['0'] + digits;
      ParseLeadingZero(digits);
    }
  }
}
