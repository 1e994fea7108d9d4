/**
 * The clock-out countdown in the page header: once a second it shows the time left
 * until 18:00 today as hours, minutes and seconds, or that the working day is over.
 * The current time is given as milliseconds since local midnight.
 */
module Countdown {

  const MsPerSecond := 1000
  const MsPerMinute := 60 * MsPerSecond
  const MsPerHour := 60 * MsPerMinute
  const MsPerDay := 24 * MsPerHour
  /** `clockOut.setHours(18, 0, 0, 0)` */
  const ClockOutMs := 18 * MsPerHour

  const OffWork := "已下班！快跑！"

  /** What the tick computes: past clock-out, or the time left split into units. */
  datatype Reading = OffDuty | Remaining(hours: nat, minutes: nat, seconds: nat)

  /** The whole milliseconds a reading stands for (zero past clock-out). */
  function Millis(r: Reading): (ms: nat)
  {
    if r.OffDuty? then 0
    else r.hours * MsPerHour + r.minutes * MsPerMinute + r.seconds * MsPerSecond
  }

  /** The floor divisions of the tick body, on a non-negative difference. */
  function Split(timeDiff: nat): (r: Reading)
    ensures r.Remaining?
    ensures r.minutes < 60 && r.seconds < 60
    ensures Millis(r) <= timeDiff < Millis(r) + MsPerSecond
  {
    var hours := timeDiff / MsPerHour;
    var minutes := (timeDiff % MsPerHour) / MsPerMinute;
    var seconds := (timeDiff % MsPerMinute) / MsPerSecond;
    SplitRecombines(timeDiff, hours, minutes, seconds);
    Remaining(hours, minutes, seconds)
  }

  lemma SplitRecombines(timeDiff: nat, hours: nat, minutes: nat, seconds: nat)
    requires hours == timeDiff / MsPerHour
    requires minutes == (timeDiff % MsPerHour) / MsPerMinute
    requires seconds == (timeDiff % MsPerMinute) / MsPerSecond
    ensures minutes < 60 && seconds < 60
    ensures hours * MsPerHour + minutes * MsPerMinute + seconds * MsPerSecond <= timeDiff
    ensures timeDiff < hours * MsPerHour + minutes * MsPerMinute + seconds * MsPerSecond + MsPerSecond
  {
    var rh := timeDiff % MsPerHour;
    assert timeDiff == hours * MsPerHour + rh;
    var rm := rh % MsPerMinute;
    assert rh == minutes * MsPerMinute + rm;
    ModUnique(timeDiff, hours * 60 + minutes, rm, MsPerMinute);
    assert rm == seconds * MsPerSecond + rm % MsPerSecond;
  }

  /** Division with remainder has one answer. */
  lemma ModUnique(x: int, q: int, r: int, d: int)
    requires d > 0 && 0 <= r < d && x == q * d + r
    ensures x % d == r && x / d == q
  {
    var q', r' := x / d, x % d;
    assert x == q' * d + r' && 0 <= r' < d;
    assert (q' - q) * d == r - r';
    if q' != q {
      if q' > q { AtLeastOnce(q' - q, d); } else { AtLeastOnce(q - q', d); }
      assert false;
    }
  }

  lemma AtLeastOnce(a: int, d: int)
    requires a >= 1 && d > 0
    ensures a * d >= d
  {
    assert a * d == (a - 1) * d + d;
  }

  /** The tick body at `nowMs` milliseconds after local midnight. */
  function ReadingAt(nowMs: nat): (r: Reading)
    requires nowMs < MsPerDay
    ensures r.OffDuty? <==> nowMs > ClockOutMs
    ensures r.Remaining? ==> r.minutes < 60 && r.seconds < 60
    ensures r.Remaining? ==> Millis(r) <= ClockOutMs - nowMs < Millis(r) + MsPerSecond
    ensures r.Remaining? ==> r.hours <= 18 && (r.hours == 18 <==> nowMs == 0)
  {
    if nowMs > ClockOutMs then OffDuty
    else Split(ClockOutMs - nowMs)
  }

  // ---------------------------------------------------------------------------
  // `${n}` for a non-negative integer: its decimal digits, no padding

  function DigitChar(d: nat): (ch: char)
    requires d < 10
    ensures IsDigit(ch) && DigitValue(ch) == d
  {
    "0123456789"[d]
  }

  predicate IsDigit(ch: char)
  {
    '0' <= ch <= '9'
  }

  function DigitValue(ch: char): (d: nat)
    requires IsDigit(ch)
    ensures d < 10
  {
    (ch as int) - ('0' as int)
  }

  function Decimal(n: nat): (s: string)
    ensures |s| > 0
    ensures forall i :: 0 <= i < |s| ==> IsDigit(s[i])
    ensures s[0] == '0' ==> s == "0"
    decreases n
  {
    if n < 10 then [DigitChar(n)]
    else Decimal(n / 10) + [DigitChar(n % 10)]
  }

  /** Reading decimal digits back as a number. */
  function ParseDecimal(s: string): (n: nat)
    requires forall i :: 0 <= i < |s| ==> IsDigit(s[i])
  {
    if s == [] then 0
    else ParseDecimal(s[..|s| - 1]) * 10 + DigitValue(s[|s| - 1])
  }

  lemma {:induction false} DecimalRoundTrip(n: nat)
    ensures ParseDecimal(Decimal(n)) == n
    decreases n
  {
    var s := Decimal(n);
    if n >= 10 {
      DecimalRoundTrip(n / 10);
      assert s[..|s| - 1] == Decimal(n / 10);
    }
  }

  /** What the page shows: `${hours}时${minutes}分${seconds}秒`, or the off-work line. */
  function Display(r: Reading): (shown: string)
    ensures |shown| > 0
    ensures r.OffDuty? <==> !IsDigit(shown[0])
  {
    match r
    case OffDuty => OffWork
    case Remaining(h, m, s) => Decimal(h) + "时" + Decimal(m) + "分" + Decimal(s) + "秒"
  }

  /** At exactly 18:00 the countdown shows zeros without padding. */
  lemma AtClockOut()
    ensures Display(ReadingAt(ClockOutMs)) == "0时0分0秒"
  {
  }

  /** Two digit strings each followed by the same separator split a string in one way. */
  lemma {:induction false} SplitAtSeparator(p1: string, p2: string, sep: char, x: string, y: string)
    requires forall i :: 0 <= i < |p1| ==> IsDigit(p1[i])
    requires forall i :: 0 <= i < |p2| ==> IsDigit(p2[i])
    requires !IsDigit(sep)
    requires p1 + [sep] + x == p2 + [sep] + y
    ensures p1 == p2 && x == y
  {
    var s1, s2 := p1 + [sep] + x, p2 + [sep] + y;
    // The first separator sits at the same place in both.
    var k := if |p1| <= |p2| then |p1| else |p2|;
    assert s1[k] == s2[k];
    assert |p1| <= |p2| ==> s1[k] == sep;
    assert |p2| <= |p1| ==> s2[k] == sep;
    assert p1 == s1[..|p1|] && p2 == s2[..|p2|];
    assert x == s1[|p1| + 1..] && y == s2[|p2| + 1..];
  }

  lemma DecimalInjective(a: nat, b: nat)
    requires Decimal(a) == Decimal(b)
    ensures a == b
  {
    DecimalRoundTrip(a);
    DecimalRoundTrip(b);
  }

  /** One unit of the display: the digits of `n` and the unit's character. */
  function Unit(n: nat, unit: char): (s: string)
  {
    Decimal(n) + [unit]
  }

  lemma DisplayIsUnits(h: nat, m: nat, sec: nat)
    ensures Display(Remaining(h, m, sec)) == Unit(h, '时') + (Unit(m, '分') + (Unit(sec, '秒') + []))
  {
  }

  /** Equal unit-led strings have the same leading number and the same rest. */
  lemma UnitsSplit(a: nat, b: nat, unit: char, x: string, y: string)
    requires !IsDigit(unit)
    requires Unit(a, unit) + x == Unit(b, unit) + y
    ensures a == b && x == y
  {
    assert Unit(a, unit) + x == Decimal(a) + [unit] + x;
    assert Unit(b, unit) + y == Decimal(b) + [unit] + y;
    SplitAtSeparator(Decimal(a), Decimal(b), unit, x, y);
    DecimalInjective(a, b);
  }

  /** The unpadded display is still unambiguous: it determines the reading it shows. */
  lemma DisplayDeterminesReading(r1: Reading, r2: Reading)
    requires Display(r1) == Display(r2)
    ensures r1 == r2
  {
    if r1.Remaining? && r2.Remaining? {
      DisplayIsUnits(r1.hours, r1.minutes, r1.seconds);
      DisplayIsUnits(r2.hours, r2.minutes, r2.seconds);
      UnitsSplit(r1.hours, r2.hours, '时',
                 Unit(r1.minutes, '分') + (Unit(r1.seconds, '秒') + []),
                 Unit(r2.minutes, '分') + (Unit(r2.seconds, '秒') + []));
      UnitsSplit(r1.minutes, r2.minutes, '分', Unit(r1.seconds, '秒') + [], Unit(r2.seconds, '秒') + []);
      UnitsSplit(r1.seconds, r2.seconds, '秒', [], []);
    }
  }

  /** The header widget: the interval callback rewrites `timeLeft`. */
  class ClockOutCountdown {
    var timeLeft: string

    constructor ()
      ensures timeLeft == ""
    {
      timeLeft := "";
    }

    method Tick(nowMs: nat)
      requires nowMs < MsPerDay
      modifies this
      ensures timeLeft == Display(ReadingAt(nowMs))
    {
      if nowMs > ClockOutMs {
        timeLeft := OffWork;
      } else {
        var timeDiff := ClockOutMs - nowMs;
        var hours := timeDiff / MsPerHour;
        var minutes := (timeDiff % MsPerHour) / MsPerMinute;
        var seconds := (timeDiff % MsPerMinute) / MsPerSecond;
        timeLeft := Decimal(hours) + "时" + Decimal(minutes) + "分" + Decimal(seconds) + "秒";
      }
    }
  }
}
