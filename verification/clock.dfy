/** Time of day, its zero-padded "HH:MM" rendering (`strftime("%H:%M")`),
    and Python's string ordering, which the watchdog uses to compare
    rendered times. */
module Clock {
  import opened Maybe

  type Hour = h: int | 0 <= h < 24
  type Minute = m: int | 0 <= m < 60
  type Second = s: int | 0 <= s < 60

  /** The time-of-day part of a parsed ISO 8601 timestamp, to the second
      (fractions of a second never reach the rendering, so they are not
      kept). */
  datatype TimeOfDay = TimeOfDay(hour: Hour, minute: Minute, second: Second)

  /** Whole minutes since midnight: what `%H:%M` shows of a time. */
  function MinutesOf(t: TimeOfDay): int {
    t.hour * 60 + t.minute
  }

  /** Seconds since midnight: the numeric time-of-day order. */
  function SecondsOf(t: TimeOfDay): int {
    MinutesOf(t) * 60 + t.second
  }

  predicate IsDigit(c: char) {
    '0' <= c <= '9'
  }

  function DigitValue(c: char): int
    requires IsDigit(c)
  {
    c as int - '0' as int
  }

  function DigitChar(n: int): (c: char)
    requires 0 <= n < 10
    ensures IsDigit(c) && DigitValue(c) == n
  {
    ('0' as int + n) as char
  }

  /** The number written by two decimal digits. */
  function TwoDigits(hi: char, lo: char): int
    requires IsDigit(hi) && IsDigit(lo)
  {
    DigitValue(hi) * 10 + DigitValue(lo)
  }

  /** A zero-padded two-digit rendering, as `%H` and `%M` produce. */
  function Pad2(n: int): (s: string)
    requires 0 <= n < 100
    ensures |s| == 2 && IsDigit(s[0]) && IsDigit(s[1])
    ensures TwoDigits(s[0], s[1]) == n
  {
    [DigitChar(n / 10), DigitChar(n % 10)]
  }

  /** `s` is a zero-padded 24-hour "HH:MM" clock reading. */
  predicate IsClock(s: string) {
    && |s| == 5
    && IsDigit(s[0]) && IsDigit(s[1]) && s[2] == ':' && IsDigit(s[3]) && IsDigit(s[4])
    && TwoDigits(s[0], s[1]) < 24
    && TwoDigits(s[3], s[4]) < 60
  }

  /** A rendered time of day, as `strftime("%H:%M")` returns it. */
  type HhMm = s: string | IsClock(s) witness "00:00"

  /** Minutes since midnight denoted by an "HH:MM" reading. */
  function ClockMinutes(s: string): int
    requires IsClock(s)
  {
    TwoDigits(s[0], s[1]) * 60 + TwoDigits(s[3], s[4])
  }

  /** `strftime("%H:%M")` of a time of day. */
  function Strftime(t: TimeOfDay): (s: string)
    ensures IsClock(s)
    ensures ClockMinutes(s) == MinutesOf(t)
  {
    Pad2(t.hour) + ":" + Pad2(t.minute)
  }

  /** Reads an "HH:MM" reading back; `None` for anything else. */
  function ParseClock(s: string): (r: Option<TimeOfDay>)
    ensures r.Some? <==> IsClock(s)
    ensures r.Some? ==> MinutesOf(r.value) == ClockMinutes(s)
  {
    if IsClock(s) then Some(TimeOfDay(TwoDigits(s[0], s[1]), TwoDigits(s[3], s[4]), 0)) else None
  }

  /** Rendering and reading back are inverse on both sides, up to the
      seconds that `%H:%M` drops. */
  lemma StrftimeRoundTrip(t: TimeOfDay, s: string)
    ensures ParseClock(Strftime(t)) == Some(TimeOfDay(t.hour, t.minute, 0))
    ensures IsClock(s) ==> Strftime(ParseClock(s).value) == s
  {
    var r := Strftime(t);
    assert TwoDigits(r[0], r[1]) == t.hour;
    assert TwoDigits(r[3], r[4]) == t.minute;
    if IsClock(s) {
      var u := Strftime(ParseClock(s).value);
      TwoDigitsInjective(u[0], u[1], s[0], s[1]);
      TwoDigitsInjective(u[3], u[4], s[3], s[4]);
      assert u == s;
    }
  }

  lemma TwoDigitsInjective(a: char, b: char, c: char, d: char)
    requires IsDigit(a) && IsDigit(b) && IsDigit(c) && IsDigit(d)
    requires TwoDigits(a, b) == TwoDigits(c, d)
    ensures a == c && b == d
  {
  }

  /** Python's `str.__lt__`: lexicographic order on code points, a proper
      prefix ordering before its extensions. */
  predicate LexLess(a: string, b: string)
    decreases |a|
  {
    if |a| == 0 then |b| > 0
    else if |b| == 0 then false
    else if a[0] != b[0] then a[0] < b[0]
    else LexLess(a[1..], b[1..])
  }

  /** On strings of equal length, `LexLess` is decided by the first differing position. */
  lemma LexLessFirstDifference(a: string, b: string, k: nat)
    requires |a| == |b| && k < |a|
    requires forall i :: 0 <= i < k ==> a[i] == b[i]
    requires a[k] != b[k]
    ensures LexLess(a, b) <==> a[k] < b[k]
    decreases k
  {
    if k > 0 {
      assert a[0] == b[0];
      LexLessFirstDifference(a[1..], b[1..], k - 1);
    }
  }

  lemma LexLessIrreflexive(a: string)
    ensures !LexLess(a, a)
    decreases |a|
  {
    if |a| > 0 {
      LexLessIrreflexive(a[1..]);
    }
  }

  /** For zero-padded "HH:MM" readings, Python's string `<` agrees with
      comparing minutes since midnight. */
  lemma LexLessIsClockOrder(a: string, b: string)
    requires IsClock(a) && IsClock(b)
    ensures LexLess(a, b) <==> ClockMinutes(a) < ClockMinutes(b)
  {
    if a == b {
      LexLessIrreflexive(a);
    } else {
      var k :| 0 <= k < 5 && a[k] != b[k] && forall i :: 0 <= i < k ==> a[i] == b[i] by {
        FirstDifferenceExists(a, b);
      }
      LexLessFirstDifference(a, b, k);
    }
  }

  lemma FirstDifferenceExists(a: string, b: string)
    requires |a| == |b| && a != b
    ensures exists k :: 0 <= k < |a| && a[k] != b[k] && forall i :: 0 <= i < k ==> a[i] == b[i]
  {
    if a[0] == b[0] {
      assert a == [a[0]] + a[1..] && b == [b[0]] + b[1..];
      FirstDifferenceExists(a[1..], b[1..]);
      var k :| 0 <= k < |a| - 1 && a[1..][k] != b[1..][k] && forall i :: 0 <= i < k ==> a[1..][i] == b[1..][i];
      assert a[k + 1] != b[k + 1];
      assert forall i :: 0 <= i < k + 1 ==> a[i] == b[i] by {
        forall i | 0 <= i < k + 1
          ensures a[i] == b[i]
        {
          if i > 0 {
            assert a[i] == a[1..][i - 1] && b[i] == b[1..][i - 1];
          }
        }
      }
    }
  }

  /** The same agreement, stated for rendered times of day. */
  lemma StrftimeOrder(s: TimeOfDay, t: TimeOfDay)
    ensures LexLess(Strftime(s), Strftime(t)) <==> MinutesOf(s) < MinutesOf(t)
    ensures LexLess(Strftime(s), Strftime(t)) ==> SecondsOf(s) < SecondsOf(t)
    ensures Strftime(s) == Strftime(t) <==> s.hour == t.hour && s.minute == t.minute
  {
    LexLessIsClockOrder(Strftime(s), Strftime(t));
    StrftimeRoundTrip(s, Strftime(s));
    StrftimeRoundTrip(t, Strftime(t));
  }
}
