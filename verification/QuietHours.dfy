/** User preferences and quiet hours (internal/service/preference.go).

    Instants are nanoseconds since the epoch; a time zone is a fixed offset from UTC. */
module QuietHours {
  import opened Collections

  const MINUTE: int := 60_000_000_000
  const DAY: int := 1440 * MINUTE

  // ---------------------------------------------------------- clock times "15:04"

  predicate IsDigit(c: char) {
    '0' <= c <= '9'
  }

  function Digit(c: char): nat
    requires IsDigit(c)
  {
    c as int - '0' as int
  }

  /** time.Parse with layout "15:04": an hour of one or two digits, a colon, two digits of
      minute and nothing else, both in range.  The result is in minutes. */
  function ParseClock(s: string): (r: Option<nat>)
    ensures r.Some? ==> r.value < 1440
  {
    if |s| == 5 && s[2] == ':' && IsDigit(s[0]) && IsDigit(s[1]) && IsDigit(s[3]) && IsDigit(s[4]) then
      Clock(10 * Digit(s[0]) + Digit(s[1]), 10 * Digit(s[3]) + Digit(s[4]))
    else if |s| == 4 && s[1] == ':' && IsDigit(s[0]) && IsDigit(s[2]) && IsDigit(s[3]) then
      Clock(Digit(s[0]), 10 * Digit(s[2]) + Digit(s[3]))
    else None
  }

  function Clock(hour: nat, minute: nat): Option<nat> {
    if hour < 24 && minute < 60 then Some(60 * hour + minute) else None
  }

  function DigitChar(n: nat): char
    requires n < 10
  {
    ('0' as int + n) as char
  }

  /** time.Format with layout "15:04", as the repository renders stored times. */
  function FormatClock(minutes: nat): string
    requires minutes < 1440
  {
    var h, m := minutes / 60, minutes % 60;
    [DigitChar(h / 10), DigitChar(h % 10), ':', DigitChar(m / 10), DigitChar(m % 10)]
  }

  /** Every stored time is read back as itself, so stored quiet hours always parse. */
  lemma ClockRoundTrip(minutes: nat)
    requires minutes < 1440
    ensures ParseClock(FormatClock(minutes)) == Some(minutes)
  {
    var h, m := minutes / 60, minutes % 60;
    var s := FormatClock(minutes);
    assert Digit(s[0]) == h / 10 && Digit(s[1]) == h % 10;
    assert Digit(s[3]) == m / 10 && Digit(s[4]) == m % 10;
    assert 10 * (h / 10) + h % 10 == h && 10 * (m / 10) + m % 10 == m;
  }

  /** What is written: two digits of hour, a colon, two digits of minute. */
  lemma FormatShape(minutes: nat)
    requires minutes < 1440
    ensures var s := FormatClock(minutes);
            && |s| == 5 && s[2] == ':' && '0' <= s[0] <= '9' && '0' <= s[1] <= '9' && '0' <= s[3] <= '5' && '0' <= s[4] <= '9'
            && (s[0] as int - 48) * 600 + (s[1] as int - 48) * 60 + (s[3] as int - 48) * 10 + (s[4] as int - 48) == minutes
  {
    var h, m := minutes / 60, minutes % 60;
    assert 10 * (h / 10) + h % 10 == h && 10 * (m / 10) + m % 10 == m && 60 * h + m == minutes;
  }

  /** What is read: exactly the written times of day, where a leading zero of the hour may be
      missing. */
  lemma ParsesIff(s: string, minutes: nat)
    ensures ParseClock(s) == Some(minutes)
       <==> minutes < 1440 && (s == FormatClock(minutes) || (minutes < 600 && s == FormatClock(minutes)[1..]))
  {
    if minutes < 1440 {
      ClockRoundTrip(minutes);
      if minutes < 600 {
        ShortRoundTrip(minutes);
      }
      if ParseClock(s) == Some(minutes) {
        ReadIsWritten(s, minutes);
      }
    }
  }

  lemma ShortRoundTrip(minutes: nat)
    requires minutes < 600
    ensures ParseClock(FormatClock(minutes)[1..]) == Some(minutes)
  {
    var h, m := minutes / 60, minutes % 60;
    var s := FormatClock(minutes)[1..];
    assert h < 10 && Digit(s[0]) == h;
    assert Digit(s[2]) == m / 10 && Digit(s[3]) == m % 10;
    assert 10 * (m / 10) + m % 10 == m;
  }

  lemma ReadIsWritten(s: string, minutes: nat)
    requires minutes < 1440 && ParseClock(s) == Some(minutes)
    ensures s == FormatClock(minutes) || (minutes < 600 && s == FormatClock(minutes)[1..])
  {
    var w := FormatClock(minutes);
    if |s| == 5 {
      DigitsOf(Digit(s[0]), Digit(s[1]), Digit(s[3]), Digit(s[4]), minutes);
      assert s == w;
    } else {
      DigitsOf(0, Digit(s[0]), Digit(s[2]), Digit(s[3]), minutes);
      assert s == w[1..];
    }
  }

  lemma DigitsOf(a: nat, b: nat, c: nat, d: nat, minutes: nat)
    requires a < 10 && b < 10 && c < 10 && d < 10 && 10 * a + b < 24 && 10 * c + d < 60
    requires minutes == 60 * (10 * a + b) + (10 * c + d)
    ensures minutes / 60 / 10 == a && minutes / 60 % 10 == b && minutes % 60 / 10 == c && minutes % 60 % 10 == d
  {
    assert minutes / 60 == 10 * a + b && minutes % 60 == 10 * c + d;
  }

  // --------------------------------------------------------------- the window

  /** inQuietHours on parsed times: both ends are anchored to the local date of now. */
  predicate InWindow(start: nat, end: nat, now: int, offset: int) {
    var local := now + offset;
    var midnight := local / DAY * DAY;
    var startToday, endToday := midnight + start * MINUTE, midnight + end * MINUTE;
    if startToday <= endToday then startToday <= local && local < endToday
    else startToday <= local || local < endToday
  }

  /** inQuietHours: times that do not parse never block; an unknown zone reads as UTC. */
  predicate InQuietHours(start: string, end: string, now: int, zone: Option<int>) {
    var s, e := ParseClock(start), ParseClock(end);
    s.Some? && e.Some? && InWindow(s.value, e.value, now, if zone.Some? then zone.value else 0)
  }

  /** The circular interval [start, end) of the day. */
  predicate InCircle(start: nat, end: nat, local: int) {
    (local - start * MINUTE) % DAY < (end - start) * MINUTE % DAY
  }

  lemma ModIs(x: int, k: int, r: int)
    requires x == k * DAY + r && 0 <= r < DAY
    ensures x % DAY == r
  {
  }

  lemma MinutesInDay(m: nat)
    requires m < 1440
    ensures 0 <= m * MINUTE < DAY
  {
  }

  /** Quiet hours are a circular interval: the same-day and overnight cases of the code are the
      one comparison of distances from the start, modulo a day. */
  lemma WindowIsCircular(start: nat, end: nat, now: int, offset: int)
    requires start < 1440 && end < 1440
    ensures InWindow(start, end, now, offset) <==> InCircle(start, end, now + offset)
  {
    var local := now + offset;
    var day, tod := local / DAY, local % DAY;
    var s, e := start * MINUTE, end * MINUTE;
    assert local == day * DAY + tod && 0 <= tod < DAY;
    MinutesInDay(start);
    MinutesInDay(end);
    if tod >= s {
      ModIs(local - s, day, tod - s);
    } else {
      ModIs(local - s, day - 1, tod - s + DAY);
    }
    if end >= start {
      ModIs((end - start) * MINUTE, 0, e - s);
    } else {
      ModIs((end - start) * MINUTE, -1, e - s + DAY);
    }
  }

  lemma CirclePeriodic(start: nat, end: nat, local: int, days: int)
    ensures InCircle(start, end, local + days * DAY) <==> InCircle(start, end, local)
  {
    var x := local - start * MINUTE;
    ModIs(x, x / DAY, x % DAY);
    ModIs(x + days * DAY, x / DAY + days, x % DAY);
  }

  /** The window repeats every day, for any number of days. */
  lemma WindowPeriodic(start: nat, end: nat, now: int, offset: int, days: int)
    requires start < 1440 && end < 1440
    ensures InWindow(start, end, now + days * DAY, offset) <==> InWindow(start, end, now, offset)
  {
    WindowIsCircular(start, end, now, offset);
    WindowIsCircular(start, end, now + days * DAY, offset);
    CirclePeriodic(start, end, now + offset, days);
  }

  /** Swapping the ends gives the complement exactly if they differ; equal ends never block. */
  lemma WindowComplement(start: nat, end: nat, now: int, offset: int)
    requires start < 1440 && end < 1440
    ensures (InWindow(start, end, now, offset) <==> !InWindow(end, start, now, offset)) <==> start != end
    ensures start == end ==> !InWindow(start, end, now, offset)
  {
    MinutesInDay(start);
    MinutesInDay(end);
    if start < end {
      assert start * MINUTE < end * MINUTE;
    } else if end < start {
      assert end * MINUTE < start * MINUTE;
    }
  }

  /** At midnight and at the ends: the start is inside, the end is not. */
  lemma WindowEnds(start: nat, end: nat, day: int)
    requires start < 1440 && end < 1440 && start != end
    ensures InWindow(start, end, day * DAY + start * MINUTE, 0)
    ensures !InWindow(start, end, day * DAY + end * MINUTE, 0)
  {
    WindowIsCircular(start, end, day * DAY + start * MINUTE, 0);
    WindowIsCircular(start, end, day * DAY + end * MINUTE, 0);
    var d := (end - start) * MINUTE;
    ModIs(day * DAY, day, 0);
    MinutesInDay(if start < end then end - start else start - end);
    if start < end {
      ModIs(d, 0, d);
      ModIs(day * DAY + d, day, d);
    } else {
      ModIs(d, -1, d + DAY);
      ModIs(day * DAY + d, day - 1, d + DAY);
    }
    assert day * DAY + end * MINUTE - start * MINUTE == day * DAY + d;
  }

  // -------------------------------------------------------------- the preference

  datatype Preference = Preference(enabled: bool, quietStart: Option<string>, quietEnd: Option<string>, zone: Option<int>)

  datatype Lookup = Found(pref: Preference) | NotFound | LookupError

  datatype Answer = Allow | Deny(reason: string) | Fail

  function IsAllowed(l: Lookup, now: int): Answer {
    match l
    case NotFound => Allow
    case LookupError => Fail
    case Found(p) =>
      if !p.enabled then Deny("channel disabled by user")
      else if p.quietStart.Some? && p.quietEnd.Some?
              && InQuietHours(p.quietStart.value, p.quietEnd.value, now, p.zone) then Deny("quiet hours active")
      else Allow
  }

  /** Every answer.  A failed lookup fails, and a missing record allows.  A record denies with the
      one reason if the channel is disabled, and with the other if it is enabled, both ends are
      set and are times of day, and the user's local time is in the circular interval between
      them; otherwise it allows.  Times are in nanoseconds, and an unknown zone is UTC. */
  lemma AnswerIs(l: Lookup, now: int)
    ensures IsAllowed(l, now) == Fail <==> l.LookupError?
    ensures l.NotFound? ==> IsAllowed(l, now) == Allow
    ensures l.Found? ==>
              var p, offset := l.pref, if l.pref.zone.Some? then l.pref.zone.value else 0;
              var quiet := p.quietStart.Some? && p.quietEnd.Some?
                           && ParseClock(p.quietStart.value).Some? && ParseClock(p.quietEnd.value).Some?
                           && var start, end := ParseClock(p.quietStart.value).value, ParseClock(p.quietEnd.value).value;
                              (now + offset - start * 60_000_000_000) % 86_400_000_000_000
                              < (end - start) * 60_000_000_000 % 86_400_000_000_000;
              && (IsAllowed(l, now) == Allow <==> p.enabled && !quiet)
              && (IsAllowed(l, now) == Deny("channel disabled by user") <==> !p.enabled)
              && (IsAllowed(l, now) == Deny("quiet hours active") <==> p.enabled && quiet)
  {
    if l.Found? && l.pref.quietStart.Some? && l.pref.quietEnd.Some? {
      var s, e := ParseClock(l.pref.quietStart.value), ParseClock(l.pref.quietEnd.value);
      if s.Some? && e.Some? {
        WindowIsCircular(s.value, e.value, now, if l.pref.zone.Some? then l.pref.zone.value else 0);
      }
    }
  }

  /** With stored quiet hours, an enabled channel is blocked exactly on the circular interval,
      in the user's zone. */
  lemma AllowedIff(p: Preference, start: nat, end: nat, now: int)
    requires start < 1440 && end < 1440
    requires p.quietStart == Some(FormatClock(start)) && p.quietEnd == Some(FormatClock(end))
    ensures IsAllowed(Found(p), now) == Allow
       <==> p.enabled && !InCircle(start, end, now + (if p.zone.Some? then p.zone.value else 0))
  {
    ClockRoundTrip(start);
    ClockRoundTrip(end);
    WindowIsCircular(start, end, now, if p.zone.Some? then p.zone.value else 0);
  }
}
