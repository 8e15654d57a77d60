/** A reading of `LocalDateTime.now()` and the `DateTimeFormatter` patterns the
    core prints it with (`yyyyMMdd`, `yyyyMMddHH`, `yyyyMMddHHmm`,
    `yyyyMMddHHmmssSSS`). Entity time stamps are kept apart as `Instant`s:
    whole seconds on the local time line, which is all the executor's
    `plusSeconds` needs. */
module Clock {
  import opened Text

  /** A local date-time down to the millisecond. */
  datatype DateTime = DateTime(year: int, month: int, day: int,
                               hour: int, minute: int, second: int, millisecond: int)
  {
    /** Field ranges of `LocalDateTime` for four-digit years (the only years
        the `yyyy` pattern prints without a sign). */
    predicate Valid() {
      1 <= year <= 9999 && 1 <= month <= 12 && 1 <= day <= 31 &&
      0 <= hour <= 23 && 0 <= minute <= 59 && 0 <= second <= 59 &&
      0 <= millisecond <= 999
    }
  }

  /** A `LocalDateTime` stored in an entity, as seconds on the local time line. */
  type Instant = int

  /** `LocalDateTime.plusSeconds`. */
  function PlusSeconds(t: Instant, seconds: int): (r: Instant)
    ensures r - t == seconds
  {
    t + seconds
  }

  /** Pattern `yyyyMMdd`. */
  function FormatDay(t: DateTime): (s: string)
    requires t.Valid()
    ensures |s| == 8 && AllDigits(s)
  {
    Pad(t.year, 4) + Pad(t.month, 2) + Pad(t.day, 2)
  }

  /** Pattern `yyyyMMddHH`. */
  function FormatHour(t: DateTime): (s: string)
    requires t.Valid()
    ensures |s| == 10 && AllDigits(s)
    ensures s[..8] == FormatDay(t)
  {
    FormatDay(t) + Pad(t.hour, 2)
  }

  /** Pattern `yyyyMMddHHmm`. */
  function FormatMinute(t: DateTime): (s: string)
    requires t.Valid()
    ensures |s| == 12 && AllDigits(s)
    ensures s[..10] == FormatHour(t)
  {
    FormatHour(t) + Pad(t.minute, 2)
  }

  /** Pattern `yyyyMMddHHmmssSSS`. */
  function FormatMillis(t: DateTime): (s: string)
    requires t.Valid()
    ensures |s| == 17 && AllDigits(s)
    ensures s[..12] == FormatMinute(t)
  {
    FormatMinute(t) + Pad(t.second, 2) + Pad(t.millisecond, 3)
  }

  /** Two fixed-width fields glued together split back apart. */
  lemma PadPairInjective(a: nat, b: nat, c: nat, d: nat, wa: nat, wb: nat)
    requires a < Pow10(wa) && c < Pow10(wa) && b < Pow10(wb) && d < Pow10(wb)
    requires Pad(a, wa) + Pad(b, wb) == Pad(c, wa) + Pad(d, wb)
    ensures a == c && b == d
  {
    var l, r := Pad(a, wa) + Pad(b, wb), Pad(c, wa) + Pad(d, wb);
    assert Pad(a, wa) == l[..wa] && Pad(c, wa) == r[..wa];
    assert Pad(b, wb) == l[wa..] && Pad(d, wb) == r[wa..];
    PadInjective(a, c, wa);
    PadInjective(b, d, wb);
  }

  lemma Pow10Values()
    ensures Pow10(2) == 100 && Pow10(3) == 1000 && Pow10(4) == 10000
  {
    assert Pow10(1) == 10;
  }

  /** `yyyyMMdd` tells days apart. */
  lemma FormatDayInjective(t: DateTime, u: DateTime)
    requires t.Valid() && u.Valid()
    requires FormatDay(t) == FormatDay(u)
    ensures t.year == u.year && t.month == u.month && t.day == u.day
  {
    Pow10Values();
    assert Pad(t.year, 4) + Pad(t.month, 2) == FormatDay(t)[..6];
    assert Pad(u.year, 4) + Pad(u.month, 2) == FormatDay(u)[..6];
    PadPairInjective(t.year, t.month, u.year, u.month, 4, 2);
    assert Pad(t.day, 2) == FormatDay(t)[6..] && Pad(u.day, 2) == FormatDay(u)[6..];
    PadInjective(t.day, u.day, 2);
  }

  /** `yyyyMMddHH` tells hours apart. */
  lemma FormatHourInjective(t: DateTime, u: DateTime)
    requires t.Valid() && u.Valid()
    requires FormatHour(t) == FormatHour(u)
    ensures t.year == u.year && t.month == u.month && t.day == u.day && t.hour == u.hour
  {
    Pow10Values();
    FormatDayInjective(t, u);
    assert Pad(t.hour, 2) == FormatHour(t)[8..] && Pad(u.hour, 2) == FormatHour(u)[8..];
    PadInjective(t.hour, u.hour, 2);
  }

  /** `yyyyMMddHHmm` tells minutes apart. */
  lemma FormatMinuteInjective(t: DateTime, u: DateTime)
    requires t.Valid() && u.Valid()
    requires FormatMinute(t) == FormatMinute(u)
    ensures t.year == u.year && t.month == u.month && t.day == u.day &&
            t.hour == u.hour && t.minute == u.minute
  {
    Pow10Values();
    FormatHourInjective(t, u);
    assert Pad(t.minute, 2) == FormatMinute(t)[10..] && Pad(u.minute, 2) == FormatMinute(u)[10..];
    PadInjective(t.minute, u.minute, 2);
  }

  /** `yyyyMMddHHmmssSSS` tells milliseconds apart: it is one-to-one on valid readings. */
  lemma FormatMillisInjective(t: DateTime, u: DateTime)
    requires t.Valid() && u.Valid()
    requires FormatMillis(t) == FormatMillis(u)
    ensures t == u
  {
    Pow10Values();
    FormatMinuteInjective(t, u);
    var s, v := FormatMillis(t), FormatMillis(u);
    assert Pad(t.second, 2) + Pad(t.millisecond, 3) == s[12..];
    assert Pad(u.second, 2) + Pad(u.millisecond, 3) == v[12..];
    PadPairInjective(t.second, t.millisecond, u.second, u.millisecond, 2, 3);
  }
}
