/**
 * The Python values the server's handlers build and hand to `jsonify`, and
 * the naive `datetime` stamps its TIMESTAMP columns hold.
 */
module Py {
  import opened Text

  /** A naive `datetime.datetime`. */
  datatype Timestamp = Timestamp(year: int, month: int, day: int, hour: int, minute: int, second: int, microsecond: int)
  {
    /** The field ranges `datetime` enforces (day-of-month lengths aside). */
    predicate Valid() {
      1 <= year <= 9999 && 1 <= month <= 12 && 1 <= day <= 31 &&
      0 <= hour < 24 && 0 <= minute < 60 && 0 <= second < 60 && 0 <= microsecond < 1000000
    }
  }

  /** The stamps `datetime` can hold. */
  type DateTime = t: Timestamp | t.Valid() witness Timestamp(1970, 1, 1, 0, 0, 0, 0)

  datatype PyValue =
    | PyNone
    | PyBool(b: bool)
    | PyInt(i: int)
    | PyStr(s: string)
    | PyDateTime(t: DateTime)
    | PyList(items: seq<PyValue>)
    | PyDict(entries: map<string, PyValue>)

  /** Python truthiness, as `if x:` tests it. */
  predicate PyTruthy(v: PyValue) {
    match v
    case PyNone => false
    case PyBool(b) => b
    case PyInt(i) => i != 0
    case PyStr(s) => s != ""
    case PyDateTime(_) => true
    case PyList(items) => items != []
    case PyDict(entries) => entries != map[]
  }

  /** A field of `t` written with `%0<width>d`. */
  function Field(n: int, width: nat): (r: string)
    requires 1 <= width && 0 <= n < Pow10(width)
    ensures |r| == width
    ensures forall i :: 0 <= i < |r| ==> IsDigit(r[i])
    ensures DigitsValue(r) == n
  {
    NatToStringFits(n, width);
    PadNat(n, width)
  }

  /**
   * The layout of `isoformat()`: `YYYY-MM-DDTHH:MM:SS` (19 characters) or
   * `YYYY-MM-DDTHH:MM:SS.ffffff` (26), every other character a digit.
   */
  predicate IsoShaped(s: string) {
    && (|s| == 19 || |s| == 26)
    && s[4] == '-' && s[7] == '-' && s[10] == 'T' && s[13] == ':' && s[16] == ':'
    && AllDigits(s[0..4]) && AllDigits(s[5..7]) && AllDigits(s[8..10])
    && AllDigits(s[11..13]) && AllDigits(s[14..16]) && AllDigits(s[17..19])
    && (|s| == 26 ==> s[19] == '.' && AllDigits(s[20..26]))
  }

  /** `t.isoformat()`: `YYYY-MM-DDTHH:MM:SS`, followed by `.ffffff` when the microseconds are not zero. */
  function IsoFormat(t: DateTime): (r: string)
    ensures |r| == if t.microsecond == 0 then 19 else 26
    ensures IsoShaped(r)
  {
    assert Pow10(2) == 100 && Pow10(4) == 10000 && Pow10(6) == 1000000;
    var fraction := if t.microsecond != 0 then "." + Field(t.microsecond, 6) else "";
    var r := IsoJoin(
      Field(t.year, 4), Field(t.month, 2), Field(t.day, 2),
      Field(t.hour, 2), Field(t.minute, 2), Field(t.second, 2), fraction);
    IsoJoinParts(
      Field(t.year, 4), Field(t.month, 2), Field(t.day, 2),
      Field(t.hour, 2), Field(t.minute, 2), Field(t.second, 2), fraction);
    assert t.microsecond != 0 ==> fraction[1..] == Field(t.microsecond, 6);
    r
  }

  function IsoJoin(year: string, month: string, day: string, hour: string, minute: string, second: string, fraction: string): string {
    year + "-" + month + "-" + day + "T" + hour + ":" + minute + ":" + second + fraction
  }

  lemma IsoJoinParts(year: string, month: string, day: string, hour: string, minute: string, second: string, fraction: string)
    requires |year| == 4 && |month| == 2 && |day| == 2 && |hour| == 2 && |minute| == 2 && |second| == 2
    ensures var s := IsoJoin(year, month, day, hour, minute, second, fraction);
      && |s| == 19 + |fraction|
      && s[4] == '-' && s[7] == '-' && s[10] == 'T' && s[13] == ':' && s[16] == ':'
      && s[0..4] == year && s[5..7] == month && s[8..10] == day
      && s[11..13] == hour && s[14..16] == minute && s[17..19] == second && s[19..] == fraction
  {
    var s := IsoJoin(year, month, day, hour, minute, second, fraction);
    var date := year + "-" + month + "-" + day;
    var time := hour + ":" + minute + ":" + second;
    assert s == date + "T" + time + fraction;
    assert s[..10] == date && s[11..19] == time && s[19..] == fraction;
    assert date[0..4] == year && date[5..7] == month && date[8..10] == day;
    assert time[0..2] == hour && time[3..5] == minute && time[6..8] == second;
  }

  /** Reads the fields back out of an `isoformat()` string; a missing fraction is zero microseconds. */
  function ParseIso(s: string): Timestamp
    requires IsoShaped(s)
  {
    Timestamp(
      DigitsValue(s[0..4]), DigitsValue(s[5..7]), DigitsValue(s[8..10]),
      DigitsValue(s[11..13]), DigitsValue(s[14..16]), DigitsValue(s[17..19]),
      if |s| == 26 then DigitsValue(s[20..26]) else 0)
  }

  /** `isoformat()` loses nothing: every field can be read back from its digits. */
  lemma IsoFormatRoundTrip(t: DateTime)
    ensures ParseIso(IsoFormat(t)) == t
  {
    assert Pow10(2) == 100 && Pow10(4) == 10000 && Pow10(6) == 1000000;
    var fraction := if t.microsecond != 0 then "." + Field(t.microsecond, 6) else "";
    IsoJoinParts(
      Field(t.year, 4), Field(t.month, 2), Field(t.day, 2),
      Field(t.hour, 2), Field(t.minute, 2), Field(t.second, 2), fraction);
    var r := IsoJoin(
      Field(t.year, 4), Field(t.month, 2), Field(t.day, 2),
      Field(t.hour, 2), Field(t.minute, 2), Field(t.second, 2), fraction);
    assert IsoFormat(t) == r;
    var p := ParseIso(r);
    assert p.year == t.year && p.month == t.month && p.day == t.day;
    assert p.hour == t.hour && p.minute == t.minute && p.second == t.second;
    assert p.microsecond == t.microsecond by {
      if t.microsecond != 0 {
        assert r[20..26] == fraction[1..] == Field(t.microsecond, 6);
      }
    }
  }

  /** Chronological order of two stamps: the first differing field decides. */
  predicate Before(a: Timestamp, b: Timestamp) {
    || a.year < b.year
    || (a.year == b.year && a.month < b.month)
    || (a.year == b.year && a.month == b.month && a.day < b.day)
    || (a.year == b.year && a.month == b.month && a.day == b.day && a.hour < b.hour)
    || (a.year == b.year && a.month == b.month && a.day == b.day && a.hour == b.hour && a.minute < b.minute)
    || (a.year == b.year && a.month == b.month && a.day == b.day && a.hour == b.hour && a.minute == b.minute
        && a.second < b.second)
    || (a.year == b.year && a.month == b.month && a.day == b.day && a.hour == b.hour && a.minute == b.minute
        && a.second == b.second && a.microsecond < b.microsecond)
  }

  /** `high * base + low`: one more field appended to a mixed-radix number. */
  function Mix(high: int, base: nat, low: int): int {
    high * base + low
  }

  lemma MixOrder(h1: int, l1: int, h2: int, l2: int, base: nat)
    requires 0 <= l1 < base && 0 <= l2 < base
    ensures Mix(h1, base, l1) < Mix(h2, base, l2) <==> h1 < h2 || (h1 == h2 && l1 < l2)
    ensures Mix(h1, base, l1) == Mix(h2, base, l2) <==> h1 == h2 && l1 == l2
  {
    if h1 < h2 {
      MulAtLeastBase(h2 - h1, base);
      assert h2 * base - h1 * base == (h2 - h1) * base;
    } else if h2 < h1 {
      MulAtLeastBase(h1 - h2, base);
      assert h1 * base - h2 * base == (h1 - h2) * base;
    }
  }

  lemma MulAtLeastBase(k: int, base: nat)
    requires k >= 1
    ensures k * base >= base
  {
    assert k * base == (k - 1) * base + base;
    assert (k - 1) * base >= 0;
  }

  /** A stamp as one number in mixed radix, field by field from the year down. */
  function Ordinal(t: DateTime): int {
    Mix(Mix(MinuteNumber(t), 60, t.second), 1000000, t.microsecond)
  }

  /** The minutes since year 0, counting every month as 31 days. */
  function MinuteNumber(t: DateTime): int {
    Mix(Mix(DayNumber(t), 24, t.hour), 60, t.minute)
  }

  /** The days since year 0, counting every month as 31 days. */
  function DayNumber(t: DateTime): int {
    Mix(Mix(t.year, 12, t.month - 1), 31, t.day - 1)
  }

  /**
   * One more field appended: if `lt`/`eq` say how the shorter prefixes
   * compare, the longer ones compare lexicographically.
   */
  lemma MixStage(x1: int, x2: int, l1: int, l2: int, base: nat, lt: bool, eq: bool)
    requires 0 <= l1 < base && 0 <= l2 < base
    requires (x1 < x2 <==> lt) && (x1 == x2 <==> eq)
    ensures Mix(x1, base, l1) < Mix(x2, base, l2) <==> lt || (eq && l1 < l2)
    ensures Mix(x1, base, l1) == Mix(x2, base, l2) <==> eq && l1 == l2
  {
    MixOrder(x1, l1, x2, l2, base);
  }

  /** Comparing ordinals is comparing stamps chronologically. */
  lemma OrdinalIsChronological(a: DateTime, b: DateTime)
    ensures Ordinal(a) < Ordinal(b) <==> Before(a, b)
  {
    var lt, eq := MinuteOrder(a, b);
    MixStage(MinuteNumber(a), MinuteNumber(b), a.second, b.second, 60, lt, eq);
    var x, y := Mix(MinuteNumber(a), 60, a.second), Mix(MinuteNumber(b), 60, b.second);
    lt, eq := lt || (eq && a.second < b.second), eq && a.second == b.second;
    MixStage(x, y, a.microsecond, b.microsecond, 1000000, lt, eq);
  }

  /** Stamps up to the minute: the date, then the hour, then the minute decides. */
  lemma MinuteOrder(a: DateTime, b: DateTime) returns (lt: bool, eq: bool)
    ensures lt <==> (|| a.year < b.year
                     || (a.year == b.year && a.month < b.month)
                     || (a.year == b.year && a.month == b.month && a.day < b.day)
                     || (a.year == b.year && a.month == b.month && a.day == b.day && a.hour < b.hour)
                     || (a.year == b.year && a.month == b.month && a.day == b.day && a.hour == b.hour
                         && a.minute < b.minute))
    ensures eq <==> (a.year == b.year && a.month == b.month && a.day == b.day && a.hour == b.hour
                     && a.minute == b.minute)
    ensures (MinuteNumber(a) < MinuteNumber(b) <==> lt) && (MinuteNumber(a) == MinuteNumber(b) <==> eq)
  {
    lt, eq := DayOrder(a, b);
    MixStage(DayNumber(a), DayNumber(b), a.hour, b.hour, 24, lt, eq);
    var x, y := Mix(DayNumber(a), 24, a.hour), Mix(DayNumber(b), 24, b.hour);
    lt, eq := lt || (eq && a.hour < b.hour), eq && a.hour == b.hour;
    MixStage(x, y, a.minute, b.minute, 60, lt, eq);
    lt, eq := lt || (eq && a.minute < b.minute), eq && a.minute == b.minute;
  }

  /** Dates: the year, then the month, then the day decides. */
  lemma DayOrder(a: DateTime, b: DateTime) returns (lt: bool, eq: bool)
    ensures lt <==> (|| a.year < b.year
                     || (a.year == b.year && a.month < b.month)
                     || (a.year == b.year && a.month == b.month && a.day < b.day))
    ensures eq <==> (a.year == b.year && a.month == b.month && a.day == b.day)
    ensures (DayNumber(a) < DayNumber(b) <==> lt) && (DayNumber(a) == DayNumber(b) <==> eq)
  {
    lt, eq := a.year < b.year, a.year == b.year;
    MixStage(a.year, b.year, a.month - 1, b.month - 1, 12, lt, eq);
    var x, y := Mix(a.year, 12, a.month - 1), Mix(b.year, 12, b.month - 1);
    lt, eq := lt || (eq && a.month < b.month), eq && a.month == b.month;
    MixStage(x, y, a.day - 1, b.day - 1, 31, lt, eq);
    lt, eq := lt || (eq && a.day < b.day), eq && a.day == b.day;
  }
}
