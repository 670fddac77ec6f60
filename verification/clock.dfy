/** Python's `datetime.time` and `datetime.datetime` as plain field records,
    their comparison (field by field, most significant first) and the
    `strftime` renderings the application uses. */
module Clock {

  type Hour = h: int | 0 <= h < 24
  type Sixty = m: int | 0 <= m < 60
  type Micro = u: int | 0 <= u < 1000000
  type Year = y: int | 1 <= y <= 9999 witness 1
  type Month = m: int | 1 <= m <= 12 witness 1
  type Day = d: int | 1 <= d <= 31 witness 1

  /** A `datetime.time` without time zone. */
  datatype TimeOfDay = TimeOfDay(hour: Hour, minute: Sixty, second: Sixty, micro: Micro)

  /** A naive `datetime.datetime`. */
  datatype DateTime = DateTime(year: Year, month: Month, day: Day, hour: Hour, minute: Sixty, second: Sixty, micro: Micro)
  {
    /** `.time()` */
    function Time(): TimeOfDay {
      TimeOfDay(hour, minute, second, micro)
    }
  }

  /** `a <= b` on `datetime.time`: the fields compared as a tuple. */
  predicate TimeLe(a: TimeOfDay, b: TimeOfDay) {
    a.hour < b.hour || (a.hour == b.hour &&
      (a.minute < b.minute || (a.minute == b.minute &&
        (a.second < b.second || (a.second == b.second && a.micro <= b.micro)))))
  }

  /** Microseconds since midnight. */
  function MicrosOfDay(t: TimeOfDay): (n: nat)
    ensures n < 86400000000
  {
    t.hour * 3600000000 + t.minute * 60000000 + t.second * 1000000 + t.micro
  }

  /** Python's tuple comparison of times is the order of instants in the day. */
  lemma TimeLeIsInstantOrder(a: TimeOfDay, b: TimeOfDay)
    ensures TimeLe(a, b) <==> MicrosOfDay(a) <= MicrosOfDay(b)
  {
  }

  /** `a < b` on `datetime.datetime`: the fields compared as a tuple. */
  predicate Before(a: DateTime, b: DateTime) {
    a.year < b.year || (a.year == b.year &&
      (a.month < b.month || (a.month == b.month &&
        (a.day < b.day || (a.day == b.day && TimeLe(a.Time(), b.Time()) && a.Time() != b.Time())))))
  }

  /** `a <= b` on `datetime.datetime`. */
  predicate AtOrBefore(a: DateTime, b: DateTime) {
    Before(a, b) || a == b
  }

  /** A position on a time line on which every valid date-time has its own place. */
  function Rank(d: DateTime): nat {
    (d.year * 12 + (d.month - 1)) * 31 * 86400000000 + (d.day - 1) * 86400000000 + MicrosOfDay(d.Time())
  }

  /** Field-by-field comparison agrees with the time line: it is a strict total order. */
  lemma BeforeIsRankOrder(a: DateTime, b: DateTime)
    ensures Before(a, b) <==> Rank(a) < Rank(b)
    ensures a == b <==> Rank(a) == Rank(b)
  {
  }

  /** The decimal digit for `0 <= n < 10`. */
  function Digit(n: int): (c: char)
    requires 0 <= n < 10
    ensures '0' <= c <= '9'
  {
    "0123456789"[n]
  }

  /** The value of a decimal digit character. */
  function DigitValue(c: char): int {
    c as int - '0' as int
  }

  /** `%02d`: two zero-padded digits. */
  function Pad2(n: int): (r: string)
    requires 0 <= n < 100
    ensures |r| == 2
    ensures forall i :: 0 <= i < |r| ==> '0' <= r[i] <= '9'
  {
    [Digit(n / 10), Digit(n % 10)]
  }

  /** `%03d`: three zero-padded digits. */
  function Pad3(n: int): (r: string)
    requires 0 <= n < 1000
    ensures |r| == 3
    ensures forall i :: 0 <= i < |r| ==> '0' <= r[i] <= '9'
  {
    [Digit(n / 100)] + Pad2(n % 100)
  }

  /** `%Y` rendered as four zero-padded digits. */
  function Pad4(n: int): (r: string)
    requires 0 <= n < 10000
    ensures |r| == 4
    ensures forall i :: 0 <= i < |r| ==> '0' <= r[i] <= '9'
  {
    Pad2(n / 100) + Pad2(n % 100)
  }

  function Value2(s: string): int
    requires |s| == 2
  {
    DigitValue(s[0]) * 10 + DigitValue(s[1])
  }

  function Value4(s: string): int
    requires |s| == 4
  {
    Value2(s[..2]) * 100 + Value2(s[2..])
  }

  /** Reading two padded digits back gives the number. */
  lemma Pad2Value(n: int)
    requires 0 <= n < 100
    ensures Value2(Pad2(n)) == n
  {
    assert DigitValue(Digit(n / 10)) == n / 10;
    assert DigitValue(Digit(n % 10)) == n % 10;
  }

  lemma Pad4Value(n: int)
    requires 0 <= n < 10000
    ensures Value4(Pad4(n)) == n
  {
    var r := Pad4(n);
    assert r[..2] == Pad2(n / 100);
    assert r[2..] == Pad2(n % 100);
    Pad2Value(n / 100);
    Pad2Value(n % 100);
  }

  /** `%H:%M` */
  function FormatHourMinute(t: TimeOfDay): string {
    Pad2(t.hour) + ":" + Pad2(t.minute)
  }

  /** `%Y-%m-%d` */
  function FormatDate(d: DateTime): (r: string)
    ensures |r| == 10
  {
    Pad4(d.year) + "-" + Pad2(d.month) + "-" + Pad2(d.day)
  }

  /** `%H:%M:%S` */
  function FormatClock(d: DateTime): (r: string)
    ensures |r| == 8
  {
    Pad2(d.hour) + ":" + Pad2(d.minute) + ":" + Pad2(d.second)
  }

  /** `%Y-%m-%d %H:%M:%S`, the format the dashboard parses back. */
  function FormatSeconds(d: DateTime): (r: string)
    ensures |r| == 19
  {
    FormatDate(d) + " " + FormatClock(d)
  }

  /** `%Y%m%d%H%M%S`, the stamp inside a scheduled job's id. */
  function Stamp(d: DateTime): (r: string)
    ensures |r| == 14
  {
    Pad4(d.year) + Pad2(d.month) + Pad2(d.day) + Pad2(d.hour) + Pad2(d.minute) + Pad2(d.second)
  }

  /** Two date-times with the same stamp agree on every field but the microsecond. */
  lemma {:induction false} StampInjective(a: DateTime, b: DateTime)
    requires Stamp(a) == Stamp(b)
    ensures a.(micro := 0) == b.(micro := 0)
  {
    var sa, sb := Stamp(a), Stamp(b);
    assert sa[..4] == Pad4(a.year) && sb[..4] == Pad4(b.year);
    assert sa[4..6] == Pad2(a.month) && sb[4..6] == Pad2(b.month);
    assert sa[6..8] == Pad2(a.day) && sb[6..8] == Pad2(b.day);
    assert sa[8..10] == Pad2(a.hour) && sb[8..10] == Pad2(b.hour);
    assert sa[10..12] == Pad2(a.minute) && sb[10..12] == Pad2(b.minute);
    assert sa[12..] == Pad2(a.second) && sb[12..] == Pad2(b.second);
    Pad4Value(a.year); Pad4Value(b.year);
    Pad2Value(a.month); Pad2Value(b.month);
    Pad2Value(a.day); Pad2Value(b.day);
    Pad2Value(a.hour); Pad2Value(b.hour);
    Pad2Value(a.minute); Pad2Value(b.minute);
    Pad2Value(a.second); Pad2Value(b.second);
  }
}
