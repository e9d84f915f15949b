/**
 * The relative-time label shown beside every proposal ("3 days ago",
 * "1 hour ago", "Just now"). The clock read of the component is a parameter
 * `now`; timestamps are whole milliseconds.
 */
module TimeAgo {

  const DAY_MS: int := 86_400_000
  const HOUR_MS: int := 3_600_000

  /** JavaScript's `Math.floor(a / b)` for a positive divisor. */
  function FloorDiv(a: int, b: int): (q: int)
    requires b > 0
    ensures q * b <= a < q * b + b
  {
    a / b
  }

  /** JavaScript's `a % b`: the remainder truncates and takes the sign of `a`. */
  function JsRem(a: int, b: int): (r: int)
    requires b > 0
    ensures -b < r < b
    ensures a >= 0 ==> r == a % b
    ensures a < 0 ==> r <= 0
  {
    if a >= 0 then a % b else -((-a) % b)
  }

  /** The truncated remainder is odd in its dividend, unlike Dafny's Euclidean one. */
  lemma JsRemOdd(a: int, b: int)
    requires b > 0
    ensures JsRem(-a, b) == -JsRem(a, b)
  {
  }

  predicate IsDigit(c: char) {
    '0' <= c <= '9'
  }

  function Digit(d: nat): (c: char)
    requires d < 10
    ensures IsDigit(c)
  {
    ('0' as int + d) as char
  }

  function DigitValue(c: char): (d: nat)
    requires IsDigit(c)
    ensures d < 10
  {
    c as int - '0' as int
  }

  /** The decimal text JavaScript's template literal gives a non-negative integer. */
  function Decimal(n: nat): (s: string)
    ensures 1 <= |s|
    ensures forall i :: 0 <= i < |s| ==> IsDigit(s[i])
    ensures n == 0 <==> s == "0"
    ensures n > 0 ==> s[0] != '0'
    decreases n
  {
    if n < 10 then [Digit(n)] else Decimal(n / 10) + [Digit(n % 10)]
  }

  /** Reads a string of decimal digits back as a number (most significant first). */
  function ParseDecimal(s: string): (n: nat)
    requires forall i :: 0 <= i < |s| ==> IsDigit(s[i])
    decreases |s|
  {
    if s == [] then 0 else ParseDecimal(s[..|s| - 1]) * 10 + DigitValue(s[|s| - 1])
  }

  /** Reading the decimal text back gives the number that was written. */
  lemma {:induction false} DecimalRoundTrip(n: nat)
    ensures ParseDecimal(Decimal(n)) == n
    decreases n
  {
    var s := Decimal(n);
    if n < 10 {
      assert s[..|s| - 1] == [];
    } else {
      assert s[..|s| - 1] == Decimal(n / 10);
      DecimalRoundTrip(n / 10);
    }
  }

  /** Different numbers never print the same. */
  lemma DecimalInjective(m: nat, n: nat)
    requires Decimal(m) == Decimal(n)
    ensures m == n
  {
    DecimalRoundTrip(m);
    DecimalRoundTrip(n);
  }

  /**
   * "N unit ago": the number's digits, a space, the unit, an "s" exactly
   * when N is above one, then " ago".
   */
  function Counted(n: nat, unit: string): (s: string)
    ensures var k := |Decimal(n)|;
      && |s| == k + 1 + |unit| + (if n > 1 then 1 else 0) + 4
      && s[..k] == Decimal(n)
      && s[k] == ' '
      && s[k + 1..k + 1 + |unit|] == unit
      && (n > 1 ==> s[k + 1 + |unit|] == 's')
      && s[|s| - 4..] == " ago"
  {
    Decimal(n) + " " + unit + (if n > 1 then "s" else "") + " ago"
  }

  /** The label for a proposal created at `timestamp`, seen at time `now`. */
  function FormatTimeAgo(now: int, timestamp: int): (text: string)
    ensures text == Phrase(Classify(now - timestamp))
  {
    var diff := now - timestamp;
    var days := FloorDiv(diff, DAY_MS);
    var hours := FloorDiv(JsRem(diff, DAY_MS), HOUR_MS);
    if days > 0 then
      assert Classify(diff) == Days(days);
      Counted(days, "day")
    else if hours > 0 then
      assert Classify(diff) == Hours(hours);
      Counted(hours, "hour")
    else
      assert Classify(diff) == JustNow;
      "Just now"
  }

  /** What a label can say: whole days, whole hours, or nothing yet. */
  datatype Elapsed = JustNow | Hours(n: nat) | Days(n: nat)

  /**
   * Reference reading of an elapsed time, by intervals rather than by the
   * label's arithmetic: the number of whole days once a day has passed,
   * otherwise the number of whole hours once an hour has passed.
   */
  function Classify(diff: int): (e: Elapsed)
    ensures e.JustNow? <==> diff < HOUR_MS
    ensures e.Hours? <==> HOUR_MS <= diff < DAY_MS
    ensures e.Days? <==> DAY_MS <= diff
    ensures e.Hours? ==> 1 <= e.n <= 23 && e.n * HOUR_MS <= diff < (e.n + 1) * HOUR_MS
    ensures e.Days? ==> 1 <= e.n && e.n * DAY_MS <= diff < (e.n + 1) * DAY_MS
  {
    if diff >= DAY_MS then Days(diff / DAY_MS)
    else if diff >= HOUR_MS then Hours(diff / HOUR_MS)
    else JustNow
  }

  function Phrase(e: Elapsed): string {
    match e
    case JustNow => "Just now"
    case Hours(n) => Counted(n, "hour")
    case Days(n) => Counted(n, "day")
  }

  /** "Just now" is shown exactly when less than an hour has passed (or the timestamp is ahead). */
  lemma JustNowBelowAnHour(now: int, timestamp: int)
    ensures FormatTimeAgo(now, timestamp) == "Just now" <==> now - timestamp < HOUR_MS
  {
  }

  /** Between one hour and one day: whole hours, 1 to 23, plural from 2 on. */
  lemma HoursLabel(now: int, timestamp: int)
    requires HOUR_MS <= now - timestamp < DAY_MS
    ensures var n := (now - timestamp) / HOUR_MS;
      && 1 <= n <= 23
      && FormatTimeAgo(now, timestamp) == Decimal(n) + (if n > 1 then " hours ago" else " hour ago")
  {
  }

  /** From one day on: whole days, plural from 2 on. */
  lemma DaysLabel(now: int, timestamp: int)
    requires DAY_MS <= now - timestamp
    ensures var n := (now - timestamp) / DAY_MS;
      && 1 <= n
      && FormatTimeAgo(now, timestamp) == Decimal(n) + (if n > 1 then " days ago" else " day ago")
  {
  }

  /** The label names the elapsed time unambiguously: equal labels mean equal readings. */
  lemma PhraseInjective(e1: Elapsed, e2: Elapsed)
    requires Phrase(e1) == Phrase(e2)
    ensures e1 == e2
  {
    if e1.JustNow? || e2.JustNow? {
      var other := if e1.JustNow? then e2 else e1;
      if !other.JustNow? {
        assert false;
      }
    } else {
      var u1, u2 := if e1.Hours? then "hour" else "day", if e2.Hours? then "hour" else "day";
      var d1, d2 := Decimal(e1.n), Decimal(e2.n);
      var s := Phrase(e1);
      assert s == Counted(e1.n, u1) && s == Counted(e2.n, u2);
      if |d1| < |d2| {
        assert false;
      } else if |d2| < |d1| {
        assert false;
      } else {
        DecimalInjective(e1.n, e2.n);
        assert s[|d1| + 1..|d1| + 1 + |u1|][0] == u1[0];
        assert s[|d2| + 1..|d2| + 1 + |u2|][0] == u2[0];
      }
    }
  }

  /** The boundary cases of "Just now": no time, a millisecond short of an hour, a timestamp ahead. */
  lemma JustNowBoundaries(t: int)
    ensures FormatTimeAgo(t, t) == "Just now"
    ensures FormatTimeAgo(t + 3_599_999, t) == "Just now"
    ensures FormatTimeAgo(t - 1, t) == "Just now"
  {
    JustNowBelowAnHour(t, t);
    JustNowBelowAnHour(t + 3_599_999, t);
    JustNowBelowAnHour(t - 1, t);
  }

  /** The boundary cases of the hour labels: the first hour, the first plural, the last hour of a day. */
  lemma HourBoundaries(t: int)
    ensures FormatTimeAgo(t + 3_600_000, t) == "1 hour ago"
    ensures FormatTimeAgo(t + 7_200_000, t) == "2 hours ago"
    ensures FormatTimeAgo(t + 86_399_999, t) == "23 hours ago"
  {
    HoursLabel(t + 3_600_000, t);
    HoursLabel(t + 7_200_000, t);
    HoursLabel(t + 86_399_999, t);
    assert Decimal(23) == "23";
  }

  /** The boundary cases of the day labels: the first day and the first plural. */
  lemma DayBoundaries(t: int)
    ensures FormatTimeAgo(t + 86_400_000, t) == "1 day ago"
    ensures FormatTimeAgo(t + 172_800_000, t) == "2 days ago"
  {
    DaysLabel(t + 86_400_000, t);
    DaysLabel(t + 172_800_000, t);
  }
}
