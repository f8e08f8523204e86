/**
 * Naive date-times as `dateutil` produces them, their order, and
 * `strftime("%b %d, %Y")`.
 */
module Calendar {
  import opened Numerals

  /** A date-time without time zone, to the second: `second` counts from midnight. */
  datatype Moment = Moment(year: int, month: int, day: int, second: int)

  predicate IsLeapYear(year: int) {
    year % 4 == 0 && (year % 100 != 0 || year % 400 == 0)
  }

  function DaysInMonth(year: int, month: int): (n: int)
    requires 1 <= month <= 12
    ensures 28 <= n <= 31
  {
    if month == 2 then (if IsLeapYear(year) then 29 else 28)
    else if month == 4 || month == 6 || month == 9 || month == 11 then 30
    else 31
  }

  /** A moment that names a real date and time of a four-digit year. */
  predicate Valid(t: Moment) {
    1000 <= t.year <= 9999 && 1 <= t.month <= 12 &&
    1 <= t.day <= DaysInMonth(t.year, t.month) && 0 <= t.second < 86400
  }

  /** `a < b` on date-times: compared field by field, most significant first. */
  predicate Before(a: Moment, b: Moment) {
    a.year < b.year || (a.year == b.year &&
    (a.month < b.month || (a.month == b.month &&
    (a.day < b.day || (a.day == b.day && a.second < b.second)))))
  }

  /** `a <= b` on date-times. */
  predicate AtOrBefore(a: Moment, b: Moment) {
    Before(a, b) || a == b
  }

  /** `min(a, b)`: the first argument unless the second is strictly earlier. */
  function Earlier(a: Moment, b: Moment): (r: Moment)
    ensures r == a || r == b
    ensures AtOrBefore(r, a) && AtOrBefore(r, b)
  {
    if Before(b, a) then b else a
  }

  /** `max(a, b)`: the first argument unless the second is strictly later. */
  function Later(a: Moment, b: Moment): (r: Moment)
    ensures r == a || r == b
    ensures AtOrBefore(a, r) && AtOrBefore(b, r)
  {
    if Before(a, b) then b else a
  }

  /** Taking the earlier and the later of two moments does not depend on their order. */
  lemma EarlierLaterSymmetric(a: Moment, b: Moment)
    ensures Earlier(a, b) == Earlier(b, a) && Later(a, b) == Later(b, a)
    ensures AtOrBefore(Earlier(a, b), Later(a, b))
  {
  }

  /** The moment one second after `t`, rolling over into the next day, month and year. */
  function Successor(t: Moment): (r: Moment)
    requires Valid(t)
    ensures Before(t, r)
    ensures t.year < 9999 ==> Valid(r)
  {
    if t.second < 86399 then t.(second := t.second + 1)
    else if t.day < DaysInMonth(t.year, t.month) then Moment(t.year, t.month, t.day + 1, 0)
    else if t.month < 12 then Moment(t.year, t.month + 1, 1, 0)
    else Moment(t.year + 1, 1, 1, 0)
  }

  /** No real moment lies strictly between `t` and its successor. */
  lemma SuccessorIsNext(t: Moment, x: Moment)
    requires Valid(t) && Valid(x)
    ensures Before(t, x) <==> AtOrBefore(Successor(t), x)
  {
  }

  const MonthAbbreviations: seq<string> :=
    ["Jan", "Feb", "Mar", "Apr", "May", "Jun", "Jul", "Aug", "Sep", "Oct", "Nov", "Dec"]

  lemma {:induction false} FourDigitYear(n: nat)
    requires 1000 <= n <= 9999
    ensures |Decimal(n)| == 4
  {
    assert Decimal(n) == Decimal(n / 10) + [DigitChar(n % 10)];
    assert Decimal(n / 10) == Decimal(n / 100) + [DigitChar(n / 10 % 10)];
    assert Decimal(n / 100) == Decimal(n / 1000) + [DigitChar(n / 100 % 10)];
  }

  /**
   * `t.strftime("%b %d, %Y")`, as in "Apr 17, 2016": the month's
   * abbreviation, the day as two digits, and the year.
   */
  function RenderDate(t: Moment): (r: string)
    requires Valid(t)
    ensures |r| == 12 && r[..3] == MonthAbbreviations[t.month - 1]
    ensures r[3] == ' ' && r[6..8] == ", "
    ensures AllDigits(r[4..6]) && DigitsValue(r[4..6]) == t.day
    ensures AllDigits(r[8..]) && DigitsValue(r[8..]) == t.year
  {
    FourDigitYear(t.year);
    DecimalReadsBack(t.year);
    var dd := [DigitChar(t.day / 10), DigitChar(t.day % 10)];
    assert dd[..1] == [DigitChar(t.day / 10)] && dd[..1][..0] == [];
    assert DigitsValue(dd[..1]) == t.day / 10;
    assert DigitsValue(dd) == DigitsValue(dd[..1]) * 10 + t.day % 10;
    var r := MonthAbbreviations[t.month - 1] + " " + dd + ", " + Decimal(t.year);
    assert r[4..6] == dd;
    assert r[8..] == Decimal(t.year);
    r
  }

}
