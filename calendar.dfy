/**
 * Calendar values of the engine: birth dates, the instants JavaScript `Date`
 * objects stand for, the Gregorian day after a date (the `solDay + 1`
 * rollover), the solar-term records the calendar provider returns, and the
 * text forms of dates and times that go in and out of the engine.
 *
 * A `Date` object built from in-range fields is modelled by the fields
 * themselves; comparing two such objects is comparing the field tuples
 * lexicographically.
 */
module Calendar {
  import opened Wrappers
  import opened Text

  datatype Date = Date(year: int, month: int, day: int)

  datatype Instant = Instant(year: int, month: int, day: int, hour: int, minute: int)

  /** `a < b` on two `Date` objects. */
  predicate Before(a: Instant, b: Instant) {
    || a.year < b.year
    || (a.year == b.year && a.month < b.month)
    || (a.year == b.year && a.month == b.month && a.day < b.day)
    || (a.year == b.year && a.month == b.month && a.day == b.day && a.hour < b.hour)
    || (a.year == b.year && a.month == b.month && a.day == b.day && a.hour == b.hour && a.minute < b.minute)
  }

  /** `a <= b` (JavaScript's `b >= a`) on two `Date` objects. */
  predicate AtOrBefore(a: Instant, b: Instant) {
    a == b || Before(a, b)
  }

  /** Instants are totally ordered, so `!(a < b)` is `a >= b`. */
  lemma BeforeTotal(a: Instant, b: Instant)
    ensures !Before(a, a)
    ensures AtOrBefore(b, a) <==> !Before(a, b)
  {
  }

  lemma BeforeTransitive(a: Instant, b: Instant, c: Instant)
    requires Before(a, b) && Before(b, c)
    ensures Before(a, c)
  {
  }

  // ---------------------------------------------------------------- Gregorian dates

  predicate IsLeapYear(y: int) {
    y % 4 == 0 && (y % 100 != 0 || y % 400 == 0)
  }

  function DaysInMonth(y: int, m: int): (n: int)
    requires 1 <= m <= 12
    ensures 28 <= n <= 31
    ensures n == 29 <==> m == 2 && IsLeapYear(y)
    ensures n == 28 <==> m == 2 && !IsLeapYear(y)
    ensures n == 30 <==> m in {4, 6, 9, 11}
  {
    if m == 2 then (if IsLeapYear(y) then 29 else 28)
    else if m in {4, 6, 9, 11} then 30
    else 31
  }

  predicate ValidDate(d: Date) {
    1 <= d.month <= 12 && 1 <= d.day <= DaysInMonth(d.year, d.month)
  }

  predicate DateBefore(a: Date, b: Date) {
    Before(Instant(a.year, a.month, a.day, 0, 0), Instant(b.year, b.month, b.day, 0, 0))
  }

  /**
   * `new Date(y, m - 1, d + 1)`: the calendar day after `d`, rolling over the
   * month and the year. Only valid dates are given a meaning.
   */
  function NextDay(d: Date): (r: Date)
    ensures ValidDate(d) ==> ValidDate(r) && DateBefore(d, r)
  {
    if 1 <= d.month <= 12 && d.day < DaysInMonth(d.year, d.month) then Date(d.year, d.month, d.day + 1)
    else if d.month < 12 then Date(d.year, d.month + 1, 1)
    else Date(d.year + 1, 1, 1)
  }

  /** The calendar day before `d`: an independent definition NextDay is checked against. */
  function PrevDay(d: Date): (r: Date)
    ensures ValidDate(d) ==> ValidDate(r) && DateBefore(r, d)
  {
    if d.day > 1 then Date(d.year, d.month, d.day - 1)
    else if 1 < d.month <= 12 then Date(d.year, d.month - 1, DaysInMonth(d.year, d.month - 1))
    else Date(d.year - 1, 12, 31)
  }

  /** NextDay gives the very next valid date: no valid date lies strictly between. */
  lemma NextDayIsSuccessor(d: Date, x: Date)
    requires ValidDate(d) && ValidDate(x)
    ensures DateBefore(d, x) ==> !DateBefore(x, NextDay(d))
  {
  }

  /** NextDay and PrevDay undo each other on valid dates. */
  lemma NextPrevInverse(d: Date)
    requires ValidDate(d)
    ensures PrevDay(NextDay(d)) == d
    ensures NextDay(PrevDay(d)) == d
  {
  }

  // ---------------------------------------------------------------- solar terms

  /** A solar term's clock time (`kst`, "HH:MM"); the provider leaves it empty for some terms. */
  datatype Clock = NoKst | Kst(hour: int, minute: int)

  /** One solar-term record: its date as the number YYYYMMDD, its clock time and its name. */
  datatype JeolgiInfo = JeolgiInfo(locdate: int, kst: Clock, dateName: string)

  /** The calendar year of a term record, the first four digits of its `locdate`. */
  function LocYear(j: JeolgiInfo): int {
    j.locdate / 10000
  }

  /**
   * `jeolgiToDate`: the instant a term record stands for. The date comes from
   * the digits of `locdate`, the time from `kst`, or 00:00 when it is empty.
   */
  function JeolgiToInstant(j: JeolgiInfo): (r: Instant)
    ensures r.year == LocYear(j)
    ensures r.year * 10000 + r.month * 100 + r.day == j.locdate
    ensures 0 <= r.month < 100 && 0 <= r.day < 100
    ensures j.kst.NoKst? ==> r.hour == 0 && r.minute == 0
    ensures j.kst.Kst? ==> r.hour == j.kst.hour && r.minute == j.kst.minute
  {
    var (hour, minute) := match j.kst
      case NoKst => (0, 0)
      case Kst(h, m) => (h, m);
    Instant(j.locdate / 10000, (j.locdate / 100) % 100, j.locdate % 100, hour, minute)
  }

  /** A date written as YYYYMMDD is read back field by field. */
  lemma LocdateRoundTrip(d: Date, kst: Clock, name: string)
    requires 0 <= d.month < 100 && 0 <= d.day < 100
    ensures var r := JeolgiToInstant(JeolgiInfo(d.year * 10000 + d.month * 100 + d.day, kst, name));
            r.year == d.year && r.month == d.month && r.day == d.day
  {
    var r := JeolgiToInstant(JeolgiInfo(d.year * 10000 + d.month * 100 + d.day, kst, name));
    var a := r.month * 100 + r.day;
    var b := d.month * 100 + d.day;
    assert 0 <= a < 10000 && 0 <= b < 10000;
    assert (r.year - d.year) * 10000 == b - a;
    assert r.year == d.year;
    assert r.month * 100 + r.day == d.month * 100 + d.day;
    assert (r.month - d.month) * 100 == d.day - r.day;
  }

  // ---------------------------------------------------------------- text forms

  /** `${y}-${pad2(m)}-${pad2(d)}`: how the engine writes a solar or lunar date. */
  function DateString(d: Date): string {
    NumberToString(d.year) + "-" + PadStart2(NumberToString(d.month)) + "-" + PadStart2(NumberToString(d.day))
  }

  /** `birthDate.split("-").map(Number)` on "YYYY-MM-DD"; None when a field is not a digit run. */
  function ParseDateString(s: string): (r: Option<Date>)
    ensures r.Some? ==> r.value.year >= 0 && r.value.month >= 0 && r.value.day >= 0
  {
    var parts := Split(s, '-');
    if |parts| < 3 then None
    else
      match (NumberField(parts[0]), NumberField(parts[1]), NumberField(parts[2]))
      case (Some(y), Some(m), Some(d)) => Some(Date(y, m, d))
      case _ => None
  }

  lemma DigitsExclude(s: string, c: char)
    requires AllDigits(s) && !IsDigit(c)
    ensures c !in s
  {
  }

  /** Three separator-free fields joined by '-' split back into those fields. */
  lemma SplitThree(a: string, b: string, c: string)
    requires '-' !in a && '-' !in b && '-' !in c
    ensures Split(a + "-" + b + "-" + c, '-') == [a, b, c]
  {
    assert a + "-" + b + "-" + c == a + ['-'] + (b + ['-'] + c);
    SplitCons(a, '-', b + ['-'] + c);
    SplitCons(b, '-', c);
    assert Split(c, '-') == [c];
  }

  lemma ParseDateFields(s: string, y: string, m: string, dd: string, d: Date)
    requires Split(s, '-') == [y, m, dd]
    requires NumberField(y) == Some(d.year) && NumberField(m) == Some(d.month) && NumberField(dd) == Some(d.day)
    ensures ParseDateString(s) == Some(d)
  {
  }

  /** A rendered, zero-padded field reads back as its number and holds no '-'. */
  lemma FieldRoundTrip(n: nat, padded: bool)
    ensures var f := if padded then PadStart2(NatToString(n)) else NatToString(n);
            NumberField(f) == Some(n) && '-' !in f
  {
    NatToStringRoundTrip(n);
    PaddedRoundTrip(n);
    DigitsExclude(PadStart2(NatToString(n)), '-');
    DigitsExclude(NatToString(n), '-');
  }

  /** A rendered date splits on '-' into its three rendered fields. */
  lemma SplitDateString(d: Date, y: string, m: string, dd: string)
    requires y == NumberToString(d.year) && m == PadStart2(NumberToString(d.month)) && dd == PadStart2(NumberToString(d.day))
    requires '-' !in y && '-' !in m && '-' !in dd
    ensures Split(DateString(d), '-') == [y, m, dd]
  {
    SplitThree(y, m, dd);
    assert DateString(d) == y + "-" + m + "-" + dd;
  }

  /** Writing a date and reading it back gives the same date. */
  lemma DateStringRoundTrip(d: Date)
    requires d.year >= 0 && d.month >= 0 && d.day >= 0
    ensures ParseDateString(DateString(d)) == Some(d)
  {
    var y := NatToString(d.year);
    var m := PadStart2(NatToString(d.month));
    var dd := PadStart2(NatToString(d.day));
    FieldRoundTrip(d.year, false);
    FieldRoundTrip(d.month, true);
    FieldRoundTrip(d.day, true);
    SplitDateString(d, y, m, dd);
    ParseDateFields(DateString(d), y, m, dd, d);
  }

  /** What the engine makes of the birth time: no hour, an hour, or JavaScript's NaN. */
  datatype ParsedHour = Unknown | At(hour: nat) | NotANumber

  /**
   * The birth-time parse: an empty time or "모름" ("unknown") gives no hour; so
   * does a time without ':'; otherwise `parseInt` of the part before the first ':'.
   */
  function BirthHour(birthTime: string): (r: ParsedHour)
    ensures r.Unknown? <==> birthTime == "" || birthTime == "모름" || ':' !in birthTime
    ensures r.NotANumber? <==> !r.Unknown? && ParseIntPrefix(Split(birthTime, ':')[0]).None?
  {
    if birthTime == "" || birthTime == "모름" then Unknown
    else
      var parts := Split(birthTime, ':');
      if |parts| < 2 then Unknown
      else
        match ParseIntPrefix(parts[0])
        case Some(h) => At(h)
        case None => NotANumber
  }

  /** A leading digit run followed by a non-digit is exactly what `parseInt` reads. */
  lemma {:induction false} LeadingDigitsOf(p: string, rest: string)
    requires AllDigits(p)
    requires rest == [] || !IsDigit(rest[0])
    ensures LeadingDigits(p + rest) == p
  {
    if p != [] {
      assert (p + rest)[1..] == p[1..] + rest;
      LeadingDigitsOf(p[1..], rest);
    }
  }

  /** An "HH:MM" time from the form yields the hour it shows. */
  lemma ClockRoundTrip(h: nat, m: nat)
    ensures BirthHour(PadStart2(NatToString(h)) + ":" + PadStart2(NatToString(m))) == At(h)
  {
    var hh := PadStart2(NatToString(h));
    var mm := PadStart2(NatToString(m));
    var s := hh + ":" + mm;
    PaddedRoundTrip(h);
    PaddedRoundTrip(m);
    assert ':' !in hh;
    assert s == hh + [':'] + mm;
    SplitCons(hh, ':', mm);
    assert s != "모름" by { assert s[|hh|] == ':'; }
    LeadingDigitsOf(hh, []);
    assert hh + [] == hh;
  }
}
