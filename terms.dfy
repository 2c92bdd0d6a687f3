/**
 * The solar-term side of `calculateSaju`: which year the Four Pillars year is
 * (it turns at 입춘, not at 1 January) and which solar month a birth falls in
 * (each month opens at one of the twelve sectional terms).
 *
 * The month scan of the source looks the twelfth term (소한) up in the solar
 * year of the birth or the year after; `MonthOpeningsAsWritten` models that
 * lookup, the engine uses it, and `AsWrittenSohanCaptures` shows where it goes
 * wrong. `MonthOpenings` looks every term up in the year the source's own
 * `sajuYear + (m < 11 ? 0 : 1)` expression names; the corrected engine
 * (`Saju.SajuCorrected`) uses it.
 */
module Terms {
  import opened Wrappers
  import opened Tables
  import opened Calendar

  /** The record is the term `name` dated in one of the calendar years `years`. */
  predicate IsTerm(j: JeolgiInfo, name: string, years: set<int>) {
    j.dateName == name && LocYear(j) in years
  }

  /** `all.find(...)` from position i on: the first record that is the wanted term, or -1. */
  function FindTermFrom(all: seq<JeolgiInfo>, name: string, years: set<int>, i: nat): (r: int)
    requires i <= |all|
    ensures r == -1 || i <= r < |all|
    ensures r >= 0 ==> IsTerm(all[r], name, years)
    ensures forall k :: i <= k < |all| && (r == -1 || k < r) ==> !IsTerm(all[k], name, years)
    decreases |all| - i
  {
    if i == |all| then -1
    else if IsTerm(all[i], name, years) then i
    else FindTermFrom(all, name, years, i + 1)
  }

  /** The first record that is the term `name` in one of the years `years`, or -1. */
  function FindTerm(all: seq<JeolgiInfo>, name: string, years: set<int>): int
  {
    FindTermFrom(all, name, years, 0)
  }

  /** The instant of the record at index k, if there is one. */
  function TermInstant(all: seq<JeolgiInfo>, k: int): Option<Instant>
    requires -1 <= k < |all|
  {
    if k == -1 then None else Some(JeolgiToInstant(all[k]))
  }

  // ---------------------------------------------------------------- the year

  /**
   * The Four Pillars year of a birth: the solar year, or the year before when
   * the records hold this solar year's 입춘 and the birth comes before it.
   */
  function SajuYear(all: seq<JeolgiInfo>, solYear: int, birth: Instant): (r: int)
    ensures r == solYear || r == solYear - 1
    ensures var k := FindTerm(all, Ipchun, {solYear});
            r == solYear - 1 <==> k != -1 && Before(birth, JeolgiToInstant(all[k]))
  {
    var k := FindTerm(all, Ipchun, {solYear});
    if k != -1 && Before(birth, JeolgiToInstant(all[k])) then solYear - 1 else solYear
  }

  /**
   * When this year's 입춘 is known, a birth belongs to the solar year exactly
   * when it is at or after the 입춘, and to the year before otherwise.
   */
  lemma SajuYearTurnsAtIpchun(all: seq<JeolgiInfo>, solYear: int, birth: Instant)
    requires FindTerm(all, Ipchun, {solYear}) != -1
    ensures var ipchun := JeolgiToInstant(all[FindTerm(all, Ipchun, {solYear})]);
            (SajuYear(all, solYear, birth) == solYear <==> AtOrBefore(ipchun, birth))
            && (SajuYear(all, solYear, birth) == solYear - 1 <==> Before(birth, ipchun))
  {
    BeforeTotal(birth, JeolgiToInstant(all[FindTerm(all, Ipchun, {solYear})]));
  }

  // ---------------------------------------------------------------- the month

  /** The calendar year in which month m (0 = 입춘 ... 11 = 소한) of Four Pillars year `sajuYear` opens. */
  function TermYear(m: int, sajuYear: int): int {
    if m < 11 then sajuYear else sajuYear + 1
  }

  /** The opening instant of each month of the Four Pillars year, where the records hold it. */
  function MonthOpenings(all: seq<JeolgiInfo>, sajuYear: int): (located: seq<Option<Instant>>)
    ensures |located| == 12
    ensures forall m :: 0 <= m < 12 ==>
              located[m] == TermInstant(all, FindTerm(all, SectionalTerms[m], {TermYear(m, sajuYear)}))
  {
    seq(12, m requires 0 <= m < 12 => TermInstant(all, FindTerm(all, SectionalTerms[m], {TermYear(m, sajuYear)})))
  }

  /**
   * The openings as the source's scan looks them up: like `MonthOpenings`,
   * except that 소한 is taken from the birth's solar year or the year after.
   * This is what the engine uses; see `AsWrittenSohanCaptures`.
   */
  function MonthOpeningsAsWritten(all: seq<JeolgiInfo>, solYear: int, sajuYear: int): (located: seq<Option<Instant>>)
    ensures |located| == 12
    ensures located[..11] == MonthOpenings(all, sajuYear)[..11]
    ensures located[11] == TermInstant(all, FindTerm(all, Sohan, {solYear, solYear + 1}))
  {
    MonthOpenings(all, sajuYear)[..11] + [TermInstant(all, FindTerm(all, Sohan, {solYear, solYear + 1}))]
  }

  /** Month m has opened by the time of the birth. */
  predicate Passed(located: seq<Option<Instant>>, birth: Instant, m: int) {
    0 <= m < |located| && located[m].Some? && AtOrBefore(located[m].value, birth)
  }

  /** The highest month index below n that has opened by the birth, or -1. */
  function LastPassedBelow(located: seq<Option<Instant>>, birth: Instant, n: nat): (r: int)
    requires n <= |located|
    ensures -1 <= r < n
    ensures r >= 0 ==> Passed(located, birth, r)
    ensures forall k :: r < k < n ==> !Passed(located, birth, k)
  {
    if n == 0 then -1
    else if Passed(located, birth, n - 1) then n - 1
    else LastPassedBelow(located, birth, n - 1)
  }

  /** The month number the scan arrives at after looking at the first n openings. */
  function MonthAfter(located: seq<Option<Instant>>, birth: Instant, n: nat): int
    requires n <= |located|
  {
    var last := LastPassedBelow(located, birth, n);
    if last == -1 then 1 else last + 1
  }

  /** One more opening looked at moves the month on exactly when that opening has passed. */
  lemma MonthAfterStep(located: seq<Option<Instant>>, birth: Instant, m: nat)
    requires m < |located|
    ensures MonthAfter(located, birth, m + 1) == if Passed(located, birth, m) then m + 1 else MonthAfter(located, birth, m)
  {
  }

  /**
   * The solar month of a birth (1 = 寅 month ... 12 = 丑 month): one past the
   * last month that has opened, and 1 when none has.
   */
  function JeolgiMonth(located: seq<Option<Instant>>, birth: Instant): (jm: int)
    requires |located| == 12
    ensures 1 <= jm <= 12
    ensures jm >= 2 ==> Passed(located, birth, jm - 1)
    ensures forall k :: jm <= k < 12 ==> !Passed(located, birth, k)
  {
    MonthAfter(located, birth, 12)
  }

  /** Only the last sectional term is named 소한. */
  lemma SohanIsLast(m: int)
    requires 0 <= m < 12
    ensures SectionalTerms[m] == Sohan <==> m == 11
  {
    if m < 11 {
      assert SectionalTerms[m][0] != Sohan[0] || SectionalTerms[m][1] != Sohan[1];
    }
  }

  /** The years the scan's `find` accepts for term m, as the source writes the condition. */
  function ScanYears(m: int, solYear: int, sajuYear: int): set<int>
    requires 0 <= m < 12
  {
    if SectionalTerms[m] == Sohan then {solYear, solYear + 1} else {sajuYear + if m < 11 then 0 else 1}
  }

  /** The scan's lookup of term m finds the opening `MonthOpeningsAsWritten` records for it. */
  lemma ScanFindsOpening(all: seq<JeolgiInfo>, solYear: int, sajuYear: int, m: int)
    requires 0 <= m < 12
    ensures MonthOpeningsAsWritten(all, solYear, sajuYear)[m]
            == TermInstant(all, FindTerm(all, SectionalTerms[m], ScanYears(m, solYear, sajuYear)))
  {
    SohanIsLast(m);
    if m < 11 {
      assert MonthOpeningsAsWritten(all, solYear, sajuYear)[m] == MonthOpenings(all, sajuYear)[..11][m];
    }
  }

  /**
   * The scan of `calculateSaju`: for each sectional term in turn, find its
   * record and move the month on when the birth is at or after it. 소한 is
   * looked up in the birth's solar year or the year after, as the source does.
   */
  method ScanJeolgiMonth(all: seq<JeolgiInfo>, solYear: int, sajuYear: int, birth: Instant) returns (jm: int)
    ensures jm == JeolgiMonth(MonthOpeningsAsWritten(all, solYear, sajuYear), birth)
  {
    ghost var located := MonthOpeningsAsWritten(all, solYear, sajuYear);
    jm := 1;
    var m := 0;
    while m < |SectionalTerms|
      invariant 0 <= m <= 12
      invariant jm == MonthAfter(located, birth, m)
    {
      ScanFindsOpening(all, solYear, sajuYear, m);
      MonthAfterStep(located, birth, m);
      var found := FindTerm(all, SectionalTerms[m], ScanYears(m, solYear, sajuYear));
      if found != -1 {
        var opening := JeolgiToInstant(all[found]);
        if AtOrBefore(opening, birth) {
          jm := m + 1;
        }
      }
      m := m + 1;
    }
  }

  /** The openings come in calendar order. */
  predicate Chronological(located: seq<Option<Instant>>) {
    forall i, j :: 0 <= i < j < |located| && located[i].Some? && located[j].Some? ==>
      Before(located[i].value, located[j].value)
  }

  /**
   * With openings in calendar order, the month found is the one the birth lies
   * in: every known opening before the month's own has passed, and no later one.
   */
  lemma JeolgiMonthIsCurrent(located: seq<Option<Instant>>, birth: Instant)
    requires |located| == 12 && Chronological(located)
    ensures var jm := JeolgiMonth(located, birth);
            (forall k :: 0 <= k < jm - 1 && located[k].Some? ==> Passed(located, birth, k))
            && (forall k :: jm <= k < 12 ==> !Passed(located, birth, k))
  {
    var jm := JeolgiMonth(located, birth);
    forall k | 0 <= k < jm - 1 && located[k].Some?
      ensures Passed(located, birth, k)
    {
      var t, u := located[k].value, located[jm - 1].value;
      assert Before(t, u);
      if u != birth {
        BeforeTransitive(t, u, birth);
      }
    }
  }

  /**
   * With the corrected lookup, a birth in the calendar year of its Four
   * Pillars year is never in the 丑 month: that month opens in the next year.
   */
  lemma SohanOpensNextYear(all: seq<JeolgiInfo>, sajuYear: int, birth: Instant)
    requires birth.year == sajuYear
    ensures JeolgiMonth(MonthOpenings(all, sajuYear), birth) <= 11
  {
    var located := MonthOpenings(all, sajuYear);
    assert !Passed(located, birth, 11);
  }

  /**
   * The lookup as written: once the 소한 it finds (possibly the one of the
   * birth's own January) has passed, the scan ends in month 12.
   */
  lemma AsWrittenSohanCaptures(all: seq<JeolgiInfo>, solYear: int, sajuYear: int, birth: Instant)
    requires FindTerm(all, Sohan, {solYear, solYear + 1}) != -1
    requires AtOrBefore(JeolgiToInstant(all[FindTerm(all, Sohan, {solYear, solYear + 1})]), birth)
    ensures JeolgiMonth(MonthOpeningsAsWritten(all, solYear, sajuYear), birth) == 12
  {
    var located := MonthOpeningsAsWritten(all, solYear, sajuYear);
    assert Passed(located, birth, 11);
  }

  /** Three of the records the provider returns for 1990 (clock times illustrative). */
  function Records1990(): seq<JeolgiInfo> {
    [JeolgiInfo(19900105, Kst(23, 33), Sohan),
     JeolgiInfo(19900204, Kst(11, 14), Ipchun),
     JeolgiInfo(19900506, Kst(3, 35), "입하")]
  }

  /**
   * A birth at noon on 15 May 1990: its Four Pillars year is 1990 and it lies
   * in the 巳 month (4), after 입하; the lookup as written puts it in month 12.
   */
  lemma May1990()
    ensures SajuYear(Records1990(), 1990, Instant(1990, 5, 15, 12, 0)) == 1990
    ensures JeolgiMonth(MonthOpenings(Records1990(), 1990), Instant(1990, 5, 15, 12, 0)) == 4
    ensures JeolgiMonth(MonthOpeningsAsWritten(Records1990(), 1990, 1990), Instant(1990, 5, 15, 12, 0)) == 12
  {
    var all, birth := Records1990(), Instant(1990, 5, 15, 12, 0);
    assert FindTerm(all, Ipchun, {1990}) == 1;
    var located := MonthOpenings(all, 1990);
    assert located[3] == Some(Instant(1990, 5, 6, 3, 35));
    assert Passed(located, birth, 3);
    forall k | 3 < k < 12
      ensures !Passed(located, birth, k)
    {
      assert FindTerm(all, SectionalTerms[k], {TermYear(k, 1990)}) == -1;
    }
    assert FindTerm(all, Sohan, {1990, 1991}) == 0;
    AsWrittenSohanCaptures(all, 1990, 1990, birth);
  }
}
