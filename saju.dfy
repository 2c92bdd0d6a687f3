/**
 * `calculateSaju`: from a birth date, an optional birth time and a calendar
 * type to the four pillars, the element tally and the dates the engine
 * reports. The calendar provider is a parameter: three lookups, each of
 * which either answers or fails.
 *
 * `Saju` is the computation as a function; `CalculateSaju` is the step by
 * step procedure of the source, proved to compute the same result.
 */
module Saju {
  import opened Wrappers
  import opened Tables
  import opened Calendar
  import opened Ganji
  import opened Pillars
  import opened Terms

  /** What a solar-to-lunar lookup yields that the engine uses: the lunar date and the day token. */
  datatype LunarInfo = LunarInfo(lunYear: int, lunMonth: int, lunDay: int, lunIljin: string)

  /**
   * The calendar provider: solar to lunar, lunar to solar (with the leap-month
   * flag) and the solar-term records of a year.
   */
  datatype Provider = Provider(
    solarToLunar: (int, int, int) -> Result<LunarInfo>,
    lunarToSolar: (int, int, int, bool) -> Result<Date>,
    divisions: int -> Result<seq<JeolgiInfo>>)

  /** The engine's input; an absent birth time is the empty string. */
  datatype SajuInput = SajuInput(birthDate: string, birthTime: string, calendarType: string, gender: string)

  datatype SajuResult = SajuResult(
    yearPillar: Pillar, monthPillar: Pillar, dayPillar: Pillar, timePillar: Option<Pillar>,
    ohang: map<string, int>, solarDate: string, lunarDate: string, sajuYear: int)

  /** The lunar calendar type; every other value means solar. */
  const Lunar: string := "음력"

  /**
   * The inputs this model gives a meaning to: a "YYYY-MM-DD" birth date, which
   * is a real calendar date when it is solar, and a birth time that is absent
   * or names an hour from 0 to 23.
   */
  predicate Admissible(input: SajuInput) {
    ParseDateString(input.birthDate).Some?
    && (input.calendarType != Lunar ==> ValidDate(ParseDateString(input.birthDate).value))
    && match BirthHour(input.birthTime)
       case Unknown => true
       case At(h) => h <= 23
       case NotANumber => false
  }

  /** The birth hour, when the time names one. */
  function HourOf(input: SajuInput): Option<nat> {
    match BirthHour(input.birthTime)
    case At(h) => Some(h)
    case _ => None
  }

  /** The part of the input the calculation reads: the date as entered, the hour and the calendar type. */
  datatype Birth = Birth(date: Date, hour: Option<nat>, lunar: bool)

  /** Steps 1 and 3 of the source: the birth date split into numbers, and the birth hour. */
  function BirthOf(input: SajuInput): (b: Birth)
    requires Admissible(input)
    ensures ParseDateString(input.birthDate) == Some(b.date)
    ensures b.hour.Some? <==> BirthHour(input.birthTime).At?
    ensures b.hour.Some? ==> b.hour.value == BirthHour(input.birthTime).hour <= 23
    ensures b.lunar <==> input.calendarType == Lunar
  {
    Birth(ParseDateString(input.birthDate).value, HourOf(input), input.calendarType == Lunar)
  }

  /** A birth from 23:00 on: its day pillar is that of the next calendar day. */
  predicate IsNight(b: Birth) {
    b.hour.Some? && b.hour.value >= 23
  }

  /** The solar birth date: the entered date, or its conversion when it is lunar. */
  function SolarDate(b: Birth, cal: Provider): Result<Date> {
    if b.lunar then cal.lunarToSolar(b.date.year, b.date.month, b.date.day, false) else Ok(b.date)
  }

  /** Everything the provider supplies for one birth. */
  datatype Fetched = Fetched(sol: Date, lunarInfo: LunarInfo, dayInfo: LunarInfo, terms: seq<JeolgiInfo>)

  /**
   * The provider lookups, the first failure ending the calculation: the lunar
   * record of the solar date, that of the next day for a night birth, this
   * year's terms, and last year's terms for a birth in January or February.
   */
  function Fetch(b: Birth, cal: Provider): Result<Fetched> {
    var sol :- SolarDate(b, cal);
    var lunarInfo :- cal.solarToLunar(sol.year, sol.month, sol.day);
    var next := NextDay(sol);
    var dayInfo :- if IsNight(b) then cal.solarToLunar(next.year, next.month, next.day) else Ok(lunarInfo);
    var current :- cal.divisions(sol.year);
    var previous :- if sol.month <= 2 then cal.divisions(sol.year - 1) else Ok([]);
    Ok(Fetched(sol, lunarInfo, dayInfo, previous + current))
  }

  /** The birth instant the terms are compared with: noon when the hour is unknown. */
  function BirthInstant(sol: Date, hour: Option<nat>): Instant {
    Instant(sol.year, sol.month, sol.day, if hour.Some? then hour.value else 12, 0)
  }

  /**
   * The day pillar's stem and branch indices from the day token; a token with
   * no stem/branch pair fails, reporting the token of the birth date itself.
   */
  function DayIndices(token: string, reported: string): (r: Result<(int, int)>)
    ensures DecodeDayToken(token).None? <==> r == Err(DayPillarDecode(reported))
    ensures DecodeDayToken(token).Some? ==>
              var g := DecodeDayToken(token).value;
              (r.Ok? <==> g.gan in Stems && g.ji in Branches)
              && (r.Err? ==> r == Err(UnknownDayGlyph(g.gan, g.ji)))
              && (r.Ok? ==> 0 <= r.value.0 < 10 && Stems[r.value.0] == g.gan
                            && 0 <= r.value.1 < 12 && Branches[r.value.1] == g.ji)
  {
    match DecodeDayToken(token)
    case None => Err(DayPillarDecode(reported))
    case Some(g) =>
      var s, b := StemPosition(g.gan), BranchPosition(g.ji);
      if s < 0 || b < 0 then Err(UnknownDayGlyph(g.gan, g.ji)) else Ok((s, b))
  }

  /** The reported lunar date: the entered date when it is lunar, else the provider's lunar date. */
  function LunarDateOf(b: Birth, f: Fetched): string {
    if b.lunar then DateString(b.date)
    else DateString(Date(f.lunarInfo.lunYear, f.lunarInfo.lunMonth, f.lunarInfo.lunDay))
  }

  /** The year pillar: the Four Pillars year's place in the sixty-year cycle, as stem and branch. */
  function YearPillar(sajuYear: int): (p: Pillar)
    ensures WellFormed(p) && Sexagenary(p)
    ensures StemIndex(p) == YearCycleIndex(sajuYear) % 10 && BranchIndex(p) == YearCycleIndex(sajuYear) % 12
  {
    var cycle := YearCycleIndex(sajuYear);
    var stem, branch := cycle % 10, cycle % 12;
    EvenModulus(cycle, 10);
    EvenModulus(cycle, 12);
    SmallRemainder(stem, 10);
    SmallRemainder(branch, 12);
    MakePillar(stem, branch)
  }

  /** The month pillar of solar month `month` in a year whose stem index is `yearStem`. */
  function MonthPillar(yearStem: int, month: int): (p: Pillar)
    requires 0 <= yearStem && 1 <= month <= 12
    ensures WellFormed(p) && Sexagenary(p)
    ensures BranchIndex(p) == MonthBranch(month) && StemIndex(p) == MonthStem(yearStem, month)
  {
    var stem, branch := MonthStem(yearStem, month), MonthBranch(month);
    SmallRemainder(stem, 10);
    SmallRemainder(branch, 12);
    MakePillar(stem, branch)
  }

  /** The hour pillar of a clock hour on a day whose stem index is `dayStem`. */
  function HourPillar(dayStem: int, hour: int): (p: Pillar)
    requires 0 <= dayStem
    ensures WellFormed(p) && Sexagenary(p)
    ensures BranchIndex(p) == HourBranch(hour) && StemIndex(p) == HourStem(dayStem, HourBranch(hour))
  {
    var stem, branch := HourStem(dayStem, HourBranch(hour)), HourBranch(hour);
    SmallRemainder(stem, 10);
    SmallRemainder(branch, 12);
    MakePillar(stem, branch)
  }

  /**
   * The four pillars and the tally, from the Four Pillars year, the solar
   * month, the day's stem and branch indices and the birth hour.
   */
  function Chart(sajuYear: int, month: int, dayStem: int, dayBranch: int, hour: Option<nat>,
                 solarDate: string, lunarDate: string): (r: SajuResult)
    requires 1 <= month <= 12 && 0 <= dayStem < 10 && 0 <= dayBranch < 12
    ensures r.sajuYear == sajuYear && r.solarDate == solarDate && r.lunarDate == lunarDate
    ensures r.yearPillar == YearPillar(sajuYear)
    ensures r.monthPillar == MonthPillar(StemIndex(r.yearPillar), month)
    ensures WellFormed(r.dayPillar) && StemIndex(r.dayPillar) == dayStem && BranchIndex(r.dayPillar) == dayBranch
    ensures r.timePillar.Some? <==> hour.Some?
    ensures hour.Some? ==> r.timePillar.value == HourPillar(dayStem, hour.value)
    ensures r.ohang == Tally([Some(r.yearPillar), Some(r.monthPillar), Some(r.dayPillar), r.timePillar])
    ensures r.ohang.Keys == ElementSet && ElementSum(r.ohang) == if hour.Some? then 8 else 6
    ensures forall e :: e in r.ohang ==> 0 <= r.ohang[e] <= 8
  {
    var yearPillar := YearPillar(sajuYear);
    var monthPillar := MonthPillar(StemIndex(yearPillar), month);
    SmallRemainder(dayStem, 10);
    SmallRemainder(dayBranch, 12);
    var dayPillar := MakePillar(dayStem, dayBranch);
    var timePillar := if hour.Some? then Some(HourPillar(dayStem, hour.value)) else None;
    FourPillarsTally(yearPillar, monthPillar, dayPillar, timePillar);
    SajuResult(yearPillar, monthPillar, dayPillar, timePillar,
               Tally([Some(yearPillar), Some(monthPillar), Some(dayPillar), timePillar]), solarDate, lunarDate, sajuYear)
  }

  /**
   * Where the month scan looks 소한 up: in the birth's solar year or the year
   * after, as the source does, or in the year after the Four Pillars year.
   */
  datatype SohanLookup = AsWritten | Corrected

  /** The month openings of a birth under the given 소한 lookup. */
  function Openings(terms: seq<JeolgiInfo>, solYear: int, sajuYear: int, lookup: SohanLookup): seq<Option<Instant>> {
    match lookup
    case AsWritten => MonthOpeningsAsWritten(terms, solYear, sajuYear)
    case Corrected => MonthOpenings(terms, sajuYear)
  }

  /** The calculation from the birth and what the provider supplied. */
  function Assemble(b: Birth, f: Fetched, lookup: SohanLookup): Result<SajuResult> {
    var hour := b.hour;
    var birth := BirthInstant(f.sol, hour);
    var day :- DayIndices(f.dayInfo.lunIljin, f.lunarInfo.lunIljin);
    var sajuYear := SajuYear(f.terms, f.sol.year, birth);
    var month := JeolgiMonth(Openings(f.terms, f.sol.year, sajuYear, lookup), birth);
    Ok(Chart(sajuYear, month, day.0, day.1, hour, DateString(f.sol), LunarDateOf(b, f)))
  }

  /** The whole calculation, as the source performs it. */
  function Saju(input: SajuInput, cal: Provider): Result<SajuResult>
    requires Admissible(input)
  {
    var b := BirthOf(input);
    var f :- Fetch(b, cal);
    Assemble(b, f, AsWritten)
  }

  /** The whole calculation with 소한 looked up in the year after the Four Pillars year. */
  function SajuCorrected(input: SajuInput, cal: Provider): Result<SajuResult>
    requires Admissible(input)
  {
    var b := BirthOf(input);
    var f :- Fetch(b, cal);
    Assemble(b, f, Corrected)
  }

  /**
   * Steps 2, 4 and 6 of `calculateSaju`: the lunar-to-solar conversion, the
   * day used for the day pillar, and the provider lookups.
   */
  method FetchRecords(b: Birth, cal: Provider) returns (r: Result<Fetched>)
    ensures r == Fetch(b, cal)
  {
    var sol := b.date;
    if b.lunar {
      var converted := cal.lunarToSolar(b.date.year, b.date.month, b.date.day, false);
      if converted.Err? {
        return Err(converted.error);
      }
      sol := converted.value;
    }
    var night := b.hour.Some? && b.hour.value >= 23;
    var ilDate := if night then NextDay(sol) else sol;
    var lunarInfo := cal.solarToLunar(sol.year, sol.month, sol.day);
    if lunarInfo.Err? {
      return Err(lunarInfo.error);
    }
    var dayInfo := lunarInfo;
    if night {
      dayInfo := cal.solarToLunar(ilDate.year, ilDate.month, ilDate.day);
      if dayInfo.Err? {
        return Err(dayInfo.error);
      }
    }
    var current := cal.divisions(sol.year);
    if current.Err? {
      return Err(current.error);
    }
    var previous: Result<seq<JeolgiInfo>> := Ok([]);
    if sol.month <= 2 {
      previous := cal.divisions(sol.year - 1);
      if previous.Err? {
        return Err(previous.error);
      }
    }
    r := Ok(Fetched(sol, lunarInfo.value, dayInfo.value, previous.value + current.value));
  }

  /** Step 7 of `calculateSaju`: the day token decoded and its glyphs looked up in the tables. */
  method DayPillarIndices(token: string, reported: string) returns (r: Result<(int, int)>)
    ensures r == DayIndices(token, reported)
  {
    var ilGanji := ParseGanji(token);
    if ilGanji.None? {
      return Err(DayPillarDecode(reported));
    }
    var ilGan := StemPosition(ilGanji.value.gan);
    var ilJi := BranchPosition(ilGanji.value.ji);
    if ilGan < 0 || ilJi < 0 {
      return Err(UnknownDayGlyph(ilGanji.value.gan, ilGanji.value.ji));
    }
    r := Ok((ilGan, ilJi));
  }

  /** `calculateSaju`, step by step as the source runs it. */
  method CalculateSaju(input: SajuInput, cal: Provider) returns (r: Result<SajuResult>)
    requires Admissible(input)
    ensures r == Saju(input, cal)
  {
    // 1. the birth date
    var entered := ParseDateString(input.birthDate).value;
    // 3. the birth hour
    var hour: Option<nat> := None;
    var parsed := BirthHour(input.birthTime);
    if parsed.At? {
      hour := Some(parsed.hour);
    }
    var given := Birth(entered, hour, input.calendarType == Lunar);
    assert given == BirthOf(input);
    // 2, 4, 6. the solar date and the provider lookups
    var fetched := FetchRecords(given, cal);
    if fetched.Err? {
      return Err(fetched.error);
    }
    r := AssembleRecords(given, fetched.value);
  }

  /** Steps 5 and 7 to 11 of `calculateSaju`: the dates reported, and the pillars and the tally. */
  method AssembleRecords(given: Birth, f: Fetched) returns (r: Result<SajuResult>)
    ensures r == Assemble(given, f, AsWritten)
  {
    var hour, sol := given.hour, f.sol;
    var lunarDate := if given.lunar then DateString(given.date) else "";
    if lunarDate == "" {
      lunarDate := DateString(Date(f.lunarInfo.lunYear, f.lunarInfo.lunMonth, f.lunarInfo.lunDay));
    }
    var solarDate := DateString(sol);
    // 5. the birth instant
    var birth := Instant(sol.year, sol.month, sol.day, if hour.Some? then hour.value else 12, 0);
    // 7. the day pillar's indices
    var day := DayPillarIndices(f.dayInfo.lunIljin, f.lunarInfo.lunIljin);
    if day.Err? {
      return Err(day.error);
    }
    // 8. the Four Pillars year
    var sajuYear := SajuYear(f.terms, sol.year, birth);
    // 9. the solar month
    var jeolgiMonth := ScanJeolgiMonth(f.terms, sol.year, sajuYear, birth);
    var chart := BuildChart(sajuYear, jeolgiMonth, day.value.0, day.value.1, hour, solarDate, lunarDate);
    r := Ok(chart);
  }

  /** Steps 7 to 11 of `calculateSaju` once the indices are known: the four pillars and the tally. */
  method BuildChart(sajuYear: int, jeolgiMonth: int, ilGan: int, ilJi: int, hour: Option<nat>,
                    solarDate: string, lunarDate: string) returns (r: SajuResult)
    requires 1 <= jeolgiMonth <= 12 && 0 <= ilGan < 10 && 0 <= ilJi < 12
    ensures r == Chart(sajuYear, jeolgiMonth, ilGan, ilJi, hour, solarDate, lunarDate)
  {
    var dayPillar := MakePillar(ilGan, ilJi);
    var yearGapja := JsRem60(JsRem60(sajuYear - 4) + 60);
    var yearGan := yearGapja % 10;
    var yearPillar := MakePillar(yearGan, yearGapja % 12);
    assert yearPillar == YearPillar(sajuYear);
    var monthPillar := MakePillar(MonthStem(yearGan, jeolgiMonth), MonthBranch(jeolgiMonth));
    SmallRemainder(yearGan, 10);
    assert monthPillar == MonthPillar(StemIndex(yearPillar), jeolgiMonth);
    var timePillar: Option<Pillar> := None;
    if hour.Some? {
      var shiJi := HourBranch(hour.value);
      timePillar := Some(MakePillar(HourStem(ilGan, shiJi), shiJi));
    }
    FourPillarsTally(yearPillar, monthPillar, dayPillar, timePillar);
    var ohang := CountOhang([Some(yearPillar), Some(monthPillar), Some(dayPillar), timePillar]);
    r := SajuResult(yearPillar, monthPillar, dayPillar, timePillar, ohang, solarDate, lunarDate, sajuYear);
  }

  // ---------------------------------------------------------------- properties

  /**
   * For a night birth the day pillar comes from the next day's lunar record;
   * otherwise from the birth date's own.
   */
  lemma NightBirthUsesNextDay(b: Birth, cal: Provider)
    requires Fetch(b, cal).Ok?
    ensures var f := Fetch(b, cal).value;
            var next := NextDay(f.sol);
            f.sol == SolarDate(b, cal).value
            && f.lunarInfo == cal.solarToLunar(f.sol.year, f.sol.month, f.sol.day).value
            && (IsNight(b) ==> f.dayInfo == cal.solarToLunar(next.year, next.month, next.day).value)
            && (!IsNight(b) ==> f.dayInfo == f.lunarInfo)
  {
  }

  /**
   * The term records are this year's, preceded by last year's for a birth in
   * January or February and by nothing otherwise.
   */
  lemma FetchedTerms(b: Birth, cal: Provider)
    requires Fetch(b, cal).Ok?
    ensures var f := Fetch(b, cal).value;
            cal.divisions(f.sol.year).Ok? && (f.sol.month <= 2 ==> cal.divisions(f.sol.year - 1).Ok?)
            && f.terms == (if f.sol.month <= 2 then cal.divisions(f.sol.year - 1).value else [])
                          + cal.divisions(f.sol.year).value
  {
  }

  /** A failing lookup ends the calculation with that lookup's failure. */
  lemma ProviderFailurePropagates(input: SajuInput, cal: Provider)
    requires Admissible(input) && Fetch(BirthOf(input), cal).Err?
    ensures Saju(input, cal) == Err(Fetch(BirthOf(input), cal).error)
  {
  }

  /** A day token with no stem/branch pair fails the calculation, reporting the birth date's token. */
  lemma UndecodableDayToken(input: SajuInput, cal: Provider)
    requires Admissible(input) && Fetch(BirthOf(input), cal).Ok?
    requires DecodeDayToken(Fetch(BirthOf(input), cal).value.dayInfo.lunIljin).None?
    ensures Saju(input, cal) == Err(DayPillarDecode(Fetch(BirthOf(input), cal).value.lunarInfo.lunIljin))
  {
  }

  /**
   * The Four Pillars year is the solar year of the birth or the year before,
   * and the year pillar is that year's place in the sixty-year cycle.
   */
  lemma YearPillarOfResult(input: SajuInput, cal: Provider)
    requires Admissible(input) && Saju(input, cal).Ok?
    ensures var r, sol := Saju(input, cal).value, Fetch(BirthOf(input), cal).value.sol;
            (r.sajuYear == sol.year || r.sajuYear == sol.year - 1)
            && StemIndex(r.yearPillar) == YearCycleIndex(r.sajuYear) % 10
            && BranchIndex(r.yearPillar) == YearCycleIndex(r.sajuYear) % 12
  {
  }

  /**
   * Every pillar is well formed, and the year, month and hour pillars are
   * among the sixty stem-branch pairs of the cycle.
   */
  lemma PillarsOfResult(input: SajuInput, cal: Provider)
    requires Admissible(input) && Saju(input, cal).Ok?
    ensures var r := Saju(input, cal).value;
            WellFormed(r.yearPillar) && WellFormed(r.monthPillar) && WellFormed(r.dayPillar)
            && Sexagenary(r.yearPillar) && Sexagenary(r.monthPillar)
            && (r.timePillar.Some? ==> WellFormed(r.timePillar.value) && Sexagenary(r.timePillar.value))
  {
  }

  /** There is an hour pillar exactly when the birth time names an hour, and it is that hour's. */
  lemma TimePillarOfResult(input: SajuInput, cal: Provider)
    requires Admissible(input) && Saju(input, cal).Ok?
    ensures var r := Saju(input, cal).value;
            (r.timePillar.Some? <==> BirthHour(input.birthTime).At?)
            && (r.timePillar.Some? ==>
                  var h := BirthHour(input.birthTime).hour;
                  BranchIndex(r.timePillar.value) == HourBranch(h)
                  && StemIndex(r.timePillar.value) == HourStem(StemIndex(r.dayPillar), HourBranch(h)))
  {
  }

  /**
   * The tally counts each element over the four pillars: its entries are the
   * five elements, each from 0 to 8, adding up to 8, or 6 without an hour.
   */
  lemma TallyOfResult(input: SajuInput, cal: Provider)
    requires Admissible(input) && Saju(input, cal).Ok?
    ensures var r := Saju(input, cal).value;
            r.ohang == Tally([Some(r.yearPillar), Some(r.monthPillar), Some(r.dayPillar), r.timePillar])
            && r.ohang.Keys == ElementSet
            && (forall e :: e in r.ohang ==> 0 <= r.ohang[e] <= 8)
            && ElementSum(r.ohang) == if r.timePillar.Some? then 8 else 6
  {
  }

  /**
   * The year and the month are found from the solar birth date itself, even
   * for a night birth whose day pillar comes from the next day, and at noon
   * when the hour is unknown.
   */
  lemma TermsUseBirthDate(input: SajuInput, cal: Provider)
    requires Admissible(input) && Saju(input, cal).Ok?
    ensures var b, f, r := BirthOf(input), Fetch(BirthOf(input), cal).value, Saju(input, cal).value;
            var birth := Instant(f.sol.year, f.sol.month, f.sol.day, b.hour.GetOr(12), 0);
            var month := JeolgiMonth(MonthOpeningsAsWritten(f.terms, f.sol.year, r.sajuYear), birth);
            r.sajuYear == SajuYear(f.terms, f.sol.year, birth)
            && BranchIndex(r.monthPillar) == MonthBranch(month)
            && StemIndex(r.monthPillar) == MonthStem(StemIndex(r.yearPillar), month)
  {
  }

  /** The birth is at or after the 소한 of its solar year or of the year after. */
  predicate SohanPassed(b: Birth, f: Fetched) {
    var k := FindTerm(f.terms, Sohan, {f.sol.year, f.sol.year + 1});
    k != -1 && AtOrBefore(JeolgiToInstant(f.terms[k]), BirthInstant(f.sol, b.hour))
  }

  /**
   * As the source looks 소한 up, a birth at or after the 소한 of its solar
   * year (or of the year after) is given the 丑 month, whatever its date.
   */
  lemma ChouMonthAsWritten(input: SajuInput, cal: Provider)
    requires Admissible(input) && Saju(input, cal).Ok? && Fetch(BirthOf(input), cal).Ok?
    requires SohanPassed(BirthOf(input), Fetch(BirthOf(input), cal).value)
    ensures BranchIndex(Saju(input, cal).value.monthPillar) == 1
  {
    var b := BirthOf(input);
    var f := Fetch(b, cal).value;
    var birth := BirthInstant(f.sol, b.hour);
    var sajuYear := SajuYear(f.terms, f.sol.year, birth);
    AsWrittenSohanCaptures(f.terms, f.sol.year, sajuYear, birth);
    assert JeolgiMonth(Openings(f.terms, f.sol.year, sajuYear, AsWritten), birth) == 12;
    assert Saju(input, cal) == Assemble(b, f, AsWritten);
  }

  /**
   * With 소한 looked up in the year after the Four Pillars year, a birth on or
   * after its year's 입춘 is never given the 丑 month: month 12 only opens in
   * the next calendar year.
   */
  lemma NoChouMonthAfterIpchun(input: SajuInput, cal: Provider)
    requires Admissible(input) && SajuCorrected(input, cal).Ok?
    requires SajuCorrected(input, cal).value.sajuYear == Fetch(BirthOf(input), cal).value.sol.year
    ensures BranchIndex(SajuCorrected(input, cal).value.monthPillar) != 1
  {
    var b := BirthOf(input);
    var f := Fetch(b, cal).value;
    var birth := BirthInstant(f.sol, b.hour);
    var sajuYear := SajuYear(f.terms, f.sol.year, birth);
    assert SajuCorrected(input, cal) == Assemble(b, f, Corrected);
    var month := JeolgiMonth(MonthOpenings(f.terms, sajuYear), birth);
    SohanOpensNextYear(f.terms, sajuYear, birth);
    assert BranchIndex(SajuCorrected(input, cal).value.monthPillar) == MonthBranch(month);
  }

  /** The reported solar date reads back as the solar birth date. */
  lemma SolarDateOfResult(input: SajuInput, cal: Provider)
    requires Admissible(input) && Saju(input, cal).Ok?
    requires var sol := Fetch(BirthOf(input), cal).value.sol; sol.year >= 0 && sol.month >= 0 && sol.day >= 0
    ensures ParseDateString(Saju(input, cal).value.solarDate) == Some(Fetch(BirthOf(input), cal).value.sol)
  {
    DateStringRoundTrip(Fetch(BirthOf(input), cal).value.sol);
  }

  /** For a lunar input, the reported lunar date is the input date, written out in full. */
  lemma LunarDateOfLunarInput(input: SajuInput, cal: Provider)
    requires Admissible(input) && Saju(input, cal).Ok? && input.calendarType == Lunar
    ensures ParseDateString(Saju(input, cal).value.lunarDate) == ParseDateString(input.birthDate)
  {
    DateStringRoundTrip(ParseDateString(input.birthDate).value);
  }

  /** The gender plays no part in the calculation. */
  lemma GenderIgnored(input: SajuInput, cal: Provider, gender: string)
    requires Admissible(input)
    ensures Admissible(input.(gender := gender))
    ensures Saju(input.(gender := gender), cal) == Saju(input, cal)
  {
    assert BirthOf(input.(gender := gender)) == BirthOf(input);
  }
}
