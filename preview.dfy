/**
 * The storage mapping of the preview endpoint: a computed chart flattened
 * into one row of the chart table (`sajuResultToDb`) and a stored row read
 * back into a chart (`dbToSajuResult`).
 *
 * The six hour-pillar columns are nullable; every other column is not.
 */
module Preview {
  import opened Wrappers
  import opened Tables
  import opened Pillars
  import opened Saju

  /** One row of the chart table. */
  datatype ChartRow = ChartRow(
    personId: string, solarDate: string, lunarDate: string, sajuYear: int,
    yearGan: string, yearJi: string, yearGanKr: string, yearJiKr: string, yearOhangGan: string, yearOhangJi: string,
    monthGan: string, monthJi: string, monthGanKr: string, monthJiKr: string, monthOhangGan: string, monthOhangJi: string,
    dayGan: string, dayJi: string, dayGanKr: string, dayJiKr: string, dayOhangGan: string, dayOhangJi: string,
    timeGan: Option<string>, timeJi: Option<string>, timeGanKr: Option<string>,
    timeJiKr: Option<string>, timeOhangGan: Option<string>, timeOhangJi: Option<string>,
    ohangMok: int, ohangHwa: int, ohangTo: int, ohangGeum: int, ohangSu: int)

  /** `t[k] ?? 0`: the tally entry of an element, zero when the tally has none. */
  function EntryOrZero(t: map<string, int>, k: string): (n: int)
    ensures k in t ==> n == t[k]
    ensures k !in t ==> n == 0
  {
    if k in t then t[k] else 0
  }

  /** `r.timePillar?.<field> ?? null`: one hour-pillar field, null without an hour pillar. */
  function TimeField(t: Option<Pillar>, field: Pillar -> string): (c: Option<string>)
    ensures c.Some? <==> t.Some?
    ensures t.Some? ==> c.value == field(t.value)
  {
    if t.Some? then Some(field(t.value)) else None
  }

  /** `sajuResultToDb`: the chart of person `personId` as a row. */
  function SajuResultToDb(personId: string, r: SajuResult): (m: ChartRow)
    ensures m.personId == personId && m.sajuYear == r.sajuYear
    ensures m.solarDate == r.solarDate && m.lunarDate == r.lunarDate
    ensures YearColumns(m) == r.yearPillar && MonthColumns(m) == r.monthPillar && DayColumns(m) == r.dayPillar
    ensures r.timePillar.None? ==>
              m.timeGan.None? && m.timeJi.None? && m.timeGanKr.None? && m.timeJiKr.None?
              && m.timeOhangGan.None? && m.timeOhangJi.None?
    ensures r.timePillar.Some? ==>
              var t := r.timePillar.value;
              m.timeGan == Some(t.gan) && m.timeJi == Some(t.ji) && m.timeGanKr == Some(t.ganKr)
              && m.timeJiKr == Some(t.jiKr) && m.timeOhangGan == Some(t.ohangGan) && m.timeOhangJi == Some(t.ohangJi)
    ensures m.ohangMok == EntryOrZero(r.ohang, Wood) && m.ohangHwa == EntryOrZero(r.ohang, Fire)
            && m.ohangTo == EntryOrZero(r.ohang, Earth) && m.ohangGeum == EntryOrZero(r.ohang, Metal)
            && m.ohangSu == EntryOrZero(r.ohang, Water)
  {
    var y, mo, d, t := r.yearPillar, r.monthPillar, r.dayPillar, r.timePillar;
    ChartRow(
      personId, r.solarDate, r.lunarDate, r.sajuYear,
      y.gan, y.ji, y.ganKr, y.jiKr, y.ohangGan, y.ohangJi,
      mo.gan, mo.ji, mo.ganKr, mo.jiKr, mo.ohangGan, mo.ohangJi,
      d.gan, d.ji, d.ganKr, d.jiKr, d.ohangGan, d.ohangJi,
      TimeField(t, (p: Pillar) => p.gan), TimeField(t, (p: Pillar) => p.ji), TimeField(t, (p: Pillar) => p.ganKr),
      TimeField(t, (p: Pillar) => p.jiKr), TimeField(t, (p: Pillar) => p.ohangGan), TimeField(t, (p: Pillar) => p.ohangJi),
      EntryOrZero(r.ohang, Wood), EntryOrZero(r.ohang, Fire), EntryOrZero(r.ohang, Earth),
      EntryOrZero(r.ohang, Metal), EntryOrZero(r.ohang, Water))
  }

  /** The six year-pillar columns as a pillar. */
  function YearColumns(m: ChartRow): Pillar {
    Pillar(m.yearGan, m.yearJi, m.yearGanKr, m.yearJiKr, m.yearOhangGan, m.yearOhangJi)
  }

  /** The six month-pillar columns as a pillar. */
  function MonthColumns(m: ChartRow): Pillar {
    Pillar(m.monthGan, m.monthJi, m.monthGanKr, m.monthJiKr, m.monthOhangGan, m.monthOhangJi)
  }

  /** The six day-pillar columns as a pillar. */
  function DayColumns(m: ChartRow): Pillar {
    Pillar(m.dayGan, m.dayJi, m.dayGanKr, m.dayJiKr, m.dayOhangGan, m.dayOhangJi)
  }

  /** `m.timeGan ? ... : null`: a stored hour stem that is null or empty means no hour pillar. */
  predicate HasTimePillar(m: ChartRow) {
    m.timeGan.Some? && m.timeGan.value != ""
  }

  /** `dbToSajuResult`: a stored row as a chart; the person it belongs to is not part of it. */
  function DbToSajuResult(m: ChartRow): (r: SajuResult)
    ensures r.sajuYear == m.sajuYear && r.solarDate == m.solarDate && r.lunarDate == m.lunarDate
    ensures r.yearPillar == YearColumns(m) && r.monthPillar == MonthColumns(m) && r.dayPillar == DayColumns(m)
    ensures r.timePillar.Some? <==> HasTimePillar(m)
    ensures HasTimePillar(m) ==>
              r.timePillar.value == Pillar(m.timeGan.value, m.timeJi.GetOr(""), m.timeGanKr.GetOr(""),
                                           m.timeJiKr.GetOr(""), m.timeOhangGan.GetOr(""), m.timeOhangJi.GetOr(""))
    ensures r.ohang.Keys == ElementSet
    ensures r.ohang[Wood] == m.ohangMok && r.ohang[Fire] == m.ohangHwa && r.ohang[Earth] == m.ohangTo
            && r.ohang[Metal] == m.ohangGeum && r.ohang[Water] == m.ohangSu
  {
    var timePillar :=
      if HasTimePillar(m) then
        Some(Pillar(m.timeGan.value, m.timeJi.GetOr(""), m.timeGanKr.GetOr(""),
                    m.timeJiKr.GetOr(""), m.timeOhangGan.GetOr(""), m.timeOhangJi.GetOr("")))
      else None;
    SajuResult(
      YearColumns(m), MonthColumns(m), DayColumns(m),
      timePillar,
      map[Wood := m.ohangMok, Fire := m.ohangHwa, Earth := m.ohangTo, Metal := m.ohangGeum, Water := m.ohangSu],
      m.solarDate, m.lunarDate, m.sajuYear)
  }

  /**
   * A chart survives storage exactly when its tally has the five elements as
   * its keys and its hour pillar, if any, has a non-empty stem.
   */
  lemma StoredChartReadsBack(personId: string, r: SajuResult)
    ensures DbToSajuResult(SajuResultToDb(personId, r)) == r
            <==> r.ohang.Keys == ElementSet && (r.timePillar.Some? ==> r.timePillar.value.gan != "")
  {
    var back := DbToSajuResult(SajuResultToDb(personId, r));
    if r.ohang.Keys == ElementSet && (r.timePillar.Some? ==> r.timePillar.value.gan != "") {
      assert back.ohang == r.ohang;
      assert back.timePillar == r.timePillar;
    }
  }

  /**
   * Whatever the chart, storing it and reading it back keeps its three
   * mandatory pillars, its dates and its year, keeps an hour pillar with a
   * non-empty stem, and gives each element its tally entry or 0.
   */
  lemma StoredPillarsReadBack(personId: string, r: SajuResult)
    ensures var back := DbToSajuResult(SajuResultToDb(personId, r));
            back.yearPillar == r.yearPillar && back.monthPillar == r.monthPillar && back.dayPillar == r.dayPillar
            && back.solarDate == r.solarDate && back.lunarDate == r.lunarDate && back.sajuYear == r.sajuYear
            && (r.timePillar.Some? && r.timePillar.value.gan != "" ==> back.timePillar == r.timePillar)
            && (r.timePillar.None? ==> back.timePillar.None?)
            && forall e :: e in ElementSet ==> back.ohang[e] == EntryOrZero(r.ohang, e)
  {
  }

  /** The person a row belongs to has no part in the chart read from it. */
  lemma PersonIgnored(m: ChartRow, personId: string)
    ensures DbToSajuResult(m.(personId := personId)) == DbToSajuResult(m)
  {
  }

  /** The six hour-pillar columns are all null, or the hour stem is non-empty and all six are set. */
  predicate TimeColumnsAgree(m: ChartRow) {
    if HasTimePillar(m) then
      m.timeJi.Some? && m.timeGanKr.Some? && m.timeJiKr.Some? && m.timeOhangGan.Some? && m.timeOhangJi.Some?
    else
      m.timeGan.None? && m.timeJi.None? && m.timeGanKr.None? && m.timeJiKr.None?
      && m.timeOhangGan.None? && m.timeOhangJi.None?
  }

  /** A row reads back into a chart that is stored as the same row exactly when its hour columns agree. */
  lemma RowReadsBack(m: ChartRow)
    ensures SajuResultToDb(m.personId, DbToSajuResult(m)) == m <==> TimeColumnsAgree(m)
  {
  }

  /** Every chart the engine computes is stored and read back unchanged. */
  lemma ComputedChartReadsBack(input: SajuInput, cal: Provider, personId: string)
    requires Admissible(input) && Saju.Saju(input, cal).Ok?
    ensures DbToSajuResult(SajuResultToDb(personId, Saju.Saju(input, cal).value)) == Saju.Saju(input, cal).value
  {
    var r := Saju.Saju(input, cal).value;
    PillarsOfResult(input, cal);
    TallyOfResult(input, cal);
    if r.timePillar.Some? {
      IndexRanges(r.timePillar.value);
    }
    StoredChartReadsBack(personId, r);
  }
}
