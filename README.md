# Four Pillars (사주) calculation engine — a Dafny model

This project models the chart engine of a Four Pillars of Destiny (사주팔자)
service. The engine takes a birth date (solar or lunar), an optional birth time
and a gender. It produces the four pillars of the birth: year, month, day and
hour. Each pillar is one of the sixty stem-branch pairs: a heavenly stem
(천간, 10 glyphs) and an earthly branch (지지, 12 glyphs), with their Korean
readings and their five-element (오행) classes. The engine also tallies the
elements over the pillars and reports the solar date, the lunar date and the
Four Pillars year.

- The year changes at the solar term 입춘, not at 1 January.
- The month changes at the twelve sectional terms.
- The day pillar comes from the day token of the calendar provider's lunar record.
- A birth from 23:00 on takes its day pillar from the next calendar day.
- The hour pillar follows the double hour and the day stem.

The calendar provider is a parameter (`Saju.Provider`). It offers three
lookups: solar to lunar, lunar to solar, and the solar terms of a year. Each
lookup either answers or fails. The engine is:

- `Saju.Saju`: a function from the input and the provider to a result;
- `Saju.CalculateSaju`: the step-by-step procedure, proved to compute the same result.

Both follow the source's month scan as written, including its lookup of the
twelfth sectional term (소한), which gives the 丑 month to births it should not
(see "## Findings"). `Saju.SajuCorrected` is the same calculation with that
lookup corrected.

The storage mapping of the preview endpoint is modelled in `Preview`: a chart
flattened into one table row, and a row read back into a chart.

Modules, one per file:

| file | module | contents |
|---|---|---|
| `wrappers.dfy` | Wrappers | `Option`, `Result` and the failures of the engine |
| `tables.dfy` | Tables | stem, branch, element and solar-term tables |
| `text.dfy` | Text | the JavaScript string operations the engine uses |
| `calendar.dfy` | Calendar | dates, instants, the next day, solar-term records, date and time text |
| `ganji.dfy` | Ganji | decoding the day token |
| `pillars.dfy` | Pillars | making a pillar, the cycle arithmetic, the element tally |
| `terms.dfy` | Terms | the Four Pillars year and the solar month |
| `saju.dfy` | Saju | the whole calculation |
| `preview.dfy` | Preview | the chart as a table row and back |

## Model

| member | source | states |
|---|---|---|
| Tables.StemsDistinct | lib/saju-calculator.ts:9 | the ten stem glyphs are pairwise distinct, so a glyph has one position |
| Tables.BranchesDistinct | lib/saju-calculator.ts:13 | the twelve branch glyphs are pairwise distinct |
| Tables.OhangTablesTotal | lib/saju-calculator.ts:17-25 | every stem and every branch glyph has an element, and that element is one of the five |
| Text.IndexOf | lib/saju-calculator.ts:188-189 | `indexOf`: -1 exactly when the glyph is absent; otherwise a position holding it with no earlier occurrence |
| Text.Split | lib/saju-calculator.ts:126 | `split` on one character: no piece contains the separator, and joining the pieces with it gives the string back |
| Text.NatToString | lib/saju-calculator.ts:181 | `String(n)` for n ≥ 0: a non-empty digit string with no leading zero |
| Text.NatToStringRoundTrip | lib/saju-calculator.ts:181 | reading back the decimal rendering of a number gives the number |
| Text.PadStart2 | lib/saju-calculator.ts:181 | `padStart(2, "0")`: the string preceded by zeros up to length two, never shortened |
| Text.PaddedRoundTrip | lib/saju-calculator.ts:181 | a zero-padded rendering still reads back as its number |
| Text.NumberField | lib/saju-calculator.ts:126 | `Number` on a date field: a value exactly when the field is a non-empty digit run |
| Text.ParseIntPrefix | lib/saju-calculator.ts:146 | `parseInt`: a value exactly when the text starts with a digit |
| Calendar.BeforeTotal | lib/saju-calculator.ts:207 | `<` on instants is irreflexive, and `!(a < b)` is the same as `b <= a` |
| Calendar.BeforeTransitive | lib/saju-calculator.ts:235 | `<` on instants is transitive |
| Calendar.DaysInMonth | lib/saju-calculator.ts:153 | month lengths: 29 exactly for February of a leap year, 28 for February otherwise, 30 for April, June, September and November |
| Calendar.NextDay | lib/saju-calculator.ts:150-153 | `solDay + 1` rolled over: a valid date goes to a valid later date |
| Calendar.NextDayIsSuccessor | lib/saju-calculator.ts:150-153 | no date lies strictly between a date and its next day |
| Calendar.NextPrevInverse | lib/saju-calculator.ts:150-153 | the next day and the previous day undo each other |
| Calendar.JeolgiToInstant | lib/saju-calculator.ts:113-120 | `jeolgiToDate`: year, month and day read back as the YYYYMMDD number; the time is `kst`, or 00:00 when it is empty |
| Calendar.LocdateRoundTrip | lib/saju-calculator.ts:113-117 | a date written as YYYYMMDD is read back field by field |
| Calendar.ParseDateString | lib/saju-calculator.ts:126 | the date fields parsed from "YYYY-MM-DD" are non-negative numbers |
| Calendar.DateStringRoundTrip | lib/saju-calculator.ts:179-181 | a date written as "YYYY-MM-DD" parses back to the same date |
| Calendar.BirthHour | lib/saju-calculator.ts:141-148 | no hour exactly when the time is empty, "모름" or has no ':'; NaN exactly when the part before ':' does not start with a digit |
| Calendar.ClockRoundTrip | lib/saju-calculator.ts:141-148 | an "HH:MM" time yields the hour it shows |
| Ganji.FirstOpenFrom | lib/saju-calculator.ts:49 | the leftmost position where `\(([^)]+)\)` matches, or -1 exactly when it matches nowhere |
| Ganji.GroupOf | lib/saju-calculator.ts:49 | the captured group is non-empty, holds no ')' and is followed by ')' |
| Ganji.FirstPairFrom | lib/saju-calculator.ts:54-58 | the index loop's answer: -1, or a position at or after the start where a stem glyph is directly followed by a branch glyph |
| Ganji.NoPairBefore | lib/saju-calculator.ts:54-58 | no stem-glyph/branch-glyph pair starts before the position the loop returns, and none at all when it returns -1 |
| Ganji.DecodeDayToken | lib/saju-calculator.ts:47-60 | a captured group of two or more characters gives its first two characters; otherwise the first adjacent stem-branch pair; no result exactly when there is neither |
| Ganji.ParseGanji | lib/saju-calculator.ts:47-60 | the match-then-scan procedure computes `DecodeDayToken` |
| Ganji.ParenthesisedPair | lib/saju-calculator.ts:49-51 | a token whose first '(' opens a group of at least two characters decodes to that group's first two characters |
| Ganji.ExampleToken | lib/saju-calculator.ts:46 | "갑자(甲子)" decodes to 甲 and 子 |
| Pillars.StemPosition | lib/saju-calculator.ts:188 | `CHEONGAN.indexOf`: -1 exactly for a non-stem; otherwise the position of the glyph |
| Pillars.BranchPosition | lib/saju-calculator.ts:189 | `JIJI.indexOf`: -1 exactly for a non-branch; otherwise the position of the glyph |
| Pillars.PositionsRoundTrip | lib/saju-calculator.ts:188-189 | looking up the glyph at any table position gives that position back |
| Pillars.MakePillar | lib/saju-calculator.ts:89-100 | `makePillar`: a well-formed pillar at stem index `gan % 10` and branch index `ji % 12`; it is one of the sixty exactly when the two indices share their parity |
| Pillars.WellFormedUnique | lib/saju-calculator.ts:89-100 | two well-formed pillars with the same indices are equal |
| Pillars.MakePillarInverse | lib/saju-calculator.ts:89-100 | every well-formed pillar is `makePillar` of its own two indices |
| Pillars.HourBranch | lib/saju-calculator.ts:34-38 | `hourToJiji`: 子 exactly for hours from 23 and below 1; any other branch b covers hours 2b-1 and 2b |
| Pillars.HourBranchWindow | lib/saju-calculator.ts:34-38 | each branch other than 子 holds exactly its two clock hours |
| Pillars.HourStemBase | lib/saju-calculator.ts:40-44 | `getShiganBase`: an even stem from 0 to 8, half of which is the day stem modulo 5 |
| Pillars.HourStem | lib/saju-calculator.ts:251-253 | the hour stem is a stem index with the parity of the hour's branch, and the 子 hour's stem is the day's base stem |
| Pillars.HourStemCycle | lib/saju-calculator.ts:251-253 | days five stems apart have the same hour stems, and each double hour advances the stem by one |
| Pillars.JsRem60 | lib/saju-calculator.ts:214 | JavaScript's `% 60`: it agrees with the mathematical remainder for a non-negative dividend; otherwise it is zero or that remainder minus 60 |
| Pillars.YearCycleIndex | lib/saju-calculator.ts:214 | `((y - 4) % 60 + 60) % 60` is the remainder of y - 4 modulo 60, for negative years as well |
| Pillars.YearCyclePeriod | lib/saju-calculator.ts:213-214 | the year cycle repeats every sixty years, and 1984 is a 甲子 year |
| Pillars.CycleFromStemAndBranch | lib/saju-calculator.ts:214-216 | a place in the sixty-cycle is fixed by its stem index and its branch index |
| Pillars.MonthBranch | lib/saju-calculator.ts:241-242 | the month branch is `m + 1` for months 1 to 10 (寅 to 亥) and 子, 丑 for months 11 and 12 |
| Pillars.MonthBranchInjective | lib/saju-calculator.ts:241-242 | the twelve months have twelve different branches |
| Pillars.MonthStem | lib/saju-calculator.ts:244-245 | the month stem is a stem index with the parity of the month branch |
| Pillars.MonthStemCycle | lib/saju-calculator.ts:244-245 | the 寅 month of a 甲 or 己 year has stem 丙, and years five stems apart have the same month stems |
| Pillars.MonthStemStep | lib/saju-calculator.ts:244-245 | each month's stem follows the previous month's |
| Pillars.CountOhang | lib/saju-calculator.ts:102-110 | `countOhang` computes the tally: each element's count is its number of occurrences among the present pillars' two elements |
| Pillars.Bump | lib/saju-calculator.ts:106-107 | the two increments raise each entry by the number of times it is named, once or twice |
| Pillars.TallyStep | lib/saju-calculator.ts:104-108 | an absent pillar leaves the tally alone; a present one adds its two elements |
| Pillars.TallyTotal | lib/saju-calculator.ts:102-110 | the counts add up to twice the number of present pillars |
| Pillars.TallyBounded | lib/saju-calculator.ts:102-110 | no tally entry is negative or exceeds twice the number of present pillars |
| Pillars.FourPillarsTally | lib/saju-calculator.ts:257-258 | the tally of the four pillars has the five elements as keys, each from 0 to 8, and adds up to 8, or to 6 without the hour pillar |
| Terms.FindTermFrom | lib/saju-calculator.ts:201-204 | `find`: the first record with the wanted name and year, or -1 exactly when there is none |
| Terms.SajuYear | lib/saju-calculator.ts:194-211 | the Four Pillars year is the solar year, or the year before exactly when this year's 입춘 is on record and the birth precedes it |
| Terms.SajuYearTurnsAtIpchun | lib/saju-calculator.ts:205-209 | when the 입춘 is known, the year is the solar year exactly when the birth is at or after the 입춘 |
| Terms.MonthOpenings | lib/saju-calculator.ts:222-232 | month m opens at the record of its sectional term in the Four Pillars year, or the year after for 소한 |
| Terms.MonthOpeningsAsWritten | lib/saju-calculator.ts:224-232 | the openings as written: the same as `MonthOpenings` for the first eleven terms, and 소한 from the birth's solar year or the year after |
| Terms.LastPassedBelow | lib/saju-calculator.ts:233-237 | the last month below n whose opening has passed, and no later month below n has passed |
| Terms.JeolgiMonth | lib/saju-calculator.ts:221-239 | the solar month is 1 to 12; the opening of the month before it has passed (for months 2 to 12), and no later opening has |
| Terms.ScanJeolgiMonth | lib/saju-calculator.ts:221-239 | the scan over the twelve terms, with 소한 looked up in the birth's solar year or the year after, computes `JeolgiMonth` of `MonthOpeningsAsWritten` |
| Terms.JeolgiMonthIsCurrent | lib/saju-calculator.ts:219-239 | with the openings in calendar order, every known earlier opening has passed and no later one has |
| Terms.SohanOpensNextYear | lib/saju-calculator.ts:231 | with 소한 taken from the following year, a birth in the calendar year of its Four Pillars year is never in month 12 |
| Terms.AsWrittenSohanCaptures | lib/saju-calculator.ts:228-229 | with the lookup as written, once the 소한 it finds has passed, the month is 12 |
| Terms.May1990 | lib/saju-calculator.ts:219-239 | a birth at noon on 15 May 1990: year 1990 and month 4 (巳), but month 12 with the lookup as written |
| Saju.BirthOf | lib/saju-calculator.ts:126-148 | the date parsed from the input, the hour exactly when the time names one (at most 23), and whether the date is lunar |
| Saju.DayIndices | lib/saju-calculator.ts:184-190 | a token with no pair fails, reporting the birth date's own token; otherwise the indices are the table positions of the decoded glyphs, and the glyphs are not in the tables exactly when it fails |
| Saju.YearPillar | lib/saju-calculator.ts:213-217 | the year pillar is well formed, one of the sixty, with the stem and branch of the year's place in the cycle |
| Saju.MonthPillar | lib/saju-calculator.ts:241-246 | the month pillar is well formed, one of the sixty, with the month's branch and stem |
| Saju.HourPillar | lib/saju-calculator.ts:248-255 | the hour pillar is well formed, one of the sixty, with the double hour's branch and the stem given by the day stem |
| Saju.Chart | lib/saju-calculator.ts:213-269 | the result holds the year, month, day and hour pillars of its arguments; there is an hour pillar exactly when there is an hour; the tally counts each element over the pillars, each entry from 0 to 8, adding up to 8, or to 6 without an hour |
| Saju.FetchRecords | lib/saju-calculator.ts:131-175 | the conversion and the provider lookups compute `Fetch`; the first failure ends them |
| Saju.DayPillarIndices | lib/saju-calculator.ts:184-190 | the day token decoding and the table lookups compute `DayIndices` |
| Saju.AssembleRecords | lib/saju-calculator.ts:177-269 | the steps after the lookups compute `Assemble` with the source's 소한 lookup |
| Saju.BuildChart | lib/saju-calculator.ts:213-269 | the pillar and tally steps compute `Chart` |
| Saju.CalculateSaju | lib/saju-calculator.ts:122-270 | `calculateSaju` computes `Saju`: the lookups, then the pillars, with the month scan as written |
| Saju.NightBirthUsesNextDay | lib/saju-calculator.ts:150-175 | a birth from 23:00 takes its day record from the next day's lookup; any other birth takes it from the birth date's own record |
| Saju.FetchedTerms | lib/saju-calculator.ts:172-194 | the term records are this year's list, preceded by last year's list exactly when the birth month is January or February |
| Saju.ProviderFailurePropagates | lib/saju-calculator.ts:131-175 | a failing lookup is the result of the whole calculation |
| Saju.UndecodableDayToken | lib/saju-calculator.ts:184-187 | a day token without a stem-branch pair fails the calculation with the birth date's token |
| Saju.YearPillarOfResult | lib/saju-calculator.ts:194-217 | the Four Pillars year is the solar year or the year before, and the year pillar is that year's place in the cycle |
| Saju.PillarsOfResult | lib/saju-calculator.ts:190-255 | every pillar of a result is well formed; the year, month and hour pillars are among the sixty |
| Saju.TimePillarOfResult | lib/saju-calculator.ts:248-255 | there is an hour pillar exactly when the time names an hour; its branch is the hour's and its stem follows the day stem |
| Saju.TallyOfResult | lib/saju-calculator.ts:257-258 | the tally counts each element over the four pillars; its keys are the five elements, each entry is from 0 to 8, and they add up to 8, or to 6 without an hour |
| Saju.TermsUseBirthDate | lib/saju-calculator.ts:156-239 | the year and the month are found from the solar birth date itself, not the next day of a night birth, and at noon when the hour is unknown |
| Saju.ChouMonthAsWritten | lib/saju-calculator.ts:224-246 | with the source's lookup, a birth at or after the 소한 of its solar year or the year after gets the 丑 month branch |
| Saju.NoChouMonthAfterIpchun | lib/saju-calculator.ts:231 | in the corrected calculation, a birth in the calendar year of its Four Pillars year never gets the 丑 month branch |
| Saju.SolarDateOfResult | lib/saju-calculator.ts:181 | the reported solar date parses back to the solar birth date |
| Saju.LunarDateOfLunarInput | lib/saju-calculator.ts:138 | for a lunar input, the reported lunar date parses back to the input date |
| Saju.GenderIgnored | lib/saju-calculator.ts:123 | the gender does not affect the result |
| Preview.EntryOrZero | app/api/saju/preview/route.ts:36-40 | `t[k] ?? 0`: the entry when present, zero otherwise |
| Preview.TimeField | app/api/saju/preview/route.ts:30-35 | `r.timePillar?.f ?? null`: set exactly when there is an hour pillar, and then that pillar's field |
| Preview.SajuResultToDb | app/api/saju/preview/route.ts:6-42 | the row belongs to the given person; it copies the dates, the year and the three mandatory pillars; its six hour columns hold the hour pillar's fields, or are all null without one; each of the five tally columns holds its entry, or 0 when the entry is missing |
| Preview.DbToSajuResult | app/api/saju/preview/route.ts:45-78 | the chart copies the dates and the year; its year, month and day pillars are their six columns each; it has an hour pillar exactly when the stored hour stem is non-empty, made of the six hour columns with a null read as empty; its tally has exactly the five elements, with the stored counts |
| Preview.StoredPillarsReadBack | app/api/saju/preview/route.ts:6-78 | for every chart, storing and reading back keeps the three mandatory pillars, the dates, the year and an hour pillar with a non-empty stem, and gives each element its entry or 0 |
| Preview.StoredChartReadsBack | app/api/saju/preview/route.ts:6-78 | storing a chart and reading it back gives the chart exactly when its tally has the five elements as keys and its hour stem, if any, is non-empty |
| Preview.PersonIgnored | app/api/saju/preview/route.ts:45-78 | the person a row belongs to does not affect the chart read from it |
| Preview.RowReadsBack | app/api/saju/preview/route.ts:6-78 | reading a row and storing the chart again gives the same row exactly when the six hour columns are all null, or the hour stem is non-empty and all six are set |
| Preview.ComputedChartReadsBack | app/api/saju/preview/route.ts:6-78 | every chart the engine computes is stored and read back unchanged |

## Left out

- The provider's network calls, caching and response parsing (`lib/kasi.ts`) are not part of this model. They are the three lookups of `Saju.Provider`, each returning a value or a failure. `Saju.Fetch` checks the failures in the order of the source's `Promise.all` array; which rejection JavaScript reports when several lookups fail at once is not modelled.
- The request handling of the preview endpoint is not part of this model. This covers authentication, request parsing, the database reads and writes, and the response.
- Saju.CalculateSaju: requires a "YYYY-MM-DD" date whose fields are digit runs, a real calendar date when it is solar, and an hour that is absent or at most 23. For other input, the source carries on with `NaN` or with JavaScript `Date` normalisation of out-of-range fields: hour 24 becomes 00:00 of the next day, and 31 February becomes March. Neither is modelled.
- Saju.CalculateSaju: years 0 to 99 are admitted and kept as they are. JavaScript's `new Date(year, ...)` maps them into the 1900s, which changes the next-day lookup of a night birth and the term comparisons.
- Saju.Fetch: the solar date the provider returns for a lunar input is used as it comes. `Calendar.NextDay` agrees with JavaScript's rollover only when that date is a real calendar date.
- Saju.DayIndices: a parenthesised group whose characters are not stem and branch glyphs gives `UnknownDayGlyph`. In the source, `indexOf` returns -1 and `makePillar` builds a pillar of `undefined` fields with a `NaN` tally entry.
- Pillars.MakePillar: requires non-negative indices. The source is only ever called with such indices once the case above is excluded.
- Pillars.CountOhang: requires the elements to be among the five. `makePillar` always gives such elements. For any other element the source would add a `NaN` entry.
- Calendar.JeolgiToInstant: reads the year as `locdate / 10000`, month and day from the last four digits. This agrees with the source's `substring` reading for eight-digit `locdate` values, which are the values the provider returns.
- Calendar.JeolgiToInstant: the term's `kst` time arrives already split into hour and minute, or as no time. The source splits the provider's text with `(kst || "00:00").split(":").map(Number)`. A `kst` without ':' or with non-digit fields would give an invalid `Date`, against which every comparison is false; that case is not modelled.
- Text.NumberField: only a non-empty digit run is a number. JavaScript's `Number` also reads "" as 0 and accepts surrounding whitespace, signs, decimals and exponents.
- Text.ParseIntPrefix: only text that starts with a digit gives a number. JavaScript's `parseInt` also skips leading whitespace and accepts a sign.
- Ganji.DecodeDayToken: characters are Unicode scalar values. The source's `match[1].length`, `match[1][0]` and `str[i]` count UTF-16 code units, so a token holding a character outside the Basic Multilingual Plane would decode differently. The stem and branch glyphs are all inside it.
- Calendar.BirthHour: `parseInt` is modelled for text that starts with a digit. Leading whitespace and signs, which `parseInt` accepts, are read as `NaN`.
- The lunar-to-solar lookup is always made with the leap-month flag false, as the source calls it. Lunar leap months cannot be entered.
- The birth instant and the term instants are compared as (year, month, day, hour, minute) tuples. This is what comparing the source's `Date` objects amounts to for in-range fields; time zones are not modelled.
- Preview.DbToSajuResult: a null hour column other than the hour stem, when the hour stem is set, is read as the empty string. The source would place `null` in that pillar field, and the model's pillar fields are strings.

## Findings

| source | as written | input that shows it | evidently intended | confidence | as-written member | corrected member |
|---|---|---|---|---|---|---|
| lib/saju-calculator.ts:228-229 | the 소한 record is looked up in the birth's solar year or the year after, so the 소한 of the birth's own January is found and has passed for every birth after early January | records for 1990 with 소한 on 5 January, 입춘 on 4 February and 입하 on 6 May; birth at noon on 15 May 1990: month 12 (丑) instead of month 4 (巳) | look 소한 up in the year after the Four Pillars year, as the `sajuYear + (m < 11 ? 0 : 1)` expression on line 231 already does | high; not executed | Terms.AsWrittenSohanCaptures | Terms.SohanOpensNextYear |
