# Fiscal calendar (4-4-5) in Dafny

This project models a 4-4-5 fiscal calendar. A fiscal year is a 364-day span from a start date. It is cut into twelve months of 28 or 35 days, and each month is read as 7-day weeks. A small history of fiscal-year records (year, start date, month lengths) fixes where years begin. Years without a record of their own are projected from the first record, the anchor, using 364-day years.

Dates are day numbers: the proleptic Gregorian ordinal, as Python's `date.toordinal` counts, so 2018-02-04 is 736729. The source compares dates through the key `year*10000 + month*100 + day`. Module `Dates` proves that this key orders in-range dates exactly as the calendar does, so the rest of the model compares day numbers.

Files and modules:

- `wrappers.dfy` (`Wrappers`): `Option` and `Result`.
- `dates.dfy` (`Dates`): the date-key comparison.
- `calendar.dfy` (`FiscalCalendar`): `FiscalWeek`, `FiscalMonth` and `FiscalYear` as values. Two methods carry the source's loops: `BuildFiscalYear` (the constructor's month-by-month loop) and `MonthOfDate` (the scan with early return). Each is proved equal to a reference function: `BuildFiscalYear` to the prefix-sum layout `FiscalYearOf`, `MonthOfDate` to the first-match lookup `MonthContaining`.
- `calendar_properties.dfy` (`CalendarProperties`): lemmas on contiguity, tiling, lookup and week numbers.
- `config.dfy` (`FiscalConfig`): the history as a `seq<ConfigRecord>`, with the resolvers.
  - The search loops of the resolvers are methods proved against the functions `StartOf` and `LengthsOf`.
  - The add operation is a pure `AddYear`, plus the class `ConfigStore` whose `history` field it updates in place.
- `config_properties.dfy` (`ConfigProperties`): lemmas on lookups, projection, round trips, history order and the default scenario.

## Model

| member | source | states |
|---|---|---|
| `Dates.DateKeyOrder` | FiscalCalendar.py:48-52 | for dates whose month is 1..12 and day 1..31, key order is calendar order (year, then month, then day) |
| `Dates.KeyWithinIsCalendarRange` | FiscalCalendar.py:61-65 | the key range test of `contains` holds exactly when the date is on or after the start and on or before the end in calendar order |
| `FiscalCalendar.BuildFiscalYear` | FiscalCalendar.py:6-16 | building months one after another, each starting the day after the previous ends, gives the reference layout: year, start, end = start + 363, month i+1 from start + (sum of the first i lengths) to one day before start + (sum of the first i+1 lengths), numbered i+1 |
| `FiscalCalendar.FirstContaining` | FiscalCalendar.py:18-21 | returns the first month in order that contains the date, and none exactly when no month contains it |
| `FiscalCalendar.MonthOfDate` | FiscalCalendar.py:18-21 | the in-order scan with early return yields that first containing month (or nothing), and the month yielded contains the date |
| `FiscalCalendar.CurrentFiscalMonth` | FiscalCalendar.py:23-24 | the month lookup applied to the current date, which is a parameter |
| `FiscalCalendar.FirstWeekFrom` | FiscalCalendar.py:151-154 | yields the smallest week number x in the scanned range up to 5 whose week contains the date, and nothing exactly when none does |
| `CalendarProperties.MonthsLaidEndToEnd` | FiscalCalendar.py:12-16 | month i+1 is numbered i+1; month 1 starts on the year start; month i+1 ends lengths[i] - 1 days after it starts; the next month starts the day after |
| `CalendarProperties.MonthsTileYear` | FiscalCalendar.py:9-16 | the year ends on start + 363; with lengths summing to 364 the first month starts on the year start and the last month ends on the year end |
| `CalendarProperties.MonthsDisjoint` | FiscalCalendar.py:12-16 | with positive lengths an earlier month ends strictly before a later one starts |
| `CalendarProperties.OnlyOneMonthContains` | FiscalCalendar.py:12-16 | with positive lengths no date lies in two different months |
| `CalendarProperties.MonthWithinYear` | FiscalCalendar.py:9-16 | with positive lengths summing to 364 every month lies inside [start, start + 363] |
| `CalendarProperties.MonthOfDateInYear` | FiscalCalendar.py:18-21 | with positive lengths summing to 364, the lookup finds a month if and only if the date is in [start, start + 363]; the month found contains the date and is the only month that does |
| `CalendarProperties.MonthOfDayInMonth` | FiscalCalendar.py:18-21 | with positive lengths summing to 364, a date inside month i+1 is looked up in exactly that month |
| `CalendarProperties.WeekOfDayInMonth` | FiscalCalendar.py:151-155 | in a month of at most 35 days, a date of the month gets week (date - month start) / 7 + 1 |
| `CalendarProperties.MonthNumbered` | FiscalCalendar.py:26-27 | `month(n)` exists exactly for 1 - count <= n <= count; for 1..count it is month number n; for 0 and below, as Python's negative indexes do, it is month count + n |
| `CalendarProperties.NominalLengthMatchesDefault` | FiscalCalendar.py:42 | with the default lengths each month's `length` field equals its real span |
| `CalendarProperties.NominalLengthIgnoresSpan` | FiscalCalendar.py:42 | with other lengths it can differ: a 35-day first month reports length 28 |
| `CalendarProperties.WeeksLaidEndToEnd` | FiscalCalendar.py:44-46 | week 1 starts on the month start; week n ends six days after it starts and is numbered n; week n+1 starts the day after week n ends, for every n, with no clipping to the month |
| `CalendarProperties.WeekNumberFormula` | FiscalCalendar.py:151-155 | the week number of a date is (date - month start) / 7 + 1 when the date is 0..34 days after the month start, and nothing otherwise |
| `FiscalConfig.IndexOfYear` | FiscalCalendar.py:118-121 | finds the first record in list order whose fiscal year matches, and nothing exactly when none matches |
| `FiscalConfig.StartOfFiscalYear` | FiscalCalendar.py:116-134 | the in-order search yields the first matching record's start, or else the projection from the anchor |
| `FiscalConfig.MonthLengthsOfFiscalYear` | FiscalCalendar.py:137-142 | the in-order search yields the first matching record's lengths, or else the default pattern; an empty history gives the default |
| `FiscalConfig.CurrentFiscalYear` | FiscalCalendar.py:103-113 | corrected rounding (see Findings): for a 364-day anchor, today lies in the projected span of the year returned, on either side of the anchor |
| `FiscalConfig.CurrentFiscalYearAsWritten` | FiscalCalendar.py:103-113 | the source's rounding toward zero: for a 364-day anchor, today lies in the projected span of the year returned whenever today is at most 364 days before the anchor start (earlier days: see Findings) |
| `FiscalConfig.WeekNumberOfFiscalMonth` | FiscalCalendar.py:145-155 | resolves the current year with the corrected rounding (not the truncating one the source calls, see Left out), then its start and lengths, builds it, finds the date's month and its first week 1..5 holding the date; yields nothing when either lookup fails |
| `FiscalConfig.AddYear` | FiscalCalendar.py:89-97 | refused, with the past-year error, exactly when the year is before the anchor's. The anchor's own year replaces only the anchor's start and lengths. A later year is put in front of the unchanged old records |
| `FiscalConfig.ConfigStore.AddYearToConfig` | FiscalCalendar.py:89-100 | on refusal returns the error and leaves the stored history unchanged; otherwise returns no error and the stored history becomes the added history |
| `FiscalConfig.ConfigStore.RestoreDefault` | FiscalCalendar.py:68-79 | the stored history becomes the single default record: fiscal 2018 from 2018-02-04 with the default lengths |
| `FiscalConfig.ConfigStore.constructor` | FiscalCalendar.py:84-86 | the store holds the history it was loaded with |
| `ConfigProperties.DefaultLengthsWellFormed` | FiscalCalendar.py:142 | the default pattern has 12 months of 28 or 35 days, 364 days in all |
| `ConfigProperties.ExactRecordWins` | FiscalCalendar.py:118-121 | when records exist for the year, the start and the lengths both come from the first such record |
| `ConfigProperties.NoRecordProjects` | FiscalCalendar.py:116-142 | without a record for the year, the start is the anchor projection and the lengths are the default |
| `ConfigProperties.ProjectedStartStep` | FiscalCalendar.py:128-134 | the projection puts the anchor year on the anchor start. The next year starts one anchor length later; every other year starts 364 days after the year before |
| `ConfigProperties.ProjectedStartClosedForm` | FiscalCalendar.py:128-134 | with a 364-day anchor every projected start is anchor start + (year - anchor year) * 364 |
| `ConfigProperties.AddYearRoundTrip` | FiscalCalendar.py:89-97 | after a successful add of year Y, the start and lengths looked up for Y are exactly those supplied |
| `ConfigProperties.AddYearIdempotent` | FiscalCalendar.py:89-97 | adding the same record a second time changes nothing more |
| `ConfigProperties.AddYearKeepsNewestFirst` | FiscalCalendar.py:89-97 | a history ordered newest first stays so after an add |
| `ConfigProperties.AddYearKeepsOtherRecords` | FiscalCalendar.py:93-97 | records for other years answer both lookups as they did before the add |
| `ConfigProperties.TruncationMisplacesEarlyDates` | FiscalCalendar.py:111-113 | the as-written rounding puts the day 365 days before a 364-day anchor's start in the year before the anchor, which has not begun on that day; the corrected year is two before the anchor |
| `ConfigProperties.CurrentFiscalYearAgrees` | FiscalCalendar.py:110-113 | from one anchor length before the anchor start onwards, the as-written and the corrected current year are equal |
| `ConfigProperties.WeekOfDateAgrees` | FiscalCalendar.py:145-155 | from one anchor length before the anchor start onwards, the week lookup built on the source's truncating year and the one built on the corrected year give the same answer for every date |
| `ConfigProperties.EarlyDateLostAsWritten` | FiscalCalendar.py:145-155 | in the default history, on 2017-02-04 the week lookup built on the truncating year finds no month (the source fails on `None` there), while the corrected lookup gives week 4 |
| `ConfigProperties.CurrentYearHoldsToday` | FiscalCalendar.py:103-134 | with a 364-day anchor and no record for the current year, today lies between that year's start and its start + 363 |
| `ConfigProperties.WeekOfDateInResolvedYear` | FiscalCalendar.py:145-155 | when the resolved year's lengths are positive, at most 35 and sum to 364, a week number is found if and only if the date is in that year. It is then in 1..5 and equals (date - month start) / 7 + 1 |
| `ConfigProperties.WeekOfDayInResolvedMonth` | FiscalCalendar.py:145-155 | a date inside month i+1 of the resolved year is found in that month, and its week number is its whole weeks from the month start, plus one |
| `ConfigProperties.DefaultNextYear` | FiscalCalendar.py:123-134 | in the default history fiscal 2019 starts on 2019-02-03 (day 737093) with the default lengths |
| `ConfigProperties.DefaultCurrentYear` | FiscalCalendar.py:103-113 | in the default history, on 2018-02-04 the current year is 2018, starting that day with the default lengths |
| `ConfigProperties.DefaultFirstMonths` | FiscalCalendar.py:12-16 | month 1 of the default fiscal 2018 runs from 2018-02-04 to 2018-03-03; month 2 starts on 2018-03-04 |
| `ConfigProperties.DefaultDayLookup` | FiscalCalendar.py:145-155 | a day of month i+1 of the default fiscal 2018 is looked up in month i+1, with week (day - month start) / 7 + 1 |
| `ConfigProperties.DefaultFirstDay` | FiscalCalendar.py:145-155 | 2018-02-04 is in month 1, week 1 |
| `ConfigProperties.DefaultSecondMonthFirstDay` | FiscalCalendar.py:145-155 | 2018-03-04 is in month 2, week 1 |
| `ConfigProperties.DefaultRejectsPastYear` | FiscalCalendar.py:91-92 | adding fiscal 2017 to the default history is refused with the past-year error |

## Findings

| source | as written | input that shows it | evidently intended | confidence | as-written member | corrected member |
|---|---|---|---|---|---|---|
| FiscalCalendar.py:112 | `int(delta.days/364)` rounds the elapsed 364-day periods toward zero | anchor year Y with 364 days of months starting on day s, today = s - 365: the code returns Y - 1, but Y - 1 is projected to start on s - 364, after today | round down, so today lies in the year returned: `start_of_fiscal_year` (lines 130-134) projects year Y - 1 to start on s - 364 and year Y - 2 on s - 728, so s - 365 belongs to Y - 2, and `week_number_of_fiscal_month` (line 146) looks the date up in the year returned | medium, not executed | `FiscalConfig.CurrentFiscalYearAsWritten`, shown by `ConfigProperties.TruncationMisplacesEarlyDates`; through the week lookup, `FiscalConfig.WeekOfDateAsWritten`, shown by `ConfigProperties.EarlyDateLostAsWritten` | `FiscalConfig.CurrentFiscalYear`, proved by its contract and `ConfigProperties.CurrentYearHoldsToday` |

`WeekNumberOfFiscalMonth` uses the corrected year. `ConfigProperties.CurrentFiscalYearAgrees` and `ConfigProperties.WeekOfDateAgrees` prove both versions equal for every today from one anchor length before the anchor start onwards.

## Left out

- Storage: `load_config`, `restore_default_config` and the save at the end of `add_year_to_config` read and write a JSON file. Here the history is an explicit sequence, or the `history` field of `ConfigStore`. The JSON encoding, the file and the `print` in the restore operation are not modelled.
- Wall clock: `datetime.today()` is the parameter `today`. Time of day is not modelled, so the elapsed-days computation is a whole-day difference.
- Gregorian calendar: conversion between (year, month, day) and day numbers, and `timedelta` internals, are not modelled. The model assumes that day-number order is calendar order; `Dates` shows calendar order is what the source's key comparison computes.
- Float division: `int(x / 364)` is modelled as integer division rounding toward zero (`TruncDiv`). Floating-point rounding of large quotients is not modelled.
- Python failures become results or preconditions:
  - an empty history, which the source would index at `config[0]`, is excluded by `requires |config| > 0`;
  - a date with no month in `week_number_of_fiscal_month` (an `AttributeError` on `None`) gives `None`;
  - an empty week list (an `IndexError`) gives `None`;
  - `month(n)` out of range gives `None`.
- Malformed records are not modelled: missing keys, a non-integer year, or a start date that is not a valid date.
- `FiscalYear.__str__` and the `__main__` demonstration are output code and are not modelled.
- `FiscalConfig.CurrentFiscalYear`: its contract places today in the projected year only for an anchor whose lengths sum to 364. For other anchor lengths the code's `+ length ... - 1` arithmetic and the projection of `start_of_fiscal_year` need not agree, and no relation is stated.
- `FiscalConfig.WeekNumberOfFiscalMonth`: it resolves the current year with the corrected rounding, where line 146 calls the truncating `current_fiscal_year`. The two differ only when today is more than one anchor length before the anchor start; there the source can build a year that does not hold today and fail, as `ConfigProperties.EarlyDateLostAsWritten` shows. `FiscalConfig.WeekOfDateAsWritten` is the as-written composition.
- `ConfigProperties.WeekOfDateInResolvedYear`: stated only when the resolved year's lengths are positive, at most 35 and sum to 364. The source does not validate records, and for other lengths no result is promised.
- The anchor is the first record, whatever its year. After a later year is put in front, projections start from that newer record; the model keeps this behaviour as written.
