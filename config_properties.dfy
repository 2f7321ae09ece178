/**
 * Properties of the configuration resolvers: exact records win over projection, the
 * projection advances by the anchor's length and then by 364 days a year, adding a year
 * round-trips through the lookups and keeps the history newest first, and the week number
 * of any date in the resolved fiscal year is found.
 */
module ConfigProperties {
  import opened Wrappers
  import opened FiscalCalendar
  import opened CalendarProperties
  import opened FiscalConfig

  /** Month lengths the calendar is designed for: positive, at most five weeks, 364 days in all. */
  predicate WellFormedLengths(lengths: seq<int>) {
    AllPositive(lengths) && Sum(lengths) == 364 &&
    forall i :: 0 <= i < |lengths| ==> lengths[i] <= 35
  }

  /** Every record of the history is for a later fiscal year than the records after it. */
  predicate NewestFirst(config: seq<ConfigRecord>) {
    forall i, j :: 0 <= i < j < |config| ==> config[i].fiscalYear > config[j].fiscalYear
  }

  /** The default pattern has 12 months, 28 or 35 days each, 364 days in all. */
  lemma DefaultLengthsWellFormed()
    ensures |DefaultMonthLengths| == 12 && WellFormedLengths(DefaultMonthLengths)
  {
    var ls := DefaultMonthLengths;
    assert ls[..0] == [];
    SumSnoc(ls, 0); SumSnoc(ls, 1); SumSnoc(ls, 2); SumSnoc(ls, 3);
    SumSnoc(ls, 4); SumSnoc(ls, 5); SumSnoc(ls, 6); SumSnoc(ls, 7);
    SumSnoc(ls, 8); SumSnoc(ls, 9); SumSnoc(ls, 10); SumSnoc(ls, 11);
    assert ls[..12] == ls;
  }

  /** When records exist for the year, both lookups return the first such record's values. */
  lemma ExactRecordWins(config: seq<ConfigRecord>, year: int, i: nat)
    requires i < |config| && config[i].fiscalYear == year
    requires forall j :: 0 <= j < i ==> config[j].fiscalYear != year
    ensures StartOf(config, year) == config[i].startDate
    ensures LengthsOf(config, year) == config[i].monthLengths
  {
    var k := IndexOfYear(config, year).value;
    assert !(k < i) && !(i < k);
  }

  /** Without a record for the year, the start is projected from the anchor and the lengths are the default. */
  lemma NoRecordProjects(config: seq<ConfigRecord>, year: int)
    requires |config| > 0
    requires forall j :: 0 <= j < |config| ==> config[j].fiscalYear != year
    ensures StartOf(config, year) == ProjectedStart(config[0], year)
    ensures LengthsOf(config, year) == DefaultMonthLengths
  {
  }

  /**
   * The projection starts the anchor's year on the anchor's start, starts the next year one
   * anchor length later, and every other year 364 days after the year before it.
   */
  lemma ProjectedStartStep(anchor: ConfigRecord, year: int)
    ensures ProjectedStart(anchor, anchor.fiscalYear) == anchor.startDate
    ensures ProjectedStart(anchor, year + 1) - ProjectedStart(anchor, year)
            == if year == anchor.fiscalYear then Sum(anchor.monthLengths) else 364
  {
  }

  /** With a 364-day anchor, the projected start of any year is a whole number of 364-day years from the anchor. */
  lemma ProjectedStartClosedForm(anchor: ConfigRecord, year: int)
    requires Sum(anchor.monthLengths) == 364
    ensures ProjectedStart(anchor, year) == anchor.startDate + (year - anchor.fiscalYear) * 364
  {
  }

  /** After a year is added, looking that year up gives back exactly the start and lengths supplied. */
  lemma AddYearRoundTrip(config: seq<ConfigRecord>, data: ConfigRecord)
    requires |config| > 0
    requires AddYear(config, data).Success?
    ensures StartOf(AddYear(config, data).value, data.fiscalYear) == data.startDate
    ensures LengthsOf(AddYear(config, data).value, data.fiscalYear) == data.monthLengths
  {
    ExactRecordWins(AddYear(config, data).value, data.fiscalYear, 0);
  }

  /** Adding the same record twice has the same effect as adding it once. */
  lemma AddYearIdempotent(config: seq<ConfigRecord>, data: ConfigRecord)
    requires |config| > 0
    requires AddYear(config, data).Success?
    ensures AddYear(AddYear(config, data).value, data) == AddYear(config, data)
  {
    var once := AddYear(config, data).value;
    assert once[0].fiscalYear == data.fiscalYear;
    assert [once[0]] + once[1..] == once;
  }

  /** Adding a year keeps a newest-first history newest first. */
  lemma AddYearKeepsNewestFirst(config: seq<ConfigRecord>, data: ConfigRecord)
    requires |config| > 0 && NewestFirst(config)
    requires AddYear(config, data).Success?
    ensures NewestFirst(AddYear(config, data).value)
  {
    var after := AddYear(config, data).value;
    forall i, j | 0 <= i < j < |after|
      ensures after[i].fiscalYear > after[j].fiscalYear
    {
      assert after[j] == config[j - 1] || (data.fiscalYear == config[0].fiscalYear && after[j] == config[j]);
      if i > 0 {
        assert after[i] == config[i - 1] || (data.fiscalYear == config[0].fiscalYear && after[i] == config[i]);
      }
    }
  }

  /** Records for other years keep answering the lookups as before an add. */
  lemma AddYearKeepsOtherRecords(config: seq<ConfigRecord>, data: ConfigRecord, year: int)
    requires |config| > 0
    requires AddYear(config, data).Success?
    requires year != data.fiscalYear && IndexOfYear(config, year).Some?
    ensures StartOf(AddYear(config, data).value, year) == StartOf(config, year)
    ensures LengthsOf(AddYear(config, data).value, year) == LengthsOf(config, year)
  {
    var after := AddYear(config, data).value;
    var i := IndexOfYear(config, year).value;
    if data.fiscalYear == config[0].fiscalYear {
      assert after[i] == config[i];
      ExactRecordWins(after, year, i);
    } else {
      assert after[i + 1] == config[i];
      ExactRecordWins(after, year, i + 1);
    }
  }

  /**
   * Rounding toward zero places a day more than one anchor year before the anchor start in
   * the wrong year: for a 364-day anchor, the day 365 days before its start is reported in
   * the year before the anchor, whose projected start is one day later.
   */
  lemma TruncationMisplacesEarlyDates(config: seq<ConfigRecord>)
    requires |config| > 0 && Sum(config[0].monthLengths) == 364
    ensures CurrentFiscalYearAsWritten(config, config[0].startDate - 365) == config[0].fiscalYear - 1
    ensures ProjectedStart(config[0], config[0].fiscalYear - 1) > config[0].startDate - 365
    ensures CurrentFiscalYear(config, config[0].startDate - 365) == config[0].fiscalYear - 2
  {
  }

  /** From one anchor length before the anchor start onwards, both roundings give the same year. */
  lemma CurrentFiscalYearAgrees(config: seq<ConfigRecord>, today: int)
    requires |config| > 0
    requires today - config[0].startDate + Sum(config[0].monthLengths) >= 0
    ensures CurrentFiscalYearAsWritten(config, today) == CurrentFiscalYear(config, today)
  {
  }

  /** From one anchor length before the anchor start onwards, both week lookups give the same answer. */
  lemma WeekOfDateAgrees(config: seq<ConfigRecord>, today: int, date: int)
    requires |config| > 0
    requires today - config[0].startDate + Sum(config[0].monthLengths) >= 0
    ensures WeekOfDateAsWritten(config, today, date) == WeekOfDate(config, today, date)
  {
    CurrentFiscalYearAgrees(config, today);
  }

  /**
   * In the default history, on 2017-02-04 (365 days before the anchor start) the truncating
   * lookup resolves fiscal 2017, which starts a day later, and finds no month for that day;
   * the corrected lookup resolves fiscal 2016, whose last day it is, in week 4 of month 12.
   */
  lemma EarlyDateLostAsWritten()
    ensures WeekOfDateAsWritten(DefaultConfig, 736364, 736364) == None
    ensures WeekOfDate(DefaultConfig, 736364, 736364) == Some(4)
  {
    DefaultLengthsWellFormed();
    var ls := DefaultMonthLengths;
    assert IndexOfYear(DefaultConfig, 2017) == None;
    assert IndexOfYear(DefaultConfig, 2016) == None;
    assert CurrentFiscalYearAsWritten(DefaultConfig, 736364) == 2017;
    assert StartOf(DefaultConfig, 2017) == 736365;
    MonthOfDateInYear(2017, 736365, ls, 736364);
    assert CurrentFiscalYear(DefaultConfig, 736364) == 2016;
    assert StartOf(DefaultConfig, 2016) == 736001;
    MonthsTileYear(2016, 736001, ls);
    MonthsLaidEndToEnd(736001, ls, 11);
    var m := Months(736001, ls)[11];
    assert m.start == 736337 && m.end == 736364;
    WeekOfDayInMonth(736001, ls, 11, 736364);
    MonthOfDayInMonth(2016, 736001, ls, 11, 736364);
  }

  /** With a 364-day anchor and no record of its own, the current year's start is at or before today and its end after. */
  lemma CurrentYearHoldsToday(config: seq<ConfigRecord>, today: int)
    requires |config| > 0 && Sum(config[0].monthLengths) == 364
    requires IndexOfYear(config, CurrentFiscalYear(config, today)).None?
    ensures var y := CurrentFiscalYear(config, today);
            StartOf(config, y) <= today <= StartOf(config, y) + 363
  {
    var y := CurrentFiscalYear(config, today);
    ProjectedStartClosedForm(config[0], y);
    ProjectedStartClosedForm(config[0], y + 1);
  }

  /**
   * When the resolved year's lengths are well formed, a week number is found exactly for the
   * dates of that year, and it is the date's distance from its month start in whole weeks, plus one.
   */
  lemma WeekOfDateInResolvedYear(config: seq<ConfigRecord>, today: int, date: int)
    requires |config| > 0
    requires WellFormedLengths(LengthsOf(config, CurrentFiscalYear(config, today)))
    ensures var y := CurrentFiscalYear(config, today);
            WeekOfDate(config, today, date).Some? <==> StartOf(config, y) <= date <= StartOf(config, y) + 363
    ensures WeekOfDate(config, today, date).Some? ==>
              var y := CurrentFiscalYear(config, today);
              var m := MonthContaining(FiscalYearOf(y, StartOf(config, y), LengthsOf(config, y)), date).value;
              WeekOfDate(config, today, date) == Some((date - m.start) / 7 + 1) &&
              1 <= WeekOfDate(config, today, date).value <= 5
  {
    var y := CurrentFiscalYear(config, today);
    var s, ls := StartOf(config, y), LengthsOf(config, y);
    var fy := FiscalYearOf(y, s, ls);
    MonthOfDateInYear(y, s, ls, date);
    match FirstContaining(fy.months, date) {
      case None =>
      case Some(i) =>
        MonthsLaidEndToEnd(s, ls, i);
        WeekNumberFormula(fy.months[i], date);
    }
  }

  /** In the default history, fiscal 2019 starts on 2019-02-03, 364 days after fiscal 2018, with the default lengths. */
  lemma DefaultNextYear()
    ensures StartOf(DefaultConfig, 2019) == 737093
    ensures LengthsOf(DefaultConfig, 2019) == DefaultMonthLengths
  {
    DefaultLengthsWellFormed();
    assert IndexOfYear(DefaultConfig, 2019) == None;
  }

  /** In the default history, on 2018-02-04 the current fiscal year is 2018, starting that day. */
  lemma DefaultCurrentYear()
    ensures CurrentFiscalYear(DefaultConfig, DefaultStart) == 2018
    ensures StartOf(DefaultConfig, 2018) == DefaultStart
    ensures LengthsOf(DefaultConfig, 2018) == DefaultMonthLengths
  {
    DefaultLengthsWellFormed();
    assert IndexOfYear(DefaultConfig, 2018) == Some(0);
  }

  /** Month 1 of fiscal 2018 ends on 2018-03-03 and month 2 starts on 2018-03-04. */
  lemma DefaultFirstMonths()
    ensures Months(DefaultStart, DefaultMonthLengths)[0].start == 736729
    ensures Months(DefaultStart, DefaultMonthLengths)[0].end == 736756
    ensures Months(DefaultStart, DefaultMonthLengths)[1].start == 736757
  {
    MonthsLaidEndToEnd(DefaultStart, DefaultMonthLengths, 0);
  }

  /** The week-number composition, read with the resolved year, start and lengths named. */
  lemma WeekOfDateUnfolds(config: seq<ConfigRecord>, today: int, year: int, start: int, lengths: seq<int>,
                          date: int)
    requires |config| > 0
    requires year == CurrentFiscalYear(config, today)
    requires start == StartOf(config, year) && lengths == LengthsOf(config, year)
    ensures WeekOfDate(config, today, date)
            == match MonthContaining(FiscalYearOf(year, start, lengths), date)
               case None => None
               case Some(m) => WeekNumberIn(m, date)
  {
  }

  /**
   * A day inside month i+1 of the resolved year (number `year`, start `start`, lengths
   * `lengths`) is looked up in that month, in week (day - month start) / 7 + 1.
   */
  lemma WeekOfDayInResolvedMonth(config: seq<ConfigRecord>, today: int, year: int, start: int,
                                 lengths: seq<int>, i: nat, date: int)
    requires |config| > 0
    requires year == CurrentFiscalYear(config, today)
    requires start == StartOf(config, year) && lengths == LengthsOf(config, year)
    requires WellFormedLengths(lengths)
    requires i < |lengths| && Months(start, lengths)[i].Contains(date)
    ensures MonthContaining(FiscalYearOf(year, start, lengths), date) == Some(Months(start, lengths)[i])
    ensures Months(start, lengths)[i].number == i + 1
    ensures WeekOfDate(config, today, date) == Some((date - Months(start, lengths)[i].start) / 7 + 1)
  {
    MonthsLaidEndToEnd(start, lengths, i);
    MonthOfDayInMonth(year, start, lengths, i, date);
    WeekOfDayInMonth(start, lengths, i, date);
    WeekOfDateUnfolds(config, today, year, start, lengths, date);
  }

  /** A day inside month i+1 of the default fiscal 2018 is looked up in that month, in week (day - month start) / 7 + 1. */
  lemma DefaultDayLookup(i: nat, date: int)
    requires i < 12
    requires Months(DefaultStart, DefaultMonthLengths)[i].Contains(date)
    ensures MonthContaining(FiscalYearOf(2018, DefaultStart, DefaultMonthLengths), date).Some?
    ensures MonthContaining(FiscalYearOf(2018, DefaultStart, DefaultMonthLengths), date).value.number == i + 1
    ensures WeekOfDate(DefaultConfig, DefaultStart, date)
            == Some((date - Months(DefaultStart, DefaultMonthLengths)[i].start) / 7 + 1)
  {
    DefaultLengthsWellFormed();
    DefaultCurrentYear();
    WeekOfDayInResolvedMonth(DefaultConfig, DefaultStart, 2018, DefaultStart, DefaultMonthLengths, i, date);
  }

  /** 2018-02-04, the first day of the default fiscal 2018, is in month 1, week 1. */
  lemma DefaultFirstDay()
    ensures MonthContaining(FiscalYearOf(2018, DefaultStart, DefaultMonthLengths), 736729).Some?
    ensures MonthContaining(FiscalYearOf(2018, DefaultStart, DefaultMonthLengths), 736729).value.number == 1
    ensures WeekOfDate(DefaultConfig, DefaultStart, 736729) == Some(1)
  {
    DefaultFirstMonths();
    DefaultDayLookup(0, 736729);
  }

  /** 2018-03-04, the first day after the 28-day month 1, is in month 2, week 1. */
  lemma DefaultSecondMonthFirstDay()
    ensures MonthContaining(FiscalYearOf(2018, DefaultStart, DefaultMonthLengths), 736757).Some?
    ensures MonthContaining(FiscalYearOf(2018, DefaultStart, DefaultMonthLengths), 736757).value.number == 2
    ensures WeekOfDate(DefaultConfig, DefaultStart, 736757) == Some(1)
  {
    var m := Months(DefaultStart, DefaultMonthLengths)[1];
    DefaultFirstMonths();
    MonthsLaidEndToEnd(DefaultStart, DefaultMonthLengths, 1);
    assert m.start == 736757 && m.end == 736757 + 34;
    DefaultDayLookup(1, 736757);
  }

  /** Adding fiscal 2017 to the default history is refused. */
  lemma DefaultRejectsPastYear(data: ConfigRecord)
    requires data.fiscalYear == 2017
    ensures AddYear(DefaultConfig, data) == Failure(PastYearError)
  {
  }
}
