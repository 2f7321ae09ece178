/**
 * The fiscal-year configuration history and the resolvers over it.
 *
 * The history is an ordered sequence of anchor records, newest first as the add operation
 * keeps it; its first record is the anchor from which years without a record of their own
 * are projected with 364-day years. The stored history is passed in explicitly and the
 * current date is a parameter, so every resolver is deterministic.
 */
module FiscalConfig {
  import opened Wrappers
  import opened FiscalCalendar

  /** One record of the history: a fiscal year, its first day, and its month lengths. */
  datatype ConfigRecord = ConfigRecord(fiscalYear: int, startDate: int, monthLengths: seq<int>)

  /** Day number of 2018-02-04, the start of fiscal year 2018 in the default history. */
  const DefaultStart: int := 736729

  /** The history the restore-defaults operation writes: fiscal 2018 from 2018-02-04, default lengths. */
  const DefaultConfig: seq<ConfigRecord> := [ConfigRecord(2018, DefaultStart, DefaultMonthLengths)]

  const PastYearError: string := "Error: Cannot add a past fiscal year"

  /** Position of the first record, in list order, for the given fiscal year. */
  function IndexOfYear(config: seq<ConfigRecord>, year: int): (r: Option<nat>)
    ensures r.Some? ==> r.value < |config| && config[r.value].fiscalYear == year
    ensures r.Some? ==> forall j :: 0 <= j < r.value ==> config[j].fiscalYear != year
    ensures r.None? <==> forall j :: 0 <= j < |config| ==> config[j].fiscalYear != year
  {
    if config == [] then None
    else if config[0].fiscalYear == year then Some(0)
    else match IndexOfYear(config[1..], year)
      case None => None
      case Some(k) => Some(k + 1)
  }

  /**
   * Start of a fiscal year projected from the anchor: the anchor's own length for the first
   * year after it and 364 days for each further year; 364 days per year backwards.
   */
  function ProjectedStart(anchor: ConfigRecord, year: int): int {
    var k := year - anchor.fiscalYear;
    if year > anchor.fiscalYear then anchor.startDate + Sum(anchor.monthLengths) + (k - 1) * 364
    else anchor.startDate + k * 364
  }

  /** Start of a fiscal year: the first record's start if the year has one, else the projection. */
  function StartOf(config: seq<ConfigRecord>, year: int): int
    requires |config| > 0
  {
    match IndexOfYear(config, year)
    case Some(i) => config[i].startDate
    case None => ProjectedStart(config[0], year)
  }

  /** Month lengths of a fiscal year: the first record's lengths if it has one, else the default. */
  function LengthsOf(config: seq<ConfigRecord>, year: int): seq<int> {
    match IndexOfYear(config, year)
    case Some(i) => config[i].monthLengths
    case None => DefaultMonthLengths
  }

  /** Searches the history in order for the year, projecting from the anchor when no record matches. */
  method StartOfFiscalYear(config: seq<ConfigRecord>, year: int) returns (start: int)
    requires |config| > 0
    ensures start == StartOf(config, year)
  {
    for i := 0 to |config|
      invariant forall j :: 0 <= j < i ==> config[j].fiscalYear != year
    {
      if config[i].fiscalYear == year {
        return config[i].startDate;
      }
    }
    var anchor := config[0];
    var yearsSince := year - anchor.fiscalYear;
    var days;
    if year > anchor.fiscalYear {
      days := Sum(anchor.monthLengths) + (yearsSince - 1) * 364;
    } else {
      days := yearsSince * 364;
    }
    start := anchor.startDate + days;
  }

  /** Searches the history in order for the year, falling back to the default lengths. */
  method MonthLengthsOfFiscalYear(config: seq<ConfigRecord>, year: int) returns (lengths: seq<int>)
    ensures lengths == LengthsOf(config, year)
  {
    for i := 0 to |config|
      invariant forall j :: 0 <= j < i ==> config[j].fiscalYear != year
    {
      if config[i].fiscalYear == year {
        return config[i].monthLengths;
      }
    }
    return DefaultMonthLengths;
  }

  /** Integer division rounding toward zero, as `int(a / b)` does in the source. */
  function TruncDiv(a: int, b: int): int
    requires b > 0
  {
    if a >= 0 then a / b else -((-a) / b)
  }

  /**
   * The current fiscal year as the source computes it: whole 364-day periods elapsed since
   * one anchor length before the anchor start, rounded toward zero, minus one.
   */
  function CurrentFiscalYearAsWritten(config: seq<ConfigRecord>, today: int): (r: int)
    requires |config| > 0
    ensures Sum(config[0].monthLengths) == 364 && today >= config[0].startDate - 364 ==>
              ProjectedStart(config[0], r) <= today < ProjectedStart(config[0], r + 1)
  {
    var anchor := config[0];
    var elapsed := today - anchor.startDate + Sum(anchor.monthLengths);
    var r := anchor.fiscalYear + TruncDiv(elapsed, 364) - 1;
    assert elapsed >= 0 ==> r == CurrentFiscalYear(config, today);
    r
  }

  /**
   * The current fiscal year with the elapsed periods rounded down: for a 364-day anchor,
   * today lies in the projected span of the year returned, whichever side of the anchor it is.
   */
  function CurrentFiscalYear(config: seq<ConfigRecord>, today: int): (r: int)
    requires |config| > 0
    ensures Sum(config[0].monthLengths) == 364 ==>
              ProjectedStart(config[0], r) <= today < ProjectedStart(config[0], r + 1)
  {
    var anchor := config[0];
    var elapsed := today - anchor.startDate + Sum(anchor.monthLengths);
    var r := anchor.fiscalYear + elapsed / 364 - 1;
    assert Sum(anchor.monthLengths) == 364 ==>
             ProjectedStart(anchor, r) == anchor.startDate + (elapsed / 364 - 1) * 364;
    r
  }

  /** Week number of a date within its month of the given fiscal year, as a composition of the resolvers. */
  function WeekInYear(config: seq<ConfigRecord>, year: int, date: int): Option<int>
    requires |config| > 0
  {
    var fy := FiscalYearOf(year, StartOf(config, year), LengthsOf(config, year));
    match MonthContaining(fy, date)
    case None => None
    case Some(m) => WeekNumberIn(m, date)
  }

  /** Week number of a date within the current fiscal year, with the corrected rounding. */
  function WeekOfDate(config: seq<ConfigRecord>, today: int, date: int): Option<int>
    requires |config| > 0
  {
    WeekInYear(config, CurrentFiscalYear(config, today), date)
  }

  /** Week number of a date within the current fiscal year as the source resolves it, rounding toward zero. */
  function WeekOfDateAsWritten(config: seq<ConfigRecord>, today: int, date: int): Option<int>
    requires |config| > 0
  {
    WeekInYear(config, CurrentFiscalYearAsWritten(config, today), date)
  }

  /**
   * Resolves the current fiscal year, builds it, finds the month holding the date and
   * returns the first of weeks 1..5 of that month that holds it; None when there is none.
   */
  method WeekNumberOfFiscalMonth(config: seq<ConfigRecord>, today: int, date: int) returns (w: Option<int>)
    requires |config| > 0
    ensures w == WeekOfDate(config, today, date)
  {
    var fyNumber := CurrentFiscalYear(config, today);
    var fyStart := StartOfFiscalYear(config, fyNumber);
    var fyLengths := MonthLengthsOfFiscalYear(config, fyNumber);
    var fy := BuildFiscalYear(fyNumber, fyStart, fyLengths);
    var month := MonthOfDate(fy, date);
    match month {
      case None => w := None;
      case Some(m) => w := WeekNumberIn(m, date);
    }
  }

  /**
   * Adding a record: a year before the anchor's is refused; the anchor's own year replaces
   * the anchor's start and lengths; a later year goes in front, ahead of the old records.
   */
  function AddYear(config: seq<ConfigRecord>, data: ConfigRecord): (r: Result<seq<ConfigRecord>, string>)
    requires |config| > 0
    ensures r.Failure? <==> data.fiscalYear < config[0].fiscalYear
    ensures r.Failure? ==> r.error == PastYearError
    ensures data.fiscalYear == config[0].fiscalYear ==>
              r.Success? && |r.value| == |config| && r.value[1..] == config[1..] &&
              r.value[0] == ConfigRecord(config[0].fiscalYear, data.startDate, data.monthLengths)
    ensures data.fiscalYear > config[0].fiscalYear ==>
              r.Success? && |r.value| == |config| + 1 && r.value[0] == data && r.value[1..] == config
  {
    if data.fiscalYear < config[0].fiscalYear then Failure(PastYearError)
    else if data.fiscalYear == config[0].fiscalYear then
      Success([config[0].(startDate := data.startDate, monthLengths := data.monthLengths)] + config[1..])
    else Success([data] + config)
  }

  /** The stored history, changed only by restoring the defaults or adding a year. */
  class ConfigStore {
    var history: seq<ConfigRecord>

    constructor (history: seq<ConfigRecord>)
      ensures this.history == history
    {
      this.history := history;
    }

    /** Replaces the whole history with the single default record. */
    method RestoreDefault()
      modifies this
      ensures history == DefaultConfig
    {
      history := DefaultConfig;
    }

    /** Adds or updates a year in place; on refusal the history is left as it was. */
    method AddYearToConfig(data: ConfigRecord) returns (err: Option<string>)
      requires |history| > 0
      modifies this
      ensures data.fiscalYear < old(history)[0].fiscalYear ==>
                err == Some(PastYearError) && history == old(history)
      ensures data.fiscalYear >= old(history)[0].fiscalYear ==>
                err == None && history == AddYear(old(history), data).value
    {
      if data.fiscalYear < history[0].fiscalYear {
        return Some(PastYearError);
      } else if data.fiscalYear == history[0].fiscalYear {
        history := history[0 := history[0].(startDate := data.startDate, monthLengths := data.monthLengths)];
      } else {
        history := [data] + history;
      }
      err := None;
    }
  }
}
