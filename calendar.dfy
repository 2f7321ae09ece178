/**
 * Calendar geometry of a 4-4-5 fiscal calendar: a fiscal year of 364 days split into
 * months of given lengths, each month seen as a run of 7-day weeks.
 *
 * Dates are day numbers (see module Dates). Fiscal years, months and weeks are never
 * changed after they are built, so they are values here.
 */
module FiscalCalendar {
  import opened Wrappers

  /** The month lengths used when no record gives others: four weeks, five weeks, four weeks, ... */
  const DefaultMonthLengths: seq<int> := [28, 35, 28, 28, 35, 28, 28, 35, 28, 28, 35, 28]

  /** Sum of a sequence of day counts. */
  function Sum(s: seq<int>): int {
    if s == [] then 0 else Sum(s[..|s| - 1]) + s[|s| - 1]
  }

  /** A 7-day week, from `start` to `end` inclusive. */
  datatype FiscalWeek = FiscalWeek(number: int, start: int, end: int) {
    predicate Contains(date: int) {
      start <= date <= end
    }
  }

  /** A week as the source's constructor builds it: it ends six days after it starts. */
  function NewWeek(number: int, start: int): FiscalWeek {
    FiscalWeek(number, start, start + 6)
  }

  /**
   * A fiscal month from `start` to `end` inclusive. Its `length` is the nominal length
   * given by its number, whatever span it was actually built with.
   */
  datatype FiscalMonth = FiscalMonth(number: int, start: int, end: int, length: int) {
    predicate Contains(date: int) {
      start <= date <= end
    }

    /** Week n, placed 7*(n-1) days after the month start and not clipped to the month. */
    function Week(n: int): FiscalWeek {
      NewWeek(n, start + (7 * n - 7))
    }
  }

  /** The nominal length of month n: 35 days for months 2, 5, 8 and 11, otherwise 28. */
  function NominalLength(number: int): int {
    if number in {2, 5, 8, 11} then 35 else 28
  }

  /** A month as the source's constructor builds it. */
  function NewMonth(number: int, start: int, end: int): FiscalMonth {
    FiscalMonth(number, start, end, NominalLength(number))
  }

  /** A fiscal year: its number, its first and last day, and its months in order. */
  datatype FiscalYear = FiscalYear(year: int, start: int, end: int, months: seq<FiscalMonth>)

  /**
   * Reference layout of the months: month i+1 starts after the first i lengths have
   * elapsed and ends the day before month i+2 starts.
   */
  function Months(start: int, lengths: seq<int>): (ms: seq<FiscalMonth>)
    ensures |ms| == |lengths|
  {
    seq(|lengths|, i requires 0 <= i < |lengths| =>
      NewMonth(i + 1, start + Sum(lengths[..i]), start + Sum(lengths[..i + 1]) - 1))
  }

  /** Reference value of the fiscal year built from a start date and month lengths. */
  function FiscalYearOf(year: int, start: int, lengths: seq<int>): FiscalYear {
    FiscalYear(year, start, start + 363, Months(start, lengths))
  }

  lemma SumSnoc(s: seq<int>, i: nat)
    requires i < |s|
    ensures Sum(s[..i + 1]) == Sum(s[..i]) + s[i]
  {
    assert s[..i + 1][..i] == s[..i];
  }

  /**
   * Builds a fiscal year month by month, each month starting the day after the previous
   * one ends; the result is the reference layout.
   */
  method BuildFiscalYear(year: int, start: int, lengths: seq<int>) returns (fy: FiscalYear)
    ensures fy == FiscalYearOf(year, start, lengths)
  {
    ghost var layout := Months(start, lengths);
    var months: seq<FiscalMonth> := [];
    var startOfMonth := start;
    var n := 0;
    while n < |lengths|
      invariant 0 <= n <= |lengths|
      invariant startOfMonth == start + Sum(lengths[..n])
      invariant months == layout[..n]
    {
      var endOfMonth := startOfMonth + lengths[n] - 1;
      SumSnoc(lengths, n);
      assert layout[n] == NewMonth(n + 1, startOfMonth, endOfMonth);
      assert layout[..n + 1] == layout[..n] + [layout[n]];
      months := months + [NewMonth(n + 1, startOfMonth, endOfMonth)];
      startOfMonth := endOfMonth + 1;
      n := n + 1;
    }
    assert months == layout;
    fy := FiscalYear(year, start, start + 363, months);
  }

  /** Index of the first month, in order, that contains the date. */
  function FirstContaining(months: seq<FiscalMonth>, date: int): (r: Option<nat>)
    ensures r.Some? ==> r.value < |months| && months[r.value].Contains(date)
    ensures r.Some? ==> forall j :: 0 <= j < r.value ==> !months[j].Contains(date)
    ensures r.None? <==> forall j :: 0 <= j < |months| ==> !months[j].Contains(date)
  {
    if months == [] then None
    else if months[0].Contains(date) then Some(0)
    else match FirstContaining(months[1..], date)
      case None => None
      case Some(k) => Some(k + 1)
  }

  /** The month of a fiscal year that contains the date, if any. */
  function MonthContaining(fy: FiscalYear, date: int): Option<FiscalMonth> {
    match FirstContaining(fy.months, date)
    case None => None
    case Some(i) => Some(fy.months[i])
  }

  /** Scans the months in order and stops at the first one that contains the date. */
  method MonthOfDate(fy: FiscalYear, date: int) returns (r: Option<FiscalMonth>)
    ensures r == MonthContaining(fy, date)
    ensures r.Some? ==> r.value in fy.months && r.value.Contains(date)
  {
    for i := 0 to |fy.months|
      invariant forall j :: 0 <= j < i ==> !fy.months[j].Contains(date)
    {
      if fy.months[i].Contains(date) {
        return Some(fy.months[i]);
      }
    }
    return None;
  }

  /** The month containing `today`; the current date is a parameter. */
  method CurrentFiscalMonth(fy: FiscalYear, today: int) returns (r: Option<FiscalMonth>)
    ensures r == MonthContaining(fy, today)
  {
    r := MonthOfDate(fy, today);
  }

  /**
   * Month n, read as the source indexes its list with n-1: 1..|months| in order,
   * and, as Python does for negative indexes, 0 and below counting from the end.
   */
  function Month(fy: FiscalYear, n: int): Option<FiscalMonth> {
    var i := n - 1;
    if 0 <= i < |fy.months| then Some(fy.months[i])
    else if -|fy.months| <= i < 0 then Some(fy.months[|fy.months| + i])
    else None
  }

  /** Smallest week number x in first..5 whose week contains the date. */
  function FirstWeekFrom(m: FiscalMonth, date: int, first: int): (r: Option<int>)
    requires 1 <= first <= 6
    ensures r.Some? ==> first <= r.value <= 5 && m.Week(r.value).Contains(date)
    ensures r.Some? ==> forall x :: first <= x < r.value ==> !m.Week(x).Contains(date)
    ensures r.None? <==> forall x :: first <= x <= 5 ==> !m.Week(x).Contains(date)
    decreases 6 - first
  {
    if first == 6 then None
    else if m.Week(first).Contains(date) then Some(first)
    else FirstWeekFrom(m, date, first + 1)
  }

  /** The week number, 1 to 5, of the date within the month, if one of those weeks holds it. */
  function WeekNumberIn(m: FiscalMonth, date: int): Option<int> {
    FirstWeekFrom(m, date, 1)
  }
}
