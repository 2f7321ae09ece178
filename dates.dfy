/**
 * Calendar dates.
 *
 * The rest of the model represents a date by its day number (the proleptic Gregorian
 * ordinal, day 1 being 0001-01-01, as Python's `date.toordinal` counts), so that adding
 * a `timedelta` of k days is adding k. The containment tests of the source compare
 * dates through the decimal key `year*10000 + month*100 + day`; this module shows that
 * this key orders dates exactly as the calendar does, which is why the model may compare
 * day numbers instead.
 */
module Dates {

  datatype CalendarDate = CalendarDate(year: int, month: int, day: int)

  /** Month and day are in the ranges any Gregorian date has. */
  predicate InRange(c: CalendarDate) {
    1 <= c.month <= 12 && 1 <= c.day <= 31
  }

  /** Calendar order: by year, then month, then day. */
  predicate NotAfter(a: CalendarDate, b: CalendarDate) {
    a.year < b.year ||
    (a.year == b.year && (a.month < b.month || (a.month == b.month && a.day <= b.day)))
  }

  /** The comparison key the source computes for a date. */
  function DateKey(c: CalendarDate): int {
    c.year * 10000 + c.month * 100 + c.day
  }

  /** The source's inclusive range test, written on keys. */
  predicate KeyWithin(start: CalendarDate, end: CalendarDate, date: CalendarDate) {
    DateKey(start) <= DateKey(date) <= DateKey(end)
  }

  /** Comparing keys is comparing dates in calendar order. */
  lemma DateKeyOrder(a: CalendarDate, b: CalendarDate)
    requires InRange(a) && InRange(b)
    ensures DateKey(a) <= DateKey(b) <==> NotAfter(a, b)
  {
    var ra, rb := a.month * 100 + a.day, b.month * 100 + b.day;
    assert 101 <= ra <= 1231 && 101 <= rb <= 1231;
    assert ra <= rb <==> (a.month < b.month || (a.month == b.month && a.day <= b.day));
  }

  /** Hence the key range test is the calendar range test. */
  lemma KeyWithinIsCalendarRange(start: CalendarDate, end: CalendarDate, date: CalendarDate)
    requires InRange(start) && InRange(end) && InRange(date)
    ensures KeyWithin(start, end, date) <==> NotAfter(start, date) && NotAfter(date, end)
  {
    DateKeyOrder(start, date);
    DateKeyOrder(date, end);
  }
}
