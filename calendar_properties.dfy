/**
 * Properties of the fiscal calendar geometry: months are numbered in order and laid end
 * to end, lengths summing to 364 make them tile the fiscal year, the month lookup finds
 * the one month holding a date exactly when the date lies in the year, and week numbers
 * follow from the distance to the month start.
 */
module CalendarProperties {
  import opened Wrappers
  import opened FiscalCalendar

  predicate AllPositive(lengths: seq<int>) {
    forall i :: 0 <= i < |lengths| ==> lengths[i] >= 1
  }

  /** Prefix sums of positive lengths grow strictly. */
  lemma {:induction false} PrefixSumsIncrease(lengths: seq<int>, i: nat, j: nat)
    requires AllPositive(lengths)
    requires i < j <= |lengths|
    ensures Sum(lengths[..i]) + (j - i) <= Sum(lengths[..j])
    decreases j - i
  {
    SumSnoc(lengths, j - 1);
    if i < j - 1 {
      PrefixSumsIncrease(lengths, i, j - 1);
    }
  }

  /** Month i+1 is numbered i+1 and spans exactly lengths[i] days, directly after month i. */
  lemma MonthsLaidEndToEnd(start: int, lengths: seq<int>, i: nat)
    requires i < |lengths|
    ensures Months(start, lengths)[i].number == i + 1
    ensures i == 0 ==> Months(start, lengths)[i].start == start
    ensures Months(start, lengths)[i].end == Months(start, lengths)[i].start + lengths[i] - 1
    ensures i + 1 < |lengths| ==> Months(start, lengths)[i + 1].start == Months(start, lengths)[i].end + 1
  {
    MonthSpan(start, lengths, i);
    SumSnoc(lengths, i);
    if i == 0 {
      assert lengths[..0] == [];
    }
    if i + 1 < |lengths| {
      MonthSpan(start, lengths, i + 1);
    }
  }

  /** With lengths summing to 364, the last month ends on the last day of the year. */
  lemma MonthsTileYear(year: int, start: int, lengths: seq<int>)
    requires |lengths| > 0 && Sum(lengths) == 364
    ensures FiscalYearOf(year, start, lengths).end == start + 363
    ensures FiscalYearOf(year, start, lengths).months[0].start == start
    ensures FiscalYearOf(year, start, lengths).months[|lengths| - 1].end
            == FiscalYearOf(year, start, lengths).end
  {
    MonthsLaidEndToEnd(start, lengths, 0);
    MonthSpan(start, lengths, |lengths| - 1);
    SumWhole(lengths);
  }

  lemma SumWhole(s: seq<int>)
    ensures Sum(s[..|s|]) == Sum(s)
  {
    assert s[..|s|] == s;
  }

  /** Months built from positive lengths never overlap: an earlier month ends before a later one starts. */
  lemma MonthsDisjoint(start: int, lengths: seq<int>, i: nat, j: nat)
    requires AllPositive(lengths)
    requires i < j < |lengths|
    ensures Months(start, lengths)[i].end < Months(start, lengths)[j].start
  {
    MonthSpan(start, lengths, i);
    MonthSpan(start, lengths, j);
    if i + 1 < j {
      PrefixSumsIncrease(lengths, i + 1, j);
    }
  }

  /** Every offset below the total falls in exactly the span of some month. */
  lemma {:induction false} OffsetInSomeMonth(lengths: seq<int>, x: int) returns (i: nat)
    requires AllPositive(lengths)
    requires 0 <= x < Sum(lengths)
    ensures i < |lengths| && Sum(lengths[..i]) <= x < Sum(lengths[..i + 1])
  {
    var n := |lengths|;
    var init := lengths[..n - 1];
    assert lengths == init + [lengths[n - 1]];
    assert lengths[..n] == lengths;
    if x >= Sum(init) {
      i := n - 1;
    } else {
      assert AllPositive(init);
      i := OffsetInSomeMonth(init, x);
      assert init[..i] == lengths[..i];
      assert init[..i + 1] == lengths[..i + 1];
    }
  }

  /** Where month i+1 starts and ends, in prefix sums of the lengths. */
  lemma MonthSpan(start: int, lengths: seq<int>, i: nat)
    requires i < |lengths|
    ensures Months(start, lengths)[i].start == start + Sum(lengths[..i])
    ensures Months(start, lengths)[i].end == start + Sum(lengths[..i + 1]) - 1
  {
  }

  /** A prefix sum of positive lengths lies between 0 and the total. */
  lemma PrefixSumWithinTotal(lengths: seq<int>, i: nat)
    requires AllPositive(lengths)
    requires i <= |lengths|
    ensures 0 <= Sum(lengths[..i]) <= Sum(lengths)
  {
    SumWhole(lengths);
    assert lengths[..0] == [];
    if i < |lengths| {
      PrefixSumsIncrease(lengths, i, |lengths|);
    }
    if 0 < i {
      PrefixSumsIncrease(lengths, 0, i);
    }
  }

  /** With positive lengths summing to 364, every month lies within [start, start + 363]. */
  lemma MonthWithinYear(start: int, lengths: seq<int>, i: nat)
    requires AllPositive(lengths) && Sum(lengths) == 364
    requires i < |lengths|
    ensures start <= Months(start, lengths)[i].start
    ensures Months(start, lengths)[i].end <= start + 363
  {
    MonthSpan(start, lengths, i);
    PrefixSumWithinTotal(lengths, i);
    PrefixSumWithinTotal(lengths, i + 1);
  }

  /** Two months built from positive lengths that both contain a date are the same month. */
  lemma OnlyOneMonthContains(start: int, lengths: seq<int>, i: nat, k: nat, date: int)
    requires AllPositive(lengths)
    requires i < |lengths| && k < |lengths|
    requires Months(start, lengths)[i].Contains(date) && Months(start, lengths)[k].Contains(date)
    ensures i == k
  {
    if k < i {
      MonthsDisjoint(start, lengths, k, i);
    } else if i < k {
      MonthsDisjoint(start, lengths, i, k);
    }
  }

  /** With positive lengths summing to 364, each day of [start, start + 363] lies in some month. */
  lemma DayInSomeMonth(start: int, lengths: seq<int>, date: int) returns (i: nat)
    requires AllPositive(lengths) && Sum(lengths) == 364
    requires start <= date <= start + 363
    ensures i < |lengths| && Months(start, lengths)[i].Contains(date)
  {
    i := OffsetInSomeMonth(lengths, date - start);
    MonthSpan(start, lengths, i);
  }

  /**
   * With positive lengths summing to 364, the lookup finds a month exactly when the date
   * lies within [start, start + 363], and the month it finds is the only one holding it.
   */
  lemma MonthOfDateInYear(year: int, start: int, lengths: seq<int>, date: int)
    requires AllPositive(lengths) && Sum(lengths) == 364
    ensures MonthContaining(FiscalYearOf(year, start, lengths), date).Some?
            <==> start <= date <= start + 363
    ensures MonthContaining(FiscalYearOf(year, start, lengths), date).Some? ==>
              var m := MonthContaining(FiscalYearOf(year, start, lengths), date).value;
              m.Contains(date) &&
              forall k :: 0 <= k < |lengths| && Months(start, lengths)[k].Contains(date) ==>
                Months(start, lengths)[k] == m
  {
    var ms := Months(start, lengths);
    match FirstContaining(ms, date) {
      case None =>
        if start <= date <= start + 363 {
          var i := DayInSomeMonth(start, lengths, date);
        }
      case Some(i) =>
        MonthWithinYear(start, lengths, i);
        forall k | 0 <= k < |lengths| && ms[k].Contains(date)
          ensures ms[k] == ms[i]
        {
          OnlyOneMonthContains(start, lengths, i, k, date);
        }
    }
  }

  /** With positive lengths summing to 364, a date inside month i+1 is looked up in that month. */
  lemma MonthOfDayInMonth(year: int, start: int, lengths: seq<int>, i: nat, date: int)
    requires AllPositive(lengths) && Sum(lengths) == 364
    requires i < |lengths| && Months(start, lengths)[i].Contains(date)
    ensures MonthContaining(FiscalYearOf(year, start, lengths), date) == Some(Months(start, lengths)[i])
  {
    MonthOfDateInYear(year, start, lengths, date);
    MonthWithinYear(start, lengths, i);
  }

  /** In a month of at most 35 days, a date of the month is in week (date - month start) / 7 + 1. */
  lemma WeekOfDayInMonth(start: int, lengths: seq<int>, i: nat, date: int)
    requires i < |lengths| && lengths[i] <= 35
    requires Months(start, lengths)[i].Contains(date)
    ensures WeekNumberIn(Months(start, lengths)[i], date)
            == Some((date - Months(start, lengths)[i].start) / 7 + 1)
  {
    MonthsLaidEndToEnd(start, lengths, i);
    WeekNumberFormula(Months(start, lengths)[i], date);
  }

  /**
   * Month n exists for 1 <= n <= |months| and carries number n; as with Python's negative
   * indexes, n in 1-|months|..0 yields month |months|+n; any other n yields nothing.
   */
  lemma MonthNumbered(year: int, start: int, lengths: seq<int>, n: int)
    ensures Month(FiscalYearOf(year, start, lengths), n).Some? <==> 1 - |lengths| <= n <= |lengths|
    ensures 1 <= n <= |lengths| ==> Month(FiscalYearOf(year, start, lengths), n).value.number == n
    ensures 1 - |lengths| <= n <= 0 ==>
              Month(FiscalYearOf(year, start, lengths), n).value.number == |lengths| + n
  {
  }

  /** With the default lengths, each month's nominal length is its real span. */
  lemma NominalLengthMatchesDefault(start: int, i: nat)
    requires i < 12
    ensures Months(start, DefaultMonthLengths)[i].length
            == Months(start, DefaultMonthLengths)[i].end - Months(start, DefaultMonthLengths)[i].start + 1
  {
    MonthsLaidEndToEnd(start, DefaultMonthLengths, i);
  }

  /** With other lengths it need not be: a 35-day first month still reports 28 days. */
  lemma NominalLengthIgnoresSpan(start: int)
    ensures var ms := Months(start, [35, 28, 28, 28, 35, 28, 28, 35, 28, 28, 35, 28]);
            ms[0].length == 28 && ms[0].end - ms[0].start + 1 == 35
  {
    MonthsLaidEndToEnd(start, [35, 28, 28, 28, 35, 28, 28, 35, 28, 28, 35, 28], 0);
  }

  /** Weeks are 7 days long, week 1 starts with the month, and each week follows the previous one. */
  lemma WeeksLaidEndToEnd(m: FiscalMonth, n: int)
    ensures m.Week(1).start == m.start
    ensures m.Week(n).end == m.Week(n).start + 6 && m.Week(n).number == n
    ensures m.Week(n + 1).start == m.Week(n).end + 1
  {
  }

  /** The week number of a date is its distance from the month start in whole weeks, plus one. */
  lemma WeekNumberFormula(m: FiscalMonth, date: int)
    ensures WeekNumberIn(m, date)
            == if m.start <= date <= m.start + 34 then Some((date - m.start) / 7 + 1) else None
  {
    var off := date - m.start;
    if 0 <= off <= 34 {
      var w := off / 7 + 1;
      assert 1 <= w <= 5;
      assert m.Week(w).Contains(date);
      forall x | 1 <= x < w ensures !m.Week(x).Contains(date) { }
    }
  }
}
