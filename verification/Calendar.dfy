/**
 * Months (lib_finance/reports.py, `_first_of` and `_add_months`). A day is the
 * integer that puts its year, month and day of the month in order, so that
 * days compare as dates do.
 */
module Calendar {
  import opened Tables

  /** `date(year, month, day)`. */
  function DateOf(year: int, month: int, day: int): Day {
    (12 * year + month - 1) * 31 + day - 1
  }

  function Year(d: Day): int {
    d / 31 / 12
  }

  function Month(d: Day): int {
    d / 31 % 12 + 1
  }

  function DayOfMonth(d: Day): int {
    d % 31 + 1
  }

  /** `day.replace(day=1)`. */
  function FirstOf(d: Day): Day {
    DateOf(Year(d), Month(d), 1)
  }

  function AddMonths(month: Day, count: int): Day {
    var index := Year(month) * 12 + Month(month) - 1 + count;
    DateOf(index / 12, index % 12 + 1, 1)
  }

  predicate IsFirst(d: Day) {
    FirstOf(d) == d
  }

  /** How many months from the month of `a` to the month of `b`. */
  function MonthsBetween(a: Day, b: Day): int {
    Year(b) * 12 + Month(b) - (Year(a) * 12 + Month(a))
  }

  lemma DateReadsBack(year: int, month: int, day: int)
    requires 1 <= month <= 12 && 1 <= day <= 31
    ensures var d := DateOf(year, month, day); Year(d) == year && Month(d) == month && DayOfMonth(d) == day
  {
    assert ((12 * year + month - 1) * 31 + day - 1) / 31 == 12 * year + month - 1;
  }

  lemma DayIsItsDate(d: Day)
    ensures d == DateOf(Year(d), Month(d), DayOfMonth(d)) && 1 <= Month(d) <= 12
  {
  }

  /** Days are in the order of their year, month and day of the month. */
  lemma InOrder(a: Day, b: Day)
    ensures a < b <==>
            || Year(a) < Year(b)
            || (Year(a) == Year(b) && (Month(a) < Month(b) || (Month(a) == Month(b) && DayOfMonth(a) < DayOfMonth(b))))
  {
  }

  /** Adding months lands on the first of the month that many months away. */
  lemma AddMonthsMoves(month: Day, count: int)
    ensures IsFirst(AddMonths(month, count))
    ensures MonthsBetween(month, AddMonths(month, count)) == count
  {
    var index := Year(month) * 12 + Month(month) - 1 + count;
    DateReadsBack(index / 12, index % 12 + 1, 1);
  }

  lemma AddMonthsAdds(month: Day, a: int, c: int)
    ensures AddMonths(AddMonths(month, a), c) == AddMonths(month, a + c)
  {
    AddMonthsMoves(month, a);
  }

  /** The months tile the calendar: a day is in the month that starts on `m`
    * exactly when it is from `m` up to the day before the next month. */
  lemma MonthSpans(m: Day, d: Day)
    requires IsFirst(m)
    ensures FirstOf(d) == m <==> m <= d < AddMonths(m, 1)
    ensures FirstOf(d) == m <==> Year(d) == Year(m) && Month(d) == Month(m)
    ensures m < AddMonths(m, 1)
  {
    AddMonthsMoves(m, 1);
    DayIsItsDate(m);
  }

  lemma FirstIsFirst(d: Day)
    ensures IsFirst(FirstOf(d)) && Year(FirstOf(d)) == Year(d) && Month(FirstOf(d)) == Month(d) && FirstOf(d) <= d
  {
    DateReadsBack(Year(d), Month(d), 1);
  }

  /** Firsts are in the order of the months between them. */
  lemma FirstsInOrder(a: Day, b: Day)
    requires IsFirst(a) && IsFirst(b)
    ensures a <= b <==> MonthsBetween(a, b) >= 0
    ensures b == AddMonths(a, MonthsBetween(a, b))
  {
    AddMonthsMoves(a, MonthsBetween(a, b));
  }
}
