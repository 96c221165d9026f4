/**
 * Gregorian calendar dates with the arithmetic the period resolver relies on:
 * stepping back whole months with the day clamped to the end of a shorter
 * month (Ruby's `Date#>>` with a negative count, which ActiveSupport's
 * `- 1.month` and `- 1.year` use), stepping back one day, and comparing a date
 * with a moment in time (the date stands for its midnight).
 */
module Calendar {

  datatype Date = Date(year: int, month: int, day: int)
  {
    predicate Valid()
    {
      1 <= month <= 12 && 1 <= day <= DaysInMonth(year, month)
    }
  }

  type CalendarDate = d: Date | d.Valid() witness Date(2000, 1, 1)

  type SecondOfDay = s: int | 0 <= s < 86400

  /** A point in time, in the application's single time zone. */
  datatype Moment = Moment(date: CalendarDate, second: SecondOfDay)

  predicate IsLeapYear(year: int)
  {
    year % 4 == 0 && (year % 100 != 0 || year % 400 == 0)
  }

  function DaysInMonth(year: int, month: int): (n: int)
    requires 1 <= month <= 12
    ensures 28 <= n <= 31
    ensures n == 29 <==> month == 2 && IsLeapYear(year)
  {
    if month == 2 then (if IsLeapYear(year) then 29 else 28)
    else if month == 4 || month == 6 || month == 9 || month == 11 then 30
    else 31
  }

  /** Strict chronological order of dates. */
  predicate Before(a: Date, b: Date)
  {
    a.year < b.year
    || (a.year == b.year && (a.month < b.month || (a.month == b.month && a.day < b.day)))
  }

  /** The later of two dates. */
  function Later(a: CalendarDate, b: CalendarDate): (r: CalendarDate)
    ensures r == a || r == b
    ensures !Before(r, a) && !Before(r, b)
  {
    if Before(a, b) then b else a
  }

  /** The midnight that starts date `d` is earlier than moment `m`. */
  predicate DateBeforeMoment(d: Date, m: Moment)
  {
    Before(d, m.date) || (d == m.date && m.second > 0)
  }

  /** Months elapsed since January of year 0. */
  function MonthIndex(d: Date): int
  {
    d.year * 12 + d.month - 1
  }

  /**
   * The date `k` months before `d`: the same day of the month, or the last day
   * of the target month when that month is too short.
   */
  function MonthsEarlier(d: CalendarDate, k: nat): (r: CalendarDate)
    ensures MonthIndex(r) == MonthIndex(d) - k
    ensures d.day <= DaysInMonth(r.year, r.month) ==> r.day == d.day
    ensures d.day > DaysInMonth(r.year, r.month) ==> r.day == DaysInMonth(r.year, r.month)
  {
    var index := MonthIndex(d) - k;
    var year := index / 12;
    var month := index % 12 + 1;
    var last := DaysInMonth(year, month);
    Date(year, month, if d.day <= last then d.day else last)
  }

  /** Going back at least one month lands strictly before the date. */
  lemma MonthsEarlierIsBefore(d: CalendarDate, k: nat)
    requires k >= 1
    ensures Before(MonthsEarlier(d, k), d)
  {
    var r := MonthsEarlier(d, k);
    assert r.year * 12 + r.month < d.year * 12 + d.month;
    if r.year >= d.year {
      assert r.year * 12 >= d.year * 12;
    }
  }

  /**
   * One year back is the same month of the previous year, on the same day
   * except that 29 February becomes 28 February.
   */
  lemma YearEarlier(d: CalendarDate)
    ensures MonthsEarlier(d, 12).year == d.year - 1
    ensures MonthsEarlier(d, 12).month == d.month
    ensures MonthsEarlier(d, 12).day == if d.month == 2 && d.day == 29 then 28 else d.day
  {
    var r := MonthsEarlier(d, 12);
    assert r.year * 12 + r.month == (d.year - 1) * 12 + d.month;
    assert r.year == d.year - 1 && r.month == d.month;
    if d.month == 2 && d.day == 29 {
      assert IsLeapYear(d.year);
      assert !IsLeapYear(d.year - 1);
    }
  }

  /** The calendar day before `d`. */
  function PreviousDay(d: CalendarDate): (r: CalendarDate)
    ensures Before(r, d)
  {
    if d.day > 1 then Date(d.year, d.month, d.day - 1)
    else if d.month > 1 then Date(d.year, d.month - 1, DaysInMonth(d.year, d.month - 1))
    else Date(d.year - 1, 12, 31)
  }

  /** No date lies strictly between the previous day and the day itself. */
  lemma PreviousDayIsImmediate(d: CalendarDate, e: CalendarDate)
    requires Before(PreviousDay(d), e)
    ensures !Before(e, d)
  {
  }

  /** Every date earlier than `d` is at the latest the previous day. */
  lemma BeforeMeansAtMostPreviousDay(d: CalendarDate, e: CalendarDate)
    requires Before(e, d)
    ensures !Before(PreviousDay(d), e)
  {
    if Before(PreviousDay(d), e) {
      PreviousDayIsImmediate(d, e);
    }
  }
}
