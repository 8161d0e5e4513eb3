/**
 * Calendar timestamps as .NET's `DateTime` stores them (year, month, day and
 * the ticks elapsed since midnight), their order, and `AddMonths(1)`.
 * The wall clock is never read here: every operation that stamps a time takes
 * `now` as a parameter.
 */
module Calendar {

  /** Number of 100-nanosecond ticks in a day. */
  const TicksPerDay: int := 864_000_000_000

  datatype DateTime = DateTime(year: int, month: int, day: int, tick: int)

  predicate IsLeapYear(year: int)
  {
    year % 4 == 0 && (year % 100 != 0 || year % 400 == 0)
  }

  function DaysInMonth(year: int, month: int): (r: int)
    ensures 28 <= r <= 31
  {
    if month == 2 then (if IsLeapYear(year) then 29 else 28)
    else if month == 4 || month == 6 || month == 9 || month == 11 then 30
    else 31
  }

  /** A well-formed timestamp (no upper bound on the year is modelled). */
  predicate IsValid(d: DateTime)
  {
    1 <= d.year && 1 <= d.month <= 12 && 1 <= d.day <= DaysInMonth(d.year, d.month)
    && 0 <= d.tick < TicksPerDay
  }

  /** `a < b`: `a` is strictly earlier than `b` (lexicographic on the fields). */
  predicate Before(a: DateTime, b: DateTime)
  {
    a.year < b.year
    || (a.year == b.year && a.month < b.month)
    || (a.year == b.year && a.month == b.month && a.day < b.day)
    || (a.year == b.year && a.month == b.month && a.day == b.day && a.tick < b.tick)
  }

  /** `a >= b`: the order used by `OrderByDescending` on dates. */
  predicate NotBefore(a: DateTime, b: DateTime)
  {
    !Before(a, b)
  }

  /**
   * `AddMonths(1)`: the next calendar month, same time of day, with the day
   * clamped to the last day of that month (January 31 + 1 month = February 28
   * or 29).
   */
  function AddOneMonth(d: DateTime): (r: DateTime)
    ensures IsValid(d) ==> IsValid(r)
    ensures Before(d, r)
    ensures r.tick == d.tick
  {
    var y := if d.month == 12 then d.year + 1 else d.year;
    var m := if d.month == 12 then 1 else d.month + 1;
    var last := DaysInMonth(y, m);
    DateTime(y, m, if d.day <= last then d.day else last, d.tick)
  }

  /** `Before` is a strict total order on timestamps. */
  lemma BeforeIsStrictTotalOrder(a: DateTime, b: DateTime, c: DateTime)
    ensures !Before(a, a)
    ensures Before(a, b) ==> !Before(b, a)
    ensures Before(a, b) && Before(b, c) ==> Before(a, c)
    ensures a != b ==> Before(a, b) || Before(b, a)
  {
  }

  /**
   * Clamping makes `AddOneMonth` not monotone in the time of day: January 30
   * at 00:00:01 and January 31 at 00:00:00 (2024) both land on February 29,
   * and the later start gets the earlier deadline.
   */
  lemma AddOneMonthClampReordersDeadlines()
    ensures var a := DateTime(2024, 1, 30, 10_000_000);
            var b := DateTime(2024, 1, 31, 0);
            IsValid(a) && IsValid(b) && Before(a, b)
            && AddOneMonth(a) == DateTime(2024, 2, 29, 10_000_000)
            && AddOneMonth(b) == DateTime(2024, 2, 29, 0)
            && Before(AddOneMonth(b), AddOneMonth(a))
  {
  }
}
