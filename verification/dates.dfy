/** Calendar days.

    A Python `date` is modelled by its proleptic ordinal (`date.toordinal()`),
    for which day 1 is Monday 0001-01-01. `date.weekday()` numbers Monday 0
    through Sunday 6, and adding a `timedelta(days=k)` adds `k` to the ordinal.
    Where the source formats a date (`strftime`), the model takes the civil
    year, month and day instead.
 */
module Dates {

  type Day = int

  /** `date.weekday()`: Monday 0 ... Sunday 6. */
  function Weekday(d: Day): (w: nat)
    ensures w < 7
    ensures (d - 1 - w) % 7 == 0
  {
    (d - 1) % 7
  }

  /** Weekdays repeat every seven days, and consecutive days have consecutive
      weekdays. */
  lemma WeekdayPeriodic(d: Day)
    ensures Weekday(d + 7) == Weekday(d)
    ensures Weekday(d + 1) == (Weekday(d) + 1) % 7
  {
  }

  /** `fecha - timedelta(days=fecha.weekday())`: the Monday of `d`'s week. */
  function MondayOf(d: Day): (m: Day)
    ensures Weekday(m) == 0
    ensures m <= d < m + 7
    ensures d - m == Weekday(d)
  {
    d - Weekday(d)
  }

  /** Every day of a Monday-based week has that same Monday. */
  lemma MondayOfWeek(m: Day, k: nat)
    requires Weekday(m) == 0 && k < 7
    ensures MondayOf(m + k) == m
    ensures Weekday(m + k) == k
  {
  }

  /** `(w - d.weekday()) % 7` with Python's non-negative remainder: the days
      from `d` until the next day (today included) with weekday `w`. */
  function DaysUntil(d: Day, w: nat): (k: nat)
    requires w < 7
    ensures k < 7
    ensures Weekday(d + k) == w
  {
    var k := (w - Weekday(d)) % 7;
    assert (d + k - 1) % 7 == w by {
      assert (d - 1 - Weekday(d)) % 7 == 0;
      assert (w - Weekday(d) - k) % 7 == 0;
    }
    k
  }

  /** A civil date as `strftime` sees it. */
  datatype CivilDate = CivilDate(year: nat, month: nat, day: nat)

  predicate IsLeapYear(y: nat) {
    (y % 4 == 0 && y % 100 != 0) || y % 400 == 0
  }

  function DaysInMonth(y: nat, m: nat): nat
    requires 1 <= m <= 12
  {
    if m == 2 then (if IsLeapYear(y) then 29 else 28)
    else if m == 4 || m == 6 || m == 9 || m == 11 then 30
    else 31
  }

  /** The dates a Python `date` can hold. */
  predicate ValidDate(d: CivilDate) {
    1 <= d.year <= 9999 && 1 <= d.month <= 12 && 1 <= d.day <= DaysInMonth(d.year, d.month)
  }
}
