/**
 * Civil dates as Python's `datetime.date` computes them: the proleptic
 * Gregorian calendar, `toordinal()` (day 1 is 0001-01-01), `weekday()`
 * (0 = Monday) and the `date +/- timedelta(days=n)` arithmetic the views use
 * to pick default date ranges.  Appointment dates elsewhere are ordinals.
 */
module Calendar {

  datatype Date = Date(year: int, month: int, day: int)

  predicate IsLeap(y: int) {
    y % 4 == 0 && (y % 100 != 0 || y % 400 == 0)
  }

  function DaysInMonth(y: int, m: int): (n: int)
    requires 1 <= m <= 12
    ensures 28 <= n <= 31
  {
    if m == 2 then (if IsLeap(y) then 29 else 28)
    else if m == 4 || m == 6 || m == 9 || m == 11 then 30
    else 31
  }

  /** Python dates start at year 1; the upper limit (year 9999) is not modelled. */
  predicate ValidDate(d: Date) {
    d.year >= 1 && 1 <= d.month <= 12 && 1 <= d.day <= DaysInMonth(d.year, d.month)
  }

  function DaysBeforeYear(y: int): (n: int)
    requires y >= 1
    ensures n >= 0
  {
    var k := y - 1;
    k * 365 + k / 4 - k / 100 + k / 400
  }

  function DaysBeforeMonth(y: int, m: int): (n: int)
    requires 1 <= m <= 12
    ensures n >= 0
  {
    var table := [0, 31, 59, 90, 120, 151, 181, 212, 243, 273, 304, 334];
    table[m - 1] + (if m > 2 && IsLeap(y) then 1 else 0)
  }

  /** `date.toordinal()`. */
  function ToOrdinal(d: Date): (o: int)
    requires ValidDate(d)
    ensures o >= d.day
    ensures d.year == 1 && d.month == 1 ==> o == d.day
  {
    DaysBeforeYear(d.year) + DaysBeforeMonth(d.year, d.month) + d.day
  }

  /** `date.weekday()` of the date with the given ordinal: 0 is Monday, 6 is Sunday. */
  function Weekday(ordinal: int): (w: int)
    ensures 0 <= w < 7
  {
    (ordinal + 6) % 7
  }

  function FirstOfNextMonth(d: Date): (r: Date)
    requires ValidDate(d)
    ensures ValidDate(r) && r.day == 1
  {
    if d.month == 12 then Date(d.year + 1, 1, 1) else Date(d.year, d.month + 1, 1)
  }

  function LastOfPreviousMonth(d: Date): (r: Date)
    requires ValidDate(d) && !(d.year == 1 && d.month == 1)
    ensures ValidDate(r) && r.day == DaysInMonth(r.year, r.month)
  {
    if d.month == 1 then Date(d.year - 1, 12, 31)
    else Date(d.year, d.month - 1, DaysInMonth(d.year, d.month - 1))
  }

  /** Counting the multiples of 4, 100 and 400 up to `y` gains one for each that `y` is. */
  lemma MultiplesStep(y: int)
    requires y >= 1
    ensures y / 4 == (y - 1) / 4 + (if y % 4 == 0 then 1 else 0)
    ensures y / 100 == (y - 1) / 100 + (if y % 100 == 0 then 1 else 0)
    ensures y / 400 == (y - 1) / 400 + (if y % 400 == 0 then 1 else 0)
  {
  }

  /** A multiple of 400 is a multiple of 100, and a multiple of 100 is a multiple of 4. */
  lemma MultiplesNest(y: int)
    ensures y % 400 == 0 ==> y % 100 == 0
    ensures y % 100 == 0 ==> y % 4 == 0
  {
  }

  lemma DaysBeforeNextYear(y: int)
    requires y >= 1
    ensures DaysBeforeYear(y + 1) == DaysBeforeYear(y) + 365 + (if IsLeap(y) then 1 else 0)
  {
    MultiplesStep(y);
    MultiplesNest(y);
  }

  lemma DaysBeforeNextMonth(y: int, m: int)
    requires 1 <= m < 12
    ensures DaysBeforeMonth(y, m + 1) == DaysBeforeMonth(y, m) + DaysInMonth(y, m)
  {
  }

  /** The day after the last day of a month is the first day of the next month. */
  lemma FirstOfNextMonthOrdinal(d: Date)
    requires ValidDate(d) && d.day == DaysInMonth(d.year, d.month)
    ensures ToOrdinal(FirstOfNextMonth(d)) == ToOrdinal(d) + 1
  {
    if d.month == 12 {
      DaysBeforeNextYear(d.year);
    } else {
      DaysBeforeNextMonth(d.year, d.month);
    }
  }

  /** The first day of a month (other than 0001-01) follows the last day of the previous month. */
  lemma LastOfPreviousMonthOrdinal(d: Date)
    requires ValidDate(d) && !(d.year == 1 && d.month == 1)
    ensures ToOrdinal(LastOfPreviousMonth(d)) == ToOrdinal(d) - d.day
  {
    var p := LastOfPreviousMonth(d);
    FirstOfNextMonthOrdinal(p);
    assert FirstOfNextMonth(p) == d.(day := 1);
  }

  /** `d + timedelta(days=n)`, walking month by month. */
  function AddDays(d: Date, n: nat): (r: Date)
    requires ValidDate(d)
    ensures ValidDate(r)
    decreases n
  {
    var dim := DaysInMonth(d.year, d.month);
    if d.day + n <= dim then d.(day := d.day + n)
    else AddDays(FirstOfNextMonth(d), n - (dim - d.day + 1))
  }

  /** `d - timedelta(days=n)`; Python raises OverflowError before 0001-01-01. */
  function SubDays(d: Date, n: nat): (r: Date)
    requires ValidDate(d) && n < ToOrdinal(d)
    ensures ValidDate(r)
    decreases n
  {
    if n < d.day then d.(day := d.day - n)
    else
      LastOfPreviousMonthOrdinal(d);
      SubDays(LastOfPreviousMonth(d), n - d.day)
  }

  /** Calendar arithmetic agrees with ordinal arithmetic. */
  lemma {:induction false} AddDaysOrdinal(d: Date, n: nat)
    requires ValidDate(d)
    ensures ToOrdinal(AddDays(d, n)) == ToOrdinal(d) + n
    decreases n
  {
    var dim := DaysInMonth(d.year, d.month);
    if d.day + n > dim {
      var last := d.(day := dim);
      FirstOfNextMonthOrdinal(last);
      assert FirstOfNextMonth(d) == FirstOfNextMonth(last);
      AddDaysOrdinal(FirstOfNextMonth(d), n - (dim - d.day + 1));
    }
  }

  lemma {:induction false} SubDaysOrdinal(d: Date, n: nat)
    requires ValidDate(d) && n < ToOrdinal(d)
    ensures ToOrdinal(SubDays(d, n)) == ToOrdinal(d) - n
    decreases n
  {
    if n >= d.day {
      LastOfPreviousMonthOrdinal(d);
      SubDaysOrdinal(LastOfPreviousMonth(d), n - d.day);
    }
  }

  /** `hoje - timedelta(days=hoje.weekday())`: the Monday of the week holding `today`. */
  function WeekStart(today: int): (s: int)
    ensures Weekday(s) == 0 && s <= today <= s + 6
  {
    today - Weekday(today)
  }

  /** The Monday found is the only Monday of a Monday..Sunday span holding `today`. */
  lemma WeekStartUnique(today: int, s: int)
    requires Weekday(s) == 0 && s <= today <= s + 6
    ensures s == WeekStart(today)
  {
    var w := WeekStart(today);
    assert (s + 6) % 7 == 0 && (w + 6) % 7 == 0;
    assert (s - w) % 7 == 0 by {
      assert s + 6 == 7 * ((s + 6) / 7);
      assert w + 6 == 7 * ((w + 6) / 7);
      assert s - w == 7 * ((s + 6) / 7 - (w + 6) / 7);
    }
  }

  lemma WeekEndIsSunday(today: int)
    ensures Weekday(WeekStart(today) + 6) == 6
  {
  }

  /** `hoje.replace(day=1)`. */
  function FirstOfMonth(d: Date): (r: Date)
    requires ValidDate(d)
    ensures ValidDate(r)
  {
    d.(day := 1)
  }

  /**
   * Month end as `lista_agendamentos` computes it:
   * `prox = inicio.replace(day=28) + timedelta(days=4)`, then `prox - timedelta(days=prox.day)`.
   */
  function MonthEndViaDay28(today: Date): (r: Date)
    requires ValidDate(today)
    ensures r == Date(today.year, today.month, DaysInMonth(today.year, today.month))
  {
    var start := FirstOfMonth(today);
    var next := AddDays(start.(day := 28), 4);
    AddDaysOrdinal(start.(day := 28), 4);
    SubDays(next, next.day)
  }

  /**
   * Month end as `lista_consultas_geral` computes it:
   * `prox = (inicio + timedelta(days=32)).replace(day=1)`, then `prox - timedelta(days=1)`.
   */
  function MonthEndVia32Days(today: Date): (r: Date)
    requires ValidDate(today)
    ensures r == Date(today.year, today.month, DaysInMonth(today.year, today.month))
  {
    var start := FirstOfMonth(today);
    var next := AddDays(start, 32).(day := 1);
    assert ToOrdinal(next) > 1;
    SubDays(next, 1)
  }

  /** `data__month == m and data__year == y` for the date with ordinal `o`. */
  predicate InMonth(o: int, y: int, m: int)
    requires y >= 1 && 1 <= m <= 12
  {
    ToOrdinal(Date(y, m, 1)) <= o <= ToOrdinal(Date(y, m, DaysInMonth(y, m)))
  }

  /** Every day of a month lies in that month's ordinal range, and the range holds nothing else. */
  lemma InMonthExactly(d: Date)
    requires ValidDate(d)
    ensures InMonth(ToOrdinal(d), d.year, d.month)
    ensures forall e :: ValidDate(e) && (e.year != d.year || e.month != d.month) ==> !InMonth(ToOrdinal(e), d.year, d.month)
  {
    forall e | ValidDate(e) && (e.year != d.year || e.month != d.month)
      ensures !InMonth(ToOrdinal(e), d.year, d.month)
    {
      OrdinalMonthOrder(e, d.year, d.month);
    }
  }

  /** A date of another month lies wholly before or wholly after a given month. */
  lemma OrdinalMonthOrder(e: Date, y: int, m: int)
    requires ValidDate(e) && y >= 1 && 1 <= m <= 12 && (e.year != y || e.month != m)
    ensures ToOrdinal(e) < ToOrdinal(Date(y, m, 1)) || ToOrdinal(e) > ToOrdinal(Date(y, m, DaysInMonth(y, m)))
  {
    if e.year < y || (e.year == y && e.month < m) {
      MonthStartsAfter(e, y, m);
    } else {
      MonthStartsAfter(Date(y, m, DaysInMonth(y, m)), e.year, e.month);
    }
  }

  /** Any date of an earlier month precedes the first day of (y, m). */
  lemma {:induction false} MonthStartsAfter(e: Date, y: int, m: int)
    requires ValidDate(e) && y >= 1 && 1 <= m <= 12
    requires e.year < y || (e.year == y && e.month < m)
    ensures ToOrdinal(e) < ToOrdinal(Date(y, m, 1))
    decreases y, m
  {
    var last := Date(e.year, e.month, DaysInMonth(e.year, e.month));
    FirstOfNextMonthOrdinal(last);
    var n := FirstOfNextMonth(last);
    if n.year != y || n.month != m {
      assert n.year < y || (n.year == y && n.month < m);
      var prev := LastOfPreviousMonth(Date(y, m, 1));
      LastOfPreviousMonthOrdinal(Date(y, m, 1));
      MonthStartsBefore(n, prev);
    }
  }

  /** Helper: a first-of-month in an earlier-or-equal month is at most a last-of-month. */
  lemma {:induction false} MonthStartsBefore(n: Date, p: Date)
    requires ValidDate(n) && ValidDate(p) && n.day == 1 && p.day == DaysInMonth(p.year, p.month)
    requires n.year < p.year || (n.year == p.year && n.month <= p.month)
    ensures ToOrdinal(n) <= ToOrdinal(p)
    decreases p.year - n.year, p.month - n.month + 12
  {
    if n.year == p.year && n.month == p.month {
    } else {
      var last := Date(n.year, n.month, DaysInMonth(n.year, n.month));
      FirstOfNextMonthOrdinal(last);
      MonthStartsBefore(FirstOfNextMonth(last), p);
    }
  }
}
