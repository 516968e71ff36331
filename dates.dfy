/** The part of Python's `datetime.date` the roll-up uses: the proleptic
    Gregorian calendar over years 1..9999, `replace(day=1)`, adding and
    subtracting whole days (with `OverflowError` outside the year range),
    ordering, and the English `%B` month names. */
module Dates {
  import opened Wrappers

  datatype Date = Date(year: int, month: int, day: int)

  const MinYear := 1
  const MaxYear := 9999

  predicate IsLeapYear(y: int)
  {
    y % 4 == 0 && (y % 100 != 0 || y % 400 == 0)
  }

  function DaysInMonth(y: int, m: int): (n: int)
    ensures 28 <= n <= 31
    ensures m == 2 ==> (n == 29 <==> IsLeapYear(y)) && (n == 28 <==> !IsLeapYear(y))
  {
    if m == 2 then (if IsLeapYear(y) then 29 else 28)
    else if m == 4 || m == 6 || m == 9 || m == 11 then 30
    else 31
  }

  predicate IsValid(d: Date)
  {
    MinYear <= d.year <= MaxYear && 1 <= d.month <= 12 && 1 <= d.day <= DaysInMonth(d.year, d.month)
  }

  /** A value of `datetime.date`. */
  type ValidDate = d: Date | IsValid(d) witness Date(1, 1, 1)

  /** `a <= b` on dates: chronological order. */
  predicate LessOrEqual(a: Date, b: Date)
  {
    a.year < b.year || (a.year == b.year && (a.month < b.month || (a.month == b.month && a.day <= b.day)))
  }

  /** `d.replace(day=1)`: the first day of `d`'s month. */
  function FirstOfMonth(d: ValidDate): (r: ValidDate)
    ensures r.year == d.year && r.month == d.month && r.day == 1
    ensures LessOrEqual(r, d)
  {
    Date(d.year, d.month, 1)
  }

  /** The (year, month) that follows month `m` of year `y`. */
  function NextMonth(y: int, m: int): (int, int)
  {
    if m == 12 then (y + 1, 1) else (y, m + 1)
  }

  /** `d + timedelta(days=1)`; None stands for `OverflowError`. */
  function NextDay(d: ValidDate): (r: Option<ValidDate>)
    ensures r.None? <==> d == Date(MaxYear, 12, 31)
  {
    if d.day < DaysInMonth(d.year, d.month) then Some(Date(d.year, d.month, d.day + 1))
    else if d.month < 12 then Some(Date(d.year, d.month + 1, 1))
    else if d.year < MaxYear then Some(Date(d.year + 1, 1, 1))
    else None
  }

  /** `d - timedelta(days=1)`; None stands for `OverflowError`. */
  function PreviousDay(d: ValidDate): (r: Option<ValidDate>)
    ensures r.None? <==> d == Date(MinYear, 1, 1)
  {
    if d.day > 1 then Some(Date(d.year, d.month, d.day - 1))
    else if d.month > 1 then Some(Date(d.year, d.month - 1, DaysInMonth(d.year, d.month - 1)))
    else if d.year > MinYear then Some(Date(d.year - 1, 12, 31))
    else None
  }

  /** `d + timedelta(days=n)`; None stands for `OverflowError`. */
  function AddDays(d: ValidDate, n: nat): Option<ValidDate>
    decreases n
  {
    if n == 0 then Some(d)
    else
      match NextDay(d)
      case None => None
      case Some(e) => AddDays(e, n - 1)
  }

  /** The last day of `today`'s month as the admin chart computes it:
      `date(y, m, 1) + timedelta(days=32)`, then `replace(day=1)`, then
      `- timedelta(days=1)`. None stands for the `OverflowError` raised in
      December of the last representable year. */
  function LastDayOfMonth(today: ValidDate): Option<ValidDate>
  {
    match AddDays(FirstOfMonth(today), 32)
    case None => None
    case Some(x) => PreviousDay(FirstOfMonth(x))
  }

  /** `%B` in the C/English locale. */
  function MonthName(m: int): (s: string)
    requires 1 <= m <= 12
    ensures |s| >= 3
  {
    ["January", "February", "March", "April", "May", "June", "July",
     "August", "September", "October", "November", "December"][m - 1]
  }

  /** Reads a `%B` month name back; 0 for any other text. */
  function MonthNumber(s: string): (m: int)
    ensures 0 <= m <= 12
  {
    if s == "January" then 1 else if s == "February" then 2 else if s == "March" then 3
    else if s == "April" then 4 else if s == "May" then 5 else if s == "June" then 6
    else if s == "July" then 7 else if s == "August" then 8 else if s == "September" then 9
    else if s == "October" then 10 else if s == "November" then 11 else if s == "December" then 12
    else 0
  }

  /** The month name determines the month. */
  lemma MonthNameRoundTrip(m: int)
    requires 1 <= m <= 12
    ensures MonthNumber(MonthName(m)) == m
  {
    var names := ["January", "February", "March", "April", "May", "June", "July",
                  "August", "September", "October", "November", "December"];
    assert MonthName(m) == names[m - 1];
    if m == 1 {} else if m == 2 {} else if m == 3 {} else if m == 4 {} else if m == 5 {}
    else if m == 6 {} else if m == 7 {} else if m == 8 {} else if m == 9 {}
    else if m == 10 {} else if m == 11 {} else {}
  }

  // ---------------------------------------------------------------------
  // Day arithmetic

  lemma NextThenPrevious(d: ValidDate)
    requires NextDay(d).Some?
    ensures PreviousDay(NextDay(d).value) == Some(d)
  {
  }

  /** Adding days that stay inside the month only moves the day number. */
  lemma {:induction false} AddDaysWithinMonth(d: ValidDate, n: nat)
    requires d.day + n <= DaysInMonth(d.year, d.month)
    ensures AddDays(d, n) == Some(Date(d.year, d.month, d.day + n))
    decreases n
  {
    if n > 0 {
      var e: ValidDate := Date(d.year, d.month, d.day + 1);
      assert NextDay(d) == Some(e);
      AddDaysWithinMonth(e, n - 1);
    }
  }

  /** Adding days that run past the end of the month, but not past the end
      of the following one, lands in the following month. */
  lemma {:induction false} AddDaysIntoNextMonth(d: ValidDate, n: nat)
    requires !(d.year == MaxYear && d.month == 12)
    requires DaysInMonth(d.year, d.month) < d.day + n
    requires d.day + n - DaysInMonth(d.year, d.month)
             <= DaysInMonth(NextMonth(d.year, d.month).0, NextMonth(d.year, d.month).1)
    ensures AddDays(d, n) == Some(Date(NextMonth(d.year, d.month).0, NextMonth(d.year, d.month).1,
                                       d.day + n - DaysInMonth(d.year, d.month)))
    decreases n
  {
    var dim := DaysInMonth(d.year, d.month);
    var (ny, nm) := NextMonth(d.year, d.month);
    if d.day == dim {
      var e: ValidDate := Date(ny, nm, 1);
      assert NextDay(d) == Some(e);
      AddDaysWithinMonth(e, n - 1);
    } else {
      var e: ValidDate := Date(d.year, d.month, d.day + 1);
      assert NextDay(d) == Some(e);
      AddDaysIntoNextMonth(e, n - 1);
    }
  }

  /** Adding `m + n` days is adding `m` days and then `n` more; an overflow
      in the first part is an overflow of the whole. */
  lemma {:induction false} AddDaysCompose(d: ValidDate, m: nat, n: nat)
    ensures AddDays(d, m + n) == match AddDays(d, m) case None => None case Some(e) => AddDays(e, n)
    decreases m
  {
    if m > 0 {
      match NextDay(d)
      case None =>
      case Some(e) =>
        AddDaysCompose(e, m - 1, n);
        assert m + n - 1 == (m - 1) + n;
    }
  }

  /** Running past 31 December of the last year overflows. */
  lemma {:induction false} AddDaysOverflow(d: ValidDate, n: nat)
    requires d.year == MaxYear && d.month == 12
    requires d.day + n > 31
    ensures AddDays(d, n) == None
    decreases n
  {
    if d.day < 31 {
      var e: ValidDate := Date(d.year, d.month, d.day + 1);
      assert NextDay(d) == Some(e);
      AddDaysOverflow(e, n - 1);
    }
  }

  /** The "+32 days, first of month, -1 day" recipe yields the last day of
      `today`'s month (28 to 31, leap years included), whose next day is the
      first of the following month; it fails only in December 9999. */
  lemma LastDayOfMonthCorrect(today: ValidDate)
    ensures LastDayOfMonth(today).None? <==> today.year == MaxYear && today.month == 12
    ensures LastDayOfMonth(today).Some? ==>
              var last := LastDayOfMonth(today).value;
              && last.year == today.year && last.month == today.month
              && last.day == DaysInMonth(today.year, today.month)
              && NextDay(last) == Some(Date(NextMonth(today.year, today.month).0,
                                            NextMonth(today.year, today.month).1, 1))
  {
    if today.year == MaxYear && today.month == 12 {
      AddDaysOverflow(FirstOfMonth(today), 32);
    } else {
      LastDayOfRegularMonth(today);
    }
  }

  lemma LastDayOfRegularMonth(today: ValidDate)
    requires !(today.year == MaxYear && today.month == 12)
    ensures LastDayOfMonth(today) == Some(Date(today.year, today.month, DaysInMonth(today.year, today.month)))
    ensures NextDay(Date(today.year, today.month, DaysInMonth(today.year, today.month)))
            == Some(Date(NextMonth(today.year, today.month).0, NextMonth(today.year, today.month).1, 1))
  {
    var first := FirstOfMonth(today);
    var dim := DaysInMonth(today.year, today.month);
    var (ny, nm) := NextMonth(today.year, today.month);
    AddDaysIntoNextMonth(first, 32);
    var x: ValidDate := Date(ny, nm, 33 - dim);
    assert AddDays(first, 32) == Some(x);
    var next: ValidDate := FirstOfMonth(x);
    var last: ValidDate := Date(today.year, today.month, dim);
    assert PreviousDay(next) == Some(last);
  }

  /** The inclusive range `[first of month, last of month]` holds exactly the
      dates of that month. */
  lemma InMonthRange(d: ValidDate, first: ValidDate, last: ValidDate)
    requires first.day == 1
    requires last.year == first.year && last.month == first.month
    requires last.day == DaysInMonth(first.year, first.month)
    ensures LessOrEqual(first, d) && LessOrEqual(d, last) <==> d.year == first.year && d.month == first.month
  {
  }
}
