/** The calendar computation of platform/hw/clock_subr.c against the Gregorian calendar. */
module Calendar {
  import opened Arith

  const POSIX_BASE_YEAR: nat := 1970
  const DAYSTO2000: nat := 365 * 30 + 7
  const DAYS4YEARS: nat := 365 * 4 + 1
  const DAYS100YEARS: nat := 365 * 100 + 24
  const DAYS400YEARS: nat := 365 * 400 + 97
  const WORD: int := 0x1_0000_0000_0000_0000

  /** is_leap_year: the shortcut tests amount to the Gregorian rule. */
  predicate IsLeapYear(year: nat): (leap: bool)
    ensures leap <==> (year % 4 == 0 && year % 100 != 0) || year % 400 == 0
  {
    if year % 4 != 0 then false
    else if year % 100 != 0 then true
    else year % 400 == 0
  }

  function DaysPerYear(year: nat): nat
  {
    if IsLeapYear(year) then 366 else 365
  }

  /** days_in_month, which knows no leap years. */
  function DaysInMonth(m: int): int
  {
    match m
    case 2 => 28
    case 4 => 30 case 6 => 30 case 9 => 30 case 11 => 30
    case 1 => 31 case 3 => 31 case 5 => 31 case 7 => 31 case 8 => 31 case 10 => 31 case 12 => 31
    case _ => -1
  }

  // ---- The Gregorian calendar ----

  datatype Date = Date(year: nat, month: nat, day: nat)

  const EPOCH: Date := Date(1970, 1, 1)

  function MonthLength(year: nat, month: nat): nat
    requires 1 <= month <= 12
  {
    if month == 2 then (if IsLeapYear(year) then 29 else 28)
    else if month == 4 || month == 6 || month == 9 || month == 11 then 30
    else 31
  }

  predicate ValidDate(d: Date)
  {
    1 <= d.month <= 12 && 1 <= d.day <= MonthLength(d.year, d.month)
  }

  function NextDay(d: Date): Date
    requires ValidDate(d)
  {
    if d.day < MonthLength(d.year, d.month) then d.(day := d.day + 1)
    else if d.month < 12 then Date(d.year, d.month + 1, 1)
    else Date(d.year + 1, 1, 1)
  }

  /** The date k days after the epoch, counted one day at a time. */
  function DateAt(k: nat): (d: Date)
    ensures ValidDate(d) && d.year >= POSIX_BASE_YEAR
  {
    if k == 0 then EPOCH else NextDay(DateAt(k - 1))
  }

  // ---- Day numbers ----

  /** The days of the years from `first` up to `last`, year by year. */
  function YearSum(first: nat, last: nat): nat
    requires first <= last
    decreases last
  {
    if first == last then 0 else YearSum(first, last - 1) + DaysPerYear(last - 1)
  }

  /** The days of the months before `m`, as the code adds them. */
  function MonthSum(m: nat): int
  {
    if m <= 1 then 0 else MonthSum(m - 1) + DaysInMonth(m - 1)
  }

  function LeapDay(year: nat, month: nat): nat
  {
    if IsLeapYear(year) && month > 2 then 1 else 0
  }

  function DayNumber(d: Date): int
    requires d.year >= POSIX_BASE_YEAR
  {
    YearSum(POSIX_BASE_YEAR, d.year) + LeapDay(d.year, d.month) + MonthSum(d.month) + d.day - 1
  }

  lemma DayNumberNext(d: Date)
    requires ValidDate(d) && d.year >= POSIX_BASE_YEAR
    ensures DayNumber(NextDay(d)) == DayNumber(d) + 1
  {
    if d.day == MonthLength(d.year, d.month) && d.month == 12 {
      assert MonthSum(12) == 334 by { MonthTable(); }
    }
  }

  lemma MonthTable()
    ensures MonthSum(12) == 334
  {
    assert MonthSum(4) == 90;
    assert MonthSum(8) == MonthSum(4) + 122;
  }

  /** The day number counts the days since the epoch. */
  lemma {:induction false} DayNumberCounts(k: nat)
    ensures DayNumber(DateAt(k)) == k
  {
    if k > 0 {
      DayNumberCounts(k - 1);
      DayNumberNext(DateAt(k - 1));
    }
  }

  /** Every date from the epoch on is reached, at its day number. */
  lemma {:induction false} EveryDate(d: Date)
    requires ValidDate(d) && d.year >= POSIX_BASE_YEAR
    ensures DayNumber(d) >= 0 && DateAt(DayNumber(d)) == d
    decreases d.year, d.month, d.day
  {
    if d != EPOCH {
      var p := PreviousDay(d);
      EveryDate(p);
      DayNumberNext(p);
    }
  }

  function PreviousDay(d: Date): (p: Date)
    requires ValidDate(d) && d.year >= POSIX_BASE_YEAR && d != EPOCH
    ensures ValidDate(p) && p.year >= POSIX_BASE_YEAR && NextDay(p) == d
  {
    if d.day > 1 then d.(day := d.day - 1)
    else if d.month > 1 then Date(d.year, d.month - 1, MonthLength(d.year, d.month - 1))
    else Date(d.year - 1, 12, 31)
  }

  // ---- Counting in blocks ----

  function Ceil(n: nat, d: nat): nat
    requires d > 0
  {
    (n + (d - 1)) / d
  }

  lemma CeilAt(n: nat, d: nat, q: nat, r: nat)
    requires r < d && n == q * d + r
    ensures Ceil(n, d) == q + if r > 0 then 1 else 0
  {
    if r == 0 {
      DivModUnique(n + (d - 1), d, q, d - 1);
    } else {
      assert (q + 1) * d == q * d + d;
      DivModUnique(n + (d - 1), d, q + 1, r - 1);
    }
  }

  lemma CeilStep(n: nat, d: nat)
    requires d > 1
    ensures Ceil(n + 1, d) == Ceil(n, d) + if n % d == 0 then 1 else 0
  {
    var q, r := n / d, n % d;
    CeilAt(n, d, q, r);
    if r < d - 1 {
      CeilAt(n + 1, d, q, r + 1);
    } else {
      assert (q + 1) * d == q * d + d;
      CeilAt(n + 1, d, q + 1, 0);
    }
  }

  /** The leap years before year n. */
  function LeapsBefore(n: nat): int
  {
    Ceil(n, 4) - Ceil(n, 100) + Ceil(n, 400)
  }

  lemma LeapStep(n: nat)
    ensures LeapsBefore(n + 1) == LeapsBefore(n) + if IsLeapYear(n) then 1 else 0
  {
    hide Ceil;
    CeilStep(n, 4);
    CeilStep(n, 100);
    CeilStep(n, 400);
    if n % 400 == 0 {
      MultipleTrans(n, 400, 100);
    }
    if n % 100 == 0 {
      MultipleTrans(n, 100, 4);
    }
  }

  lemma LeapsAt(a: nat, b: nat, c: nat, r: nat)
    requires b < 4 && c < 25 && r < 4
    ensures LeapsBefore(2000 + 400 * a + 100 * b + 4 * c + r) ==
            485 + 97 * a + 24 * b + c + (if r > 0 then 1 else 0) - (if 4 * c + r > 0 then 1 else 0) +
            (if 100 * b + 4 * c + r > 0 then 1 else 0)
  {
    hide Ceil;
    var n := 2000 + 400 * a + 100 * b + 4 * c + r;
    CeilAt(n, 4, 500 + 100 * a + 25 * b + c, r);
    CeilAt(n, 100, 20 + 4 * a + b, 4 * c + r);
    CeilAt(n, 400, 5 + a, 100 * b + 4 * c + r);
  }

  lemma {:induction false} YearSumClosed(first: nat, last: nat)
    requires first <= last
    ensures YearSum(first, last) == 365 * (last - first) + LeapsBefore(last) - LeapsBefore(first)
    decreases last
  {
    hide LeapsBefore, IsLeapYear;
    if first < last {
      YearSumClosed(first, last - 1);
      LeapStep(last - 1);
    }
  }

  /** The years in which counting by blocks comes out a day short: the first four of each
      century after 2000 that does not start with a leap year. */
  predicate DayShort(year: nat)
  {
    year >= 2000 && var o := (year - 2000) % 400; 100 <= o <= 103 || 200 <= o <= 203 || 300 <= o <= 303
  }

  /** The days before a year from 2000 on as the code counts them: blocks of 400, 100 and 4
      years, then single years. */
  function BlockDays(year: nat): int
    requires year >= 2000
  {
    var o := year - 2000;
    var a := o / 400;
    var b := (o - a * 400) / 100;
    var c := (o - a * 400 - b * 100) / 4;
    var r := o - a * 400 - b * 100 - c * 4;
    DAYSTO2000 + a * DAYS400YEARS + b * DAYS100YEARS + c * DAYS4YEARS + YearSum(year - r, year)
  }

  lemma BlockDaysExact(year: nat)
    requires year >= 2000
    ensures BlockDays(year) == YearSum(POSIX_BASE_YEAR, year) - if DayShort(year) then 1 else 0
  {
    hide YearSum, DayShort;
    var o := year - 2000;
    var a := o / 400;
    var b := (o - a * 400) / 100;
    var c := (o - a * 400 - b * 100) / 4;
    BlockSum(a, b, c, o - a * 400 - b * 100 - c * 4, year);
  }

  lemma BlockSum(a: nat, b: nat, c: nat, r: nat, year: nat)
    requires b < 4 && c < 25 && r < 4 && year == 2000 + 400 * a + 100 * b + 4 * c + r
    ensures DAYSTO2000 + a * DAYS400YEARS + b * DAYS100YEARS + c * DAYS4YEARS + YearSum(year - r, year) ==
            YearSum(POSIX_BASE_YEAR, year) - if DayShort(year) then 1 else 0
  {
    hide YearSum, LeapsBefore;
    YearSumClosed(POSIX_BASE_YEAR, year);
    YearSumClosed(year - r, year);
    LeapsAt(a, b, c, r);
    LeapsAt(a, b, c, 0);
    LeapsIn1970();
    DivModUnique(year - 2000, 400, a, 100 * b + 4 * c + r);
  }

  lemma LeapsIn1970()
    ensures LeapsBefore(1970) == 478
  {
  }

  /** struct bmk_clock_ymdhms */
  datatype Ymdhms = Ymdhms(date: Date, hour: nat, min: nat, sec: nat)

  function Seconds(days: int, t: Ymdhms): int
  {
    ((days * 24 + t.hour) * 60 + t.min) * 60 + t.sec
  }

  /** The days of the years before a year, by the loop before 2000 and in blocks after. */
  method DaysBeforeYear(whole: nat) returns (days: int)
    requires whole >= POSIX_BASE_YEAR
    ensures days == YearSum(POSIX_BASE_YEAR, whole) - if DayShort(whole) then 1 else 0
  {
    hide YearSum, IsLeapYear, DayShort;
    days := 0;
    var year, i := whole, 0;
    YearSumStep(POSIX_BASE_YEAR, POSIX_BASE_YEAR);
    if year < 2000 {
      i := POSIX_BASE_YEAR;
      while i < year
        invariant POSIX_BASE_YEAR <= i <= year
        invariant days == YearSum(POSIX_BASE_YEAR, i)
      {
        YearSumStep(POSIX_BASE_YEAR, i);
        days := days + DaysPerYear(i);
        i := i + 1;
      }
    } else {
      days := days + DAYSTO2000;
      year := year - 2000;
      i := year / 400;
      days := days + i * DAYS400YEARS;
      year := year - i * 400;
      i := year / 100;
      days := days + i * DAYS100YEARS;
      year := year - i * 100;
      i := year / 4;
      days := days + i * DAYS4YEARS;
      year := year - i * 4;
      ghost var blocks := days;
      i := whole - year;
      YearSumStep(i, i);
      while i < whole
        invariant whole - year <= i <= whole
        invariant days == blocks + YearSum(whole - year, i)
      {
        YearSumStep(whole - year, i);
        days := days + DaysPerYear(i);
        i := i + 1;
      }
      BlockDaysExact(whole);
    }
    assert whole < 2000 ==> !DayShort(whole) by { ShortYears(whole); }
  }

  lemma YearSumStep(first: nat, last: nat)
    requires first <= last
    ensures YearSum(first, first) == 0
    ensures YearSum(first, last + 1) == YearSum(first, last) + DaysPerYear(last)
  {
  }

  /** clock_ymdhms_to_secs: the seconds since the epoch, except in the short years, where a
      day is missing. */
  method ClockYmdhmsToSecs(dt: Ymdhms) returns (secs: int)
    ensures dt.date.year < POSIX_BASE_YEAR ==> secs == 0
    ensures dt.date.year >= POSIX_BASE_YEAR ==>
              secs == Seconds(DayNumber(dt.date) - if DayShort(dt.date.year) then 1 else 0, dt) % WORD
  {
    hide YearSum, IsLeapYear, DayShort, MonthSum, DaysInMonth;
    var year := dt.date.year;
    if year < POSIX_BASE_YEAR {
      return 0;
    }
    var days := 0;
    if IsLeapYear(year) && dt.date.month > 2 {
      days := days + 1;
    }
    var before := DaysBeforeYear(year);
    days := days + before;
    ghost var years := days;
    var i: nat := 1;
    MonthSumStep(1);
    while i < dt.date.month
      invariant 1 <= i && (i <= dt.date.month || i == 1)
      invariant days == years + MonthSum(i)
    {
      MonthSumStep(i);
      days := days + DaysInMonth(i);
      i := i + 1;
    }
    MonthSumStep(dt.date.month);
    days := days + (dt.date.day - 1);
    assert days == DayNumber(dt.date) - if DayShort(dt.date.year) then 1 else 0;
    hide DayNumber;
    secs := (((days * 24 + dt.hour) * 60 + dt.min) * 60 + dt.sec) % WORD;
  }

  lemma MonthSumStep(m: nat)
    ensures m <= 1 ==> MonthSum(m) == 0
    ensures m >= 1 ==> MonthSum(m + 1) == MonthSum(m) + DaysInMonth(m)
  {
  }

  /** No year before 2100 is short, which covers all the real-time clock can express; the
      first day of 2100 is counted as the last of 2099. */
  lemma ShortYears(year: nat)
    ensures year < 2100 ==> !DayShort(year)
    ensures DayShort(2100) && DayNumber(Date(2100, 1, 1)) - 1 == DayNumber(Date(2099, 12, 31))
  {
    assert NextDay(Date(2099, 12, 31)) == Date(2100, 1, 1);
    DayNumberNext(Date(2099, 12, 31));
  }
}
