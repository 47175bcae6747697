/** The calendar clock of 86box_full/src/nvr.c against a count of seconds. */
module Nvr {
  import opened Arith

  datatype Time = Time(sec: int, min: int, hour: int, mday: int, mon: int, year: int)

  const DAYS_IN_MONTH: seq<int> := [31, 28, 31, 30, 31, 30, 31, 31, 30, 31, 30, 31]

  /** `nvr_is_leap` */
  predicate IsLeap(year: int) {
    if year % 400 == 0 then true else if year % 100 == 0 then false else year % 4 == 0
  }

  /** `nvr_get_days` */
  function GetDays(month: int, year: int): (n: int)
    requires 1 <= month <= 12
    ensures 28 <= n <= 31
  {
    if month != 2 then DAYS_IN_MONTH[month - 1] else if IsLeap(year) then 29 else 28
  }

  predicate ValidDate(t: Time) {
    && 0 <= t.sec < 60 && 0 <= t.min < 60 && 0 <= t.hour < 24
    && 1 <= t.mon <= 12 && 1 <= t.mday <= GetDays(t.mon, t.year)
  }

  // ---- the Gregorian calendar, by its own formula ----

  /** Days before the year: one leap day every four years, but not every hundred, but every four hundred. */
  function DaysBeforeYear(year: int): int {
    365 * (year - 1) + (year - 1) / 4 - (year - 1) / 100 + (year - 1) / 400
  }

  /** Days of a common year before the month. */
  function DaysBeforeMonth(mon: int): (n: int)
    requires 1 <= mon <= 12
    ensures 0 <= n <= 334
  {
    [0, 31, 59, 90, 120, 151, 181, 212, 243, 273, 304, 334][mon - 1]
  }

  function DayNumber(year: int, mon: int, mday: int): int
    requires 1 <= mon <= 12
  {
    DaysBeforeYear(year) + DaysBeforeMonth(mon) + (if mon > 2 && IsLeap(year) then 1 else 0) + mday - 1
  }

  function Seconds(t: Time): int
    requires 1 <= t.mon <= 12
  {
    DayNumber(t.year, t.mon, t.mday) * 86400 + t.hour * 3600 + t.min * 60 + t.sec
  }

  lemma DivStep(y: int, k: int)
    requires k > 1
    ensures y / k == (y - 1) / k + if y % k == 0 then 1 else 0
  {
    var q, r := (y - 1) / k, (y - 1) % k;
    assert y == q * k + (r + 1);
    if r + 1 < k {
      Unique(y, k, q, r + 1);
    } else {
      assert y == (q + 1) * k + 0;
      Unique(y, k, q + 1, 0);
    }
  }

  lemma Unique(x: int, k: int, q: int, r: int)
    requires k > 0 && 0 <= r < k && x == q * k + r
    ensures x / k == q && x % k == r
  {
    var d := q - x / k;
    assert d * k == x % k - r;
    SmallMultiple(d, k);
  }

  lemma SmallMultiple(d: int, k: int)
    requires k > 0 && -k < d * k < k
    ensures d == 0
  {
  }

  lemma LeapYears(y: int)
    ensures y % 100 == 0 ==> y % 4 == 0
    ensures y % 400 == 0 ==> y % 100 == 0
  {
    var a, b := y / 100, y / 400;
    if y % 100 == 0 { Unique(y, 4, 25 * a, 0); }
    if y % 400 == 0 { Unique(y, 100, 4 * b, 0); }
  }

  /** A year has 365 days, or 366 when the code calls it a leap year. */
  lemma YearLength(y: int)
    ensures DaysBeforeYear(y + 1) == DaysBeforeYear(y) + if IsLeap(y) then 366 else 365
  {
    DivStep(y, 4);
    DivStep(y, 100);
    DivStep(y, 400);
    LeapYears(y);
  }

  /** The month lengths of the code are those of the calendar. */
  lemma MonthLength(y: int, m: int)
    requires 1 <= m <= 12
    ensures m < 12 ==> DayNumber(y, m + 1, 1) == DayNumber(y, m, 1) + GetDays(m, y)
    ensures m == 12 ==> DayNumber(y + 1, 1, 1) == DayNumber(y, m, 1) + GetDays(m, y)
  {
    YearLength(y);
  }

  // ---- ticking ----

  function Ticked(t: Time): Time
    requires 1 <= t.mon <= 12
  {
    if t.sec + 1 != 60 then t.(sec := t.sec + 1)
    else if t.min + 1 != 60 then t.(sec := 0, min := t.min + 1)
    else if t.hour + 1 != 24 then t.(sec := 0, min := 0, hour := t.hour + 1)
    else if t.mday + 1 != GetDays(t.mon, t.year) + 1 then t.(sec := 0, min := 0, hour := 0, mday := t.mday + 1)
    else if t.mon + 1 != 13 then Time(0, 0, 0, 1, t.mon + 1, t.year)
    else Time(0, 0, 0, 1, 1, t.year + 1)
  }

  /** A tick is one second of the calendar. */
  lemma TickIsASecond(t: Time)
    requires ValidDate(t)
    ensures ValidDate(Ticked(t)) && Seconds(Ticked(t)) == Seconds(t) + 1
  {
    hide DaysBeforeYear, DaysBeforeMonth, IsLeap;
    MonthLength(t.year, t.mon);
  }

  lemma {:induction false} YearsRise(a: int, b: int)
    requires a < b
    ensures DaysBeforeYear(a) + 365 <= DaysBeforeYear(b)
    decreases b - a
  {
    hide DaysBeforeYear, IsLeap;
    YearLength(a);
    if a + 1 < b {
      YearsRise(a + 1, b);
    }
  }

  lemma {:induction false} MonthsRise(y: int, a: int, b: int)
    requires 1 <= a < b <= 12
    ensures DayNumber(y, a, 1) + GetDays(a, y) <= DayNumber(y, b, 1)
    decreases b - a
  {
    hide DayNumber, GetDays;
    MonthLength(y, a);
    if a + 1 < b {
      MonthsRise(y, a + 1, b);
    }
  }

  lemma DayInYear(t: Time)
    requires ValidDate(t)
    ensures DaysBeforeYear(t.year) <= DayNumber(t.year, t.mon, t.mday) < DaysBeforeYear(t.year + 1)
  {
    hide DaysBeforeYear;
    YearLength(t.year);
    if t.mon < 12 {
      MonthsRise(t.year, t.mon, 12);
    }
  }

  /** No two dates are the same second: the count determines the date. */
  lemma DateUnique(a: Time, b: Time)
    requires ValidDate(a) && ValidDate(b) && Seconds(a) == Seconds(b)
    ensures a == b
  {
    hide DaysBeforeYear, DaysBeforeMonth, IsLeap, DayNumber, GetDays;
    var m, n := DayNumber(a.year, a.mon, a.mday), DayNumber(b.year, b.mon, b.mday);
    Unique(Seconds(a), 86400, m, a.hour * 3600 + a.min * 60 + a.sec);
    Unique(Seconds(b), 86400, n, b.hour * 3600 + b.min * 60 + b.sec);
    DayInYear(a);
    DayInYear(b);
    if a.year < b.year && a.year + 1 < b.year { YearsRise(a.year + 1, b.year); }
    if b.year < a.year && b.year + 1 < a.year { YearsRise(b.year + 1, a.year); }
    assert a.year == b.year;
    SameDay(a, b);
  }

  lemma SameDay(a: Time, b: Time)
    requires ValidDate(a) && ValidDate(b) && a.year == b.year
    requires DayNumber(a.year, a.mon, a.mday) == DayNumber(b.year, b.mon, b.mday)
    ensures a.mon == b.mon && a.mday == b.mday
  {
    hide DaysBeforeYear, DaysBeforeMonth, IsLeap, GetDays;
    if a.mon < b.mon {
      MonthsRise(a.year, a.mon, b.mon);
    } else if b.mon < a.mon {
      MonthsRise(a.year, b.mon, a.mon);
    }
  }

  // ---- the clock and its timer ----

  class Clock {
    var t: Time
    var onesecCnt: int
    const at: bool

    ghost predicate Valid()
      reads this
    {
      ValidDate(t) && 0 <= onesecCnt < 100
    }

    constructor (t: Time, cnt: int, at: bool)
      requires ValidDate(t) && 0 <= cnt < 100
      ensures Valid() && this.t == t && onesecCnt == cnt && this.at == at
    {
      this.t, onesecCnt, this.at := t, cnt, at;
    }

    /** `rtc_tick` */
    method RtcTick()
      requires ValidDate(t)
      modifies this`t
      ensures ValidDate(t) && t == Ticked(old(t)) && Seconds(t) == Seconds(old(t)) + 1
    {
      TickIsASecond(t);
      t := t.(sec := t.sec + 1);
      if t.sec == 60 {
        t := t.(sec := 0, min := t.min + 1);
        if t.min == 60 {
          t := t.(min := 0, hour := t.hour + 1);
          if t.hour == 24 {
            t := t.(hour := 0, mday := t.mday + 1);
            if t.mday == GetDays(t.mon, t.year) + 1 {
              t := t.(mday := 1, mon := t.mon + 1);
              if t.mon == 13 {
                t := t.(mon := 1, year := t.year + 1);
              }
            }
          }
        }
      }
    }

    /** The clock after `n` ticks is the one date `n` seconds later. */
    method Ticks(n: nat)
      requires Valid()
      modifies this`t
      ensures Valid() && Seconds(t) == Seconds(old(t)) + n
    {
      for i := 0 to n
        invariant Valid() && Seconds(t) == Seconds(old(t)) + i
      {
        RtcTick();
      }
    }

    /** `onesec_timer`: a callback each hundredth of a second. */
    method OnesecTimer()
      requires Valid()
      modifies this
      ensures Valid() && onesecCnt == (old(onesecCnt) + 1) % 100
      ensures Seconds(t) == Seconds(old(t)) + if !at && old(onesecCnt) == 99 then 1 else 0
    {
      onesecCnt := onesecCnt + 1;
      if onesecCnt >= 100 {
        if !at {
          RtcTick();
        }
        onesecCnt := 0;
      }
    }

    /** A second per hundred callbacks, whatever the divider started from. */
    method Callbacks(n: nat)
      requires Valid()
      modifies this
      ensures Valid() && onesecCnt == (old(onesecCnt) + n) % 100
      ensures Seconds(t) == Seconds(old(t)) + if at then 0 else (old(onesecCnt) + n) / 100
    {
      for i := 0 to n
        invariant Valid() && onesecCnt == (old(onesecCnt) + i) % 100
        invariant Seconds(t) == Seconds(old(t)) + if at then 0 else (old(onesecCnt) + i) / 100
      {
        Hundredth(old(onesecCnt) + i);
        OnesecTimer();
      }
    }
  }

  lemma Hundredth(x: int)
    requires x >= 0
    ensures (x + 1) % 100 == (x % 100 + 1) % 100
    ensures (x + 1) / 100 == x / 100 + if x % 100 == 99 then 1 else 0
  {
  }
}
