/** Users of the converters: the date parser of apps/common/jalali.py and the current
    Jalali month of the technician dashboard (apps/dashboard/selectors.py). */
module MonthWindow {
  import opened Calendars
  import opened JalaliConversion
  import opened Options

  /** `parse_jalali_date` once the three numbers are read: convert, then let the `date`
      constructor accept or refuse the result. */
  function ParseJalali(j: Date): Option<Date> {
    var g := ToGregorian(j);
    if 1 <= g.y <= 9999 && ValidGregorian(g) then Some(g) else None
  }

  /** The parser refuses nothing but the far future: an impossible Jalali date is read as
      the real day that many days into its month, day 0 being the day before it and month 0
      a month of 31 days before the year. Formatting the result then shows a different
      date: only real dates come back as typed. */
  lemma ParsedDateIsTypedDateIffReal(j: Date)
    requires 980 <= j.y && 0 <= j.m && 0 <= j.d
    ensures ParseJalali(j) == (if ToGregorian(j).y <= 9999 then Some(ToGregorian(j)) else None)
    ensures 1600 <= ToGregorian(j).y && ValidGregorian(ToGregorian(j))
    ensures j.m <= 12 ==> GregorianDayNumber(ToGregorian(j)) == TypedDayNumber(j)
    ensures ParseJalali(j).Some? ==>
              (ToJalali(ToGregorian(j)) == j <==> ValidJalali(j))
  {
    hide ToGregorian, ToJalali, DaysBeforeJalaliYear, DaysBeforeJalaliMonth;
    ToGregorianKeepsTheDay(j);
    JalaliRoundTripIffValid(j);
    if 1 <= j.m <= 12 { DaysFromJalaliIsCount(j); }
    if j.m == 0 { DaysFromJalaliIsCount(Date(j.y, 1, j.d)); }
  }

  /** The day a typed date stands for. */
  function TypedDayNumber(j: Date): int
    requires 979 <= j.y && 0 <= j.m <= 12
  {
    if j.m == 0 then JalaliDayNumber(Date(j.y, 1, j.d)) - 31 else JalaliDayNumber(j)
  }

  /** First Gregorian day of a Jalali month. */
  function MonthStart(y: int, m: int): Date {
    ToGregorian(Date(y, m, 1))
  }

  function NextMonth(y: int, m: int): (int, int) {
    if m == 12 then (y + 1, 1) else (y, m + 1)
  }

  /** The dashboard's half-open window: this Jalali month's first day and the next one's. */
  function Window(today: Date): (Date, Date)
    requires 1 <= today.m <= 12
  {
    var j := ToJalali(today);
    var (ny, nm) := NextMonth(j.y, j.m);
    (MonthStart(j.y, j.m), MonthStart(ny, nm))
  }

  /** The window's code: both converters, called as the selector calls them. */
  method CurrentMonth(today: Date) returns (start: Date, next: Date)
    requires 1 <= today.m <= 12
    ensures (start, next) == Window(today)
  {
    var jy, jm, _ := GregorianToJalali(today.y, today.m, today.d);
    var sy, sm, sd := JalaliToGregorian(jy, jm, 1);
    var nextJy, nextJm := jy, jm + 1;
    if jm == 12 {
      nextJy, nextJm := jy + 1, 1;
    }
    var ny, nm, nd := JalaliToGregorian(nextJy, nextJm, 1);
    start, next := Date(sy, sm, sd), Date(ny, nm, nd);
  }

  predicate InWindow(day: Date, w: (Date, Date)) {
    !Before(day, w.0) && Before(day, w.1)
  }

  lemma MonthStartDays(y: int, m: int)
    requires 980 <= y && 1 <= m <= 12
    ensures var g := MonthStart(y, m);
            && FromEpochGregorian(g) && 1600 < g.y
            && GregorianDayNumber(g) == JalaliDayNumber(Date(y, m, 1))
            && ToJalali(g) == Date(y, m, 1)
  {
    JalaliRoundTrip(Date(y, m, 1));
    assert FromEpochGregorian(MonthStart(y, m));
  }

  lemma NextMonthDays(y: int, m: int)
    requires 980 <= y && 1 <= m <= 12
    ensures var (ny, nm) := NextMonth(y, m);
            && 1 <= nm <= 12 && 980 <= ny
            && JalaliDayNumber(Date(ny, nm, 1)) == JalaliDayNumber(Date(y, m, 1)) + JalaliMonthLength(y, m)
  {
    NextJalaliDayNumber(Date(y, m, JalaliMonthLength(y, m)));
  }

  /** Both ends of the window, on the day axis. */
  lemma WindowDays(today: Date)
    requires FromEpochGregorian(today)
    ensures var j := ToJalali(today);
            var w := Window(today);
            && FromEpochJalali(j)
            && FromEpochGregorian(w.0) && FromEpochGregorian(w.1)
            && 1600 < w.0.y && 1600 < w.1.y
            && GregorianDayNumber(w.0) == JalaliDayNumber(Date(j.y, j.m, 1))
            && GregorianDayNumber(w.1) == GregorianDayNumber(w.0) + JalaliMonthLength(j.y, j.m)
  {
    var j := ToJalali(today);
    var (ny, nm) := NextMonth(j.y, j.m);
    GregorianRoundTrip(today);
    NextMonthDays(j.y, j.m);
    MonthStartDays(j.y, j.m);
    MonthStartDays(ny, nm);
  }

  /** A day lies in the window computed on `today` exactly when it is of the same Jalali
      month. Every day therefore lies in its own window and in no other month's. */
  lemma WindowIsTheMonth(today: Date, day: Date)
    requires FromEpochGregorian(today) && FromEpochGregorian(day)
    ensures InWindow(day, Window(today))
            <==> ToJalali(day).y == ToJalali(today).y && ToJalali(day).m == ToJalali(today).m
  {
    WindowDays(today);
    WindowDays(day);
    var w, v := Window(today), Window(day);
    var a, b := ToJalali(today), ToJalali(day);
    GregorianRoundTrip(day);
    EpochDays(day);
    GregorianOrder(day, w.0);
    GregorianOrder(day, w.1);
    if a.y == b.y && a.m == b.m {
      assert w == v;
    } else if Before(Date(a.y, a.m, 1), Date(b.y, b.m, 1)) {
      MonthsApart(a, b);
    } else {
      MonthsApart(b, a);
    }
  }

  /** An earlier month ends before a later month begins. */
  lemma MonthsApart(a: Date, b: Date)
    requires FromEpochJalali(a) && FromEpochJalali(b)
    requires a.y < b.y || (a.y == b.y && a.m < b.m)
    ensures JalaliDayNumber(Date(a.y, a.m, 1)) + JalaliMonthLength(a.y, a.m) <= JalaliDayNumber(Date(b.y, b.m, 1))
  {
    if a.y < b.y {
      JalaliYearsOrdered(a.y, b.y);
      JalaliYearLength(a.y);
      JalaliMonthsOrdered(a.y, a.m, 13);
      if b.m > 1 { JalaliMonthsOrdered(b.y, 1, b.m); }
    } else {
      JalaliMonthsOrdered(a.y, a.m, b.m);
    }
  }

  /** Windows tile the calendar: each is as long as its month, holds the day it was
      computed on, and is followed at once by the window of the next month, also from
      month 12 into the new year. */
  lemma WindowsTile(today: Date)
    requires FromEpochGregorian(today)
    ensures var w := Window(today);
            var j := ToJalali(today);
            && InWindow(today, w)
            && 1600 < w.0.y && 1600 < w.1.y && ValidGregorian(w.0) && ValidGregorian(w.1)
            && GregorianDayNumber(w.1) - GregorianDayNumber(w.0) == JalaliMonthLength(j.y, j.m)
            && Window(w.0) == w
            && Window(w.1).0 == w.1
            && (ToJalali(w.1).y, ToJalali(w.1).m, ToJalali(w.1).d) == (NextMonth(j.y, j.m).0, NextMonth(j.y, j.m).1, 1)
  {
    var j := ToJalali(today);
    var (ny, nm) := NextMonth(j.y, j.m);
    WindowDays(today);
    WindowIsTheMonth(today, today);
    NextMonthDays(j.y, j.m);
    MonthStartDays(j.y, j.m);
    MonthStartDays(ny, nm);
  }
}
