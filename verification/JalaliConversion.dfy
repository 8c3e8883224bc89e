/** The two closed-form calendar converters (apps/common/jalali.py) and what they promise.

    `ToJalali` and `ToGregorian` are the converters as functions, for every year and with
    Python's floor division. The methods run the original's step-by-step updates, its
    month-peeling loop included, and return the same dates. The theorems hold from
    980/1/1 == 1601-03-21 on, where the converters use their aligned base years. */
module JalaliConversion {
  import opened Calendars

  // -------------------------------------------------------- Gregorian to Jalali

  const MONTH_OFFSETS: seq<int> := [0, 31, 59, 90, 120, 151, 181, 212, 243, 273, 304, 334]

  /** Days from the first day of Jalali year "base" to month `m`, day `d` of the
      `gy`-th year after the Gregorian base year. */
  function DaysFromGregorian(gy: int, m: int, d: int): int
    requires 1 <= m <= 12
  {
    GregorianYears(if m > 2 then gy + 1 else gy) - (if m > 2 then 365 else 0)
      - 80 + d + MONTH_OFFSETS[m - 1]
  }

  function JalaliFromDays(base: int, days: int): Date {
    var inCycle := days % 12053;
    var inFour := inCycle % 1461;
    var y := base + 33 * (days / 12053) + 4 * (inCycle / 1461)
             + (if inFour > 365 then (inFour - 1) / 365 else 0);
    var inYear := if inFour > 365 then (inFour - 1) % 365 else inFour;
    if inYear < 186 then Date(y, 1 + inYear / 31, 1 + inYear % 31)
    else Date(y, 7 + (inYear - 186) / 30, 1 + (inYear - 186) % 30)
  }

  function ToJalali(g: Date): Date
    requires 1 <= g.m <= 12
  {
    if g.y > 1600 then JalaliFromDays(979, DaysFromGregorian(g.y - 1600, g.m, g.d))
    else JalaliFromDays(0, DaysFromGregorian(g.y - 621, g.m, g.d))
  }

  /** `gregorian_to_jalali`, update by update, in its two halves: count the days... */
  method GregorianToJalali(year: int, gm: int, gd: int) returns (jy: int, jm: int, jd: int)
    requires 1 <= gm <= 12
    ensures Date(jy, jm, jd) == ToJalali(Date(year, gm, gd))
  {
    var gy := year;
    if gy > 1600 {
      jy, gy := 979, gy - 1600;
    } else {
      jy, gy := 0, gy - 621;
    }
    var gy2 := if gm > 2 then gy + 1 else gy;
    var days := 365 * gy + (gy2 + 3) / 4 - (gy2 + 99) / 100 + (gy2 + 399) / 400
                - 80 + gd + MONTH_OFFSETS[gm - 1];
    assert days == DaysFromGregorian(gy, gm, gd);
    jy, jm, jd := SpendDaysJalali(jy, days);
  }

  /** ... then spend them on cycles, years and months. */
  method SpendDaysJalali(base: int, total: int) returns (jy: int, jm: int, jd: int)
    ensures Date(jy, jm, jd) == JalaliFromDays(base, total)
  {
    var days := total;
    jy := base + 33 * (days / 12053);
    days := days % 12053;
    jy := jy + 4 * (days / 1461);
    days := days % 1461;
    if days > 365 {
      jy := jy + (days - 1) / 365;
      days := (days - 1) % 365;
    }
    if days < 186 {
      jm := 1 + days / 31;
      jd := 1 + days % 31;
    } else {
      jm := 7 + (days - 186) / 30;
      jd := 1 + (days - 186) % 30;
    }
  }

  // -------------------------------------------------------- Jalali to Gregorian

  function DaysFromJalali(jy: int, m: int, d: int): int {
    JalaliYears(jy) + 78 + d + (if m < 7 then (m - 1) * 31 else (m - 7) * 30 + 186)
  }

  /** What the month loop does with day `d` of month `m`: peel months while it does not fit. */
  function PeelMonths(y: int, m: int, d: int): Date
    decreases 13 - m
  {
    if m <= 12 && d > GregorianMonthLength(y, m) then PeelMonths(y, m + 1, d - GregorianMonthLength(y, m))
    else Date(y, m, d)
  }

  /** Year and day-of-year (from 0) that lie `days` days after the base year's first day. */
  function GregorianYearAndDay(base: int, days: int): (int, int) {
    var in400 := days % 146097;
    var y400 := base + 400 * (days / 146097);
    var y100 := if in400 > 36524 then y400 + 100 * ((in400 - 1) / 36524) else y400;
    var in100 := if in400 > 36524 then
                   var r := (in400 - 1) % 36524; if r >= 365 then r + 1 else r
                 else in400;
    var y4 := y100 + 4 * (in100 / 1461);
    var in4 := in100 % 1461;
    if in4 > 365 then (y4 + (in4 - 1) / 365, (in4 - 1) % 365) else (y4, in4)
  }

  function GregorianFromDays(base: int, days: int): Date {
    var (y, day) := GregorianYearAndDay(base, days);
    PeelMonths(y, 1, day + 1)
  }

  function ToGregorian(j: Date): Date {
    if j.y > 979 then GregorianFromDays(1600, DaysFromJalali(j.y - 979, j.m, j.d))
    else GregorianFromDays(621, DaysFromJalali(j.y, j.m, j.d))
  }

  /** The month loop. On a day of the year it stops because the day fits its month, never
      through the `gm <= 12` guard. */
  method MonthLoop(gy: int, dayOfYear: int) returns (gm: int, gd: int)
    ensures Date(gy, gm, gd) == PeelMonths(gy, 1, dayOfYear)
    ensures 1 <= dayOfYear <= (if GregorianLeap(gy) then 366 else 365) ==>
              gm <= 12 && ValidGregorian(Date(gy, gm, gd))
  {
    var february := if (gy % 4 == 0 && gy % 100 != 0) || gy % 400 == 0 then 29 else 28;
    var lengths := [0, 31, february, 31, 30, 31, 30, 31, 31, 30, 31, 30, 31];
    gd := dayOfYear;
    gm := 1;
    while gm <= 12 && gd > lengths[gm]
      invariant 1 <= gm <= 13
      invariant PeelMonths(gy, gm, gd) == PeelMonths(gy, 1, dayOfYear)
      decreases 13 - gm
    {
      assert lengths[gm] == GregorianMonthLength(gy, gm);
      gd := gd - lengths[gm];
      gm := gm + 1;
    }
    assert gm <= 12 ==> lengths[gm] == GregorianMonthLength(gy, gm);
    if 1 <= dayOfYear <= (if GregorianLeap(gy) then 366 else 365) {
      GregorianMonthCount(gy, 13);
      PeelMonthsKeepsTheDay(gy, 1, dayOfYear);
    }
  }

  /** `jalali_to_gregorian`, update by update: count the days, then spend them. */
  method JalaliToGregorian(year: int, jm: int, jd: int) returns (gy: int, gm: int, gd: int)
    ensures Date(gy, gm, gd) == ToGregorian(Date(year, jm, jd))
  {
    hide GregorianYearAndDay, PeelMonths;
    var jy := year;
    if jy > 979 {
      gy, jy := 1600, jy - 979;
    } else {
      gy := 621;
    }
    var days := 365 * jy + (jy / 33) * 8 + (jy % 33 + 3) / 4 + 78 + jd;
    if jm < 7 {
      days := days + (jm - 1) * 31;
    } else {
      days := days + (jm - 7) * 30 + 186;
    }
    assert days == DaysFromJalali(jy, jm, jd);
    var dayOfYear;
    gy, dayOfYear := SpendDaysGregorian(gy, days);
    gm, gd := MonthLoop(gy, dayOfYear + 1);
  }

  method SpendDaysGregorian(base: int, total: int) returns (gy: int, days: int)
    ensures (gy, days) == GregorianYearAndDay(base, total)
  {
    gy := base + 400 * (total / 146097);
    days := total % 146097;
    if days > 36524 {
      gy := gy + 100 * ((days - 1) / 36524);
      days := (days - 1) % 36524;
      if days >= 365 {
        days := days + 1;
      }
    }
    gy := gy + 4 * (days / 1461);
    days := days % 1461;
    if days > 365 {
      gy := gy + (days - 1) / 365;
      days := (days - 1) % 365;
    }
  }

  // ------------------------------------------------- Each converter keeps the day

  /** The first converter's day count is the naive one. */
  lemma DaysFromGregorianIsCount(g: Date)
    requires 1600 <= g.y && 1 <= g.m <= 12
    ensures 79 + DaysFromGregorian(g.y - 1600, g.m, g.d) == GregorianDayNumber(g)
  {
    var k := g.y - 1600;
    GregorianYearCount(k);
    GregorianMonthCount(g.y, g.m);
    if g.m > 2 { GregorianYearStep(k); }
  }

  /** The second converter's day count is the naive one, also for a day or a month past
      the end of its year. */
  lemma DaysFromJalaliIsCount(j: Date)
    requires 979 <= j.y && 1 <= j.m <= 12
    ensures DaysFromJalali(j.y - 979, j.m, j.d) == JalaliDayNumber(j)
  {
    JalaliYearCount(j.y - 979);
    JalaliMonthCount(j.y, j.m);
  }

  lemma JalaliFromDaysIsTheDay(n: nat)
    ensures var j := JalaliFromDays(979, n);
            979 <= j.y && ValidJalali(j) && JalaliDayNumber(j) == 79 + n
  {
    var j := JalaliFromDays(979, n);
    var k, day := SplitJalaliDays(n);
    hide JalaliYears, JalaliFromDays;
    JalaliYearCount(k);
    JalaliMonthCount(j.y, j.m);
  }

  /** The divisions write `n` in 33-, 4- and 1-year cycles, and the rest in months. */
  lemma SplitJalaliDays(n: nat) returns (k: nat, day: nat)
    ensures var j := JalaliFromDays(979, n);
            && j.y == 979 + k && JalaliYears(k) + day == n
            && day < (if JalaliLeap(979 + k) then 366 else 365)
            && (j.m, j.d) == (if day < 186 then (1 + day / 31, 1 + day % 31)
                 else (7 + (day - 186) / 30, 1 + (day - 186) % 30))
  {
    var c, inCycle := n / 12053, n % 12053;
    var f, inFour := inCycle / 1461, inCycle % 1461;
    assert n == 12053 * c + 1461 * f + inFour && 0 <= f <= 8;
    var e := if inFour > 365 then (inFour - 1) / 365 else 0;
    day := if inFour > 365 then (inFour - 1) % 365 else inFour;
    assert inFour == 365 * e + day + (if e > 0 then 1 else 0);
    k := 33 * c + 4 * f + e;
    SplitYears(c, f, e);
    assert JalaliYears(k) + day == n;
    assert day == 365 ==> e == 0 && f < 8;
  }

  lemma SplitYears(c: nat, f: nat, e: nat)
    requires f <= 8 && e <= 3 && 4 * f + e < 33
    ensures var k := 33 * c + 4 * f + e; k % 33 == 4 * f + e && k / 33 == c
    ensures JalaliYears(33 * c + 4 * f + e) == 12053 * c + 1461 * f + 365 * e + (if e > 0 then 1 else 0)
    ensures JalaliLeap(979 + 33 * c + 4 * f + e) <==> e == 0 && f < 8
  {
  }

  lemma ToJalaliKeepsTheDay(g: Date)
    requires 1600 < g.y && ValidGregorian(g)
    ensures var j := ToJalali(g);
            979 <= j.y && ValidJalali(j) && JalaliDayNumber(j) == GregorianDayNumber(g)
  {
    DaysFromGregorianIsCount(g);
    GregorianYearsOrdered(1600, g.y);
    if g.m > 1 { GregorianMonthsOrdered(g.y, 1, g.m); }
    JalaliFromDaysIsTheDay(DaysFromGregorian(g.y - 1600, g.m, g.d));
  }

  lemma GregorianYearAndDayIsTheDay(n: nat)
    ensures var (y, day) := GregorianYearAndDay(1600, n);
            && 1600 <= y
            && 0 <= day < (if GregorianLeap(y) then 366 else 365)
            && DaysBeforeGregorianYear(y) + day == n
  {
    var a, b, c, e, day := SplitDays(n);
    YearsInCycles(a, b, c, e);
    GregorianYearCount(400 * a + 100 * b + 4 * c + e);
    LeapInCycles(a, b, c, e);
  }

  /** The cascade of divisions writes `n` in 400-, 100-, 4- and 1-year cycles. */
  lemma SplitDays(n: nat) returns (a: nat, b: nat, c: nat, e: nat, day: nat)
    ensures b <= 3 && c <= 24 && e <= 3
    ensures GregorianYearAndDay(1600, n) == (1600 + 400 * a + 100 * b + 4 * c + e, day)
    ensures n == 146097 * a + 36524 * b + 1461 * c + 365 * e + day
                 + (if e > 0 then 1 else 0) + (if b > 0 && c == 0 && e == 0 then 1 else 0)
    ensures day < (if e == 0 && (c > 0 || b == 0) then 366 else 365)
  {
    var in400, in100, in4;
    a, in400 := n / 146097, n % 146097;
    b, in100 := 0, in400;
    if in400 > 36524 {
      b, in100 := (in400 - 1) / 36524, (in400 - 1) % 36524;
      assert in400 == 36524 * b + in100 + 1;
      if in100 >= 365 { in100 := in100 + 1; }
    }
    c, in4 := in100 / 1461, in100 % 1461;
    e, day := 0, in4;
    if in4 > 365 {
      e, day := (in4 - 1) / 365, (in4 - 1) % 365;
    }
  }

  /** Floor division is determined by a quotient and a remainder in range. */
  lemma Quotient(n: int, c: int, q: int, r: int)
    requires c == 4 || c == 100 || c == 400
    requires n == c * q + r && 0 <= r < c
    ensures n / c == q && n % c == r
  {
  }

  lemma YearsInCycles(a: nat, b: nat, c: nat, e: nat)
    requires b <= 3 && c <= 24 && e <= 3
    ensures GregorianYears(400 * a + 100 * b + 4 * c + e)
            == 146097 * a + 36524 * b + 1461 * c + 365 * e
               + (if e > 0 then 1 else 0)
               + (if b > 0 && c == 0 && e == 0 then 1 else 0)
  {
    var k := 400 * a + 100 * b + 4 * c + e;
    var lo := 4 * c + e;
    var e0 := if e > 0 then 1 else 0;
    var lo0 := if lo > 0 then 1 else 0;
    var b0 := if b > 0 || lo > 0 then 1 else 0;
    Quotient(k + 3, 4, 100 * a + 25 * b + c + e0, e + 3 - 4 * e0);
    Quotient(k + 99, 100, 4 * a + b + lo0, lo + 99 - 100 * lo0);
    Quotient(k + 399, 400, a + b0, 100 * b + lo + 399 - 400 * b0);
  }

  lemma LeapInCycles(a: nat, b: nat, c: nat, e: nat)
    requires b <= 3 && c <= 24 && e <= 3
    ensures GregorianLeap(1600 + 400 * a + 100 * b + 4 * c + e) <==> e == 0 && (c > 0 || b == 0)
  {
    var y := 1600 + 400 * a + 100 * b + 4 * c + e;
    Quotient(y, 4, 400 + 100 * a + 25 * b + c, e);
    Quotient(y, 100, 16 + 4 * a + b, 4 * c + e);
    Quotient(y, 400, 4 + a, 100 * b + 4 * c + e);
  }

  /** The month loop keeps the day and stops inside the year it started in. */
  lemma {:induction false} PeelMonthsKeepsTheDay(y: int, m: int, d: int)
    requires 1 <= m <= 12 && 1 <= d
    requires DaysBeforeGregorianMonth(y, m) + d <= DaysBeforeGregorianMonth(y, 13)
    ensures var g := PeelMonths(y, m, d);
            && g.y == y && ValidGregorian(g)
            && DaysBeforeGregorianMonth(y, g.m) + g.d == DaysBeforeGregorianMonth(y, m) + d
    decreases 13 - m
  {
    if d > GregorianMonthLength(y, m) {
      PeelMonthsKeepsTheDay(y, m + 1, d - GregorianMonthLength(y, m));
    }
  }

  lemma GregorianFromDaysIsTheDay(n: nat)
    ensures var g := GregorianFromDays(1600, n);
            1600 <= g.y && ValidGregorian(g) && GregorianDayNumber(g) == n
  {
    var (y, day) := GregorianYearAndDay(1600, n);
    GregorianYearAndDayIsTheDay(n);
    GregorianMonthCount(y, 13);
    PeelMonthsKeepsTheDay(y, 1, day + 1);
  }

  /** For any month and any day that digits can write, also 0 and past the end of the month
      or the year, the second converter yields the valid Gregorian date of the counted day. */
  lemma ToGregorianKeepsTheDay(j: Date)
    requires 979 < j.y && 0 <= j.m && 0 <= j.d
    ensures var g := ToGregorian(j);
            && ValidGregorian(g)
            && 1600 < g.y
            && GregorianDayNumber(g) == DaysFromJalali(j.y - 979, j.m, j.d)
            && (1 <= j.m && 1 <= j.d ==> !Before(g, Date(1601, 3, 21)))
  {
    JalaliYearsMonotone(j.y - 979);
    GregorianFromDaysIsTheDay(DaysFromJalali(j.y - 979, j.m, j.d));
    hide JalaliYears, ToGregorian;
    NotBefore(ToGregorian(j), Date(1601, 1, 1));
    NotBefore(ToGregorian(j), Date(1601, 3, 21));
  }

  lemma NotBefore(g: Date, epoch: Date)
    requires ValidGregorian(g) && 1600 <= g.y
    requires epoch == Date(1601, 1, 1) || epoch == Date(1601, 3, 21)
    ensures GregorianDayNumber(epoch) == (if epoch.m == 1 then 366 else 445)
    ensures GregorianDayNumber(epoch) <= GregorianDayNumber(g) ==> !Before(g, epoch)
  {
    DaysFromGregorianIsCount(epoch);
    GregorianOrder(g, epoch);
  }

  lemma {:induction false} JalaliYearsMonotone(k: nat)
    requires 1 <= k
    ensures 366 <= JalaliYears(k)
  {
    if k > 1 {
      JalaliYearsMonotone(k - 1);
      JalaliYearStep(k - 1);
    }
  }

  // ----------------------------------------------------------- Before the base years

  /** Up to 1600 the first converter does what it does 979 years later, and counts the years
      back: it takes those years for ones of the same places in the cycles. */
  lemma EarlyGregorianIsShifted(g: Date)
    requires 621 < g.y <= 1600 && 1 <= g.m <= 12
    ensures var later := ToJalali(Date(g.y + 979, g.m, g.d)); ToJalali(g) == later.(y := later.y - 979)
  {
    var n := DaysFromGregorian(g.y - 621, g.m, g.d);
    assert JalaliFromDays(979, n) == JalaliFromDays(0, n).(y := JalaliFromDays(0, n).y + 979);
    hide JalaliFromDays, DaysFromGregorian;
  }

  /** So does the second one up to 979, with the day of the year kept and the months those of
      the earlier year. */
  lemma EarlyJalaliIsShifted(j: Date)
    requires 0 < j.y <= 979 && 0 <= j.m && 0 <= j.d
    ensures var later := ToGregorian(Date(j.y + 979, j.m, j.d));
            && 1 <= later.m <= 12
            && ToGregorian(j) == PeelMonths(later.y - 979, 1, DaysBeforeGregorianMonth(later.y, later.m) + later.d)
  {
    hide DaysFromJalali, GregorianYearAndDay, PeelMonths, JalaliYears;
    NaturalDays(j);
    var n := DaysFromJalali(j.y, j.m, j.d);
    var (y, day) := GregorianYearAndDay(1600, n);
    YearsAreShifted(n);
    GregorianYearAndDayIsTheDay(n);
    GregorianMonthCount(y, 13);
    PeelMonthsKeepsTheDay(y, 1, day + 1);
  }

  lemma NaturalDays(j: Date)
    requires 0 < j.y && 0 <= j.m && 0 <= j.d
    ensures 0 <= DaysFromJalali(j.y, j.m, j.d)
  {
    JalaliYearsMonotone(j.y);
    hide JalaliYears;
  }

  lemma YearsAreShifted(n: nat)
    ensures var (y, day) := GregorianYearAndDay(1600, n); GregorianYearAndDay(621, n) == (y - 979, day)
  {
  }

  // ----------------------------------------------------------------- Theorems

  predicate FromEpochGregorian(g: Date) {
    ValidGregorian(g) && !Before(g, Date(1601, 3, 21))
  }

  predicate FromEpochJalali(j: Date) {
    ValidJalali(j) && 980 <= j.y
  }

  lemma EpochDays(g: Date)
    requires ValidGregorian(g) && 1600 <= g.y
    ensures FromEpochGregorian(g) <==> 445 <= GregorianDayNumber(g)
    ensures FromEpochGregorian(g) ==> 1600 < g.y
  {
    var epoch := Date(1601, 3, 21);
    DaysFromGregorianIsCount(epoch);
    GregorianOrder(g, epoch);
  }

  lemma EpochJalaliDays(j: Date)
    requires ValidJalali(j) && 979 <= j.y
    ensures FromEpochJalali(j) <==> 445 <= JalaliDayNumber(j)
  {
    var epoch := Date(980, 1, 1);
    JalaliYearCount(1);
    JalaliOrder(j, epoch);
  }

  /** Forward then back is the identity on every valid Jalali date from 980/1/1, through a
      valid Gregorian date of the same day. */
  lemma JalaliRoundTrip(j: Date)
    requires FromEpochJalali(j)
    ensures var g := ToGregorian(j);
            && FromEpochGregorian(g)
            && GregorianDayNumber(g) == JalaliDayNumber(j)
            && ToJalali(g) == j
  {
    var g := ToGregorian(j);
    ToGregorianKeepsTheDay(j);
    DaysFromJalaliIsCount(j);
    EpochDays(g);
    ToJalaliKeepsTheDay(g);
    JalaliOrder(ToJalali(g), j);
    JalaliOrder(j, ToJalali(g));
  }

  /** The converter does not check its input: whatever month and day are typed, it lands
      on some real day. Coming back gives what was typed exactly when that was a date. */
  lemma JalaliRoundTripIffValid(j: Date)
    requires 980 <= j.y && 0 <= j.m && 0 <= j.d
    ensures ValidGregorian(ToGregorian(j)) && 1600 < ToGregorian(j).y
    ensures 1 <= j.m && 1 <= j.d ==> FromEpochGregorian(ToGregorian(j))
    ensures ToJalali(ToGregorian(j)) == j <==> ValidJalali(j)
  {
    hide ToGregorian, ToJalali;
    ToGregorianKeepsTheDay(j);
    EpochDays(ToGregorian(j));
    ToJalaliKeepsTheDay(ToGregorian(j));
    if ValidJalali(j) { JalaliRoundTrip(j); }
  }

  lemma GregorianRoundTrip(g: Date)
    requires FromEpochGregorian(g)
    ensures var j := ToJalali(g);
            && FromEpochJalali(j)
            && JalaliDayNumber(j) == GregorianDayNumber(g)
            && ToGregorian(j) == g
  {
    var j := ToJalali(g);
    EpochDays(g);
    ToJalaliKeepsTheDay(g);
    EpochJalaliDays(j);
    ToGregorianKeepsTheDay(j);
    DaysFromJalaliIsCount(j);
    GregorianOrder(ToGregorian(j), g);
    GregorianOrder(g, ToGregorian(j));
  }

  lemma ConversionKeepsOrder(a: Date, b: Date)
    requires FromEpochGregorian(a) && FromEpochGregorian(b)
    ensures Before(a, b) <==> Before(ToJalali(a), ToJalali(b))
  {
    GregorianRoundTrip(a);
    GregorianRoundTrip(b);
    GregorianOrder(a, b);
    JalaliOrder(ToJalali(a), ToJalali(b));
  }

  lemma NextDayConverts(g: Date)
    requires FromEpochGregorian(g)
    ensures FromEpochGregorian(NextGregorianDay(g))
    ensures ToJalali(NextGregorianDay(g)) == NextJalaliDay(ToJalali(g))
  {
    var next := NextGregorianDay(g);
    EpochDays(g);
    NextGregorianDayNumber(g);
    EpochDays(next);
    GregorianRoundTrip(g);
    GregorianRoundTrip(next);
    NextJalaliDayNumber(ToJalali(g));
    JalaliOrder(ToJalali(next), NextJalaliDay(ToJalali(g)));
    JalaliOrder(NextJalaliDay(ToJalali(g)), ToJalali(next));
  }
}
