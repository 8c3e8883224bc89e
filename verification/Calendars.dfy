/** The Gregorian and Jalali calendars, counted naively.

    This module is the reference: it says what a valid date is in each calendar and
    counts days by adding up year lengths and month lengths one at a time. Both counts
    use the same axis, whose day 0 is 1600-01-01 and whose day 79 is 979/1/1, so two
    dates denote the same day exactly when their day numbers are equal. */
module Calendars {

  datatype Date = Date(y: int, m: int, d: int)

  predicate Before(a: Date, b: Date) {
    a.y < b.y || (a.y == b.y && (a.m < b.m || (a.m == b.m && a.d < b.d)))
  }

  // ---------------------------------------------------------------- Gregorian

  /** The leap rule of Appendix C of RFC 3339. */
  predicate GregorianLeap(y: int) {
    (y % 4 == 0 && y % 100 != 0) || y % 400 == 0
  }

  function GregorianMonthLength(y: int, m: int): int {
    if m == 2 then (if GregorianLeap(y) then 29 else 28)
    else if m == 4 || m == 6 || m == 9 || m == 11 then 30
    else 31
  }

  predicate ValidGregorian(g: Date) {
    1 <= g.m <= 12 && 1 <= g.d <= GregorianMonthLength(g.y, g.m)
  }

  function DaysBeforeGregorianYear(y: int): int
    requires 1600 <= y
    decreases y
  {
    if y == 1600 then 0
    else DaysBeforeGregorianYear(y - 1) + (if GregorianLeap(y - 1) then 366 else 365)
  }

  function DaysBeforeGregorianMonth(y: int, m: int): int
    requires 1 <= m <= 13
    decreases m
  {
    if m == 1 then 0 else DaysBeforeGregorianMonth(y, m - 1) + GregorianMonthLength(y, m - 1)
  }

  function GregorianDayNumber(g: Date): int
    requires 1600 <= g.y && 1 <= g.m <= 13
  {
    DaysBeforeGregorianYear(g.y) + DaysBeforeGregorianMonth(g.y, g.m) + g.d - 1
  }

  function NextGregorianDay(g: Date): Date {
    if g.d < GregorianMonthLength(g.y, g.m) then g.(d := g.d + 1)
    else if g.m < 12 then Date(g.y, g.m + 1, 1)
    else Date(g.y + 1, 1, 1)
  }

  // ------------------------------------------------------------------- Jalali

  /** Eight leap years in every 33, counted from year 979. */
  predicate JalaliLeap(y: int) {
    (y - 979) % 33 in {0, 4, 8, 12, 16, 20, 24, 28}
  }

  function JalaliMonthLength(y: int, m: int): int {
    if m <= 6 then 31
    else if m <= 11 then 30
    else if JalaliLeap(y) then 30 else 29
  }

  predicate ValidJalali(j: Date) {
    1 <= j.m <= 12 && 1 <= j.d <= JalaliMonthLength(j.y, j.m)
  }

  function DaysBeforeJalaliYear(y: int): int
    requires 979 <= y
    decreases y
  {
    if y == 979 then 79
    else DaysBeforeJalaliYear(y - 1) + (if JalaliLeap(y - 1) then 366 else 365)
  }

  function DaysBeforeJalaliMonth(y: int, m: int): int
    requires 1 <= m <= 13
    decreases m
  {
    if m == 1 then 0 else DaysBeforeJalaliMonth(y, m - 1) + JalaliMonthLength(y, m - 1)
  }

  function JalaliDayNumber(j: Date): int
    requires 979 <= j.y && 1 <= j.m <= 13
  {
    DaysBeforeJalaliYear(j.y) + DaysBeforeJalaliMonth(j.y, j.m) + j.d - 1
  }

  function NextJalaliDay(j: Date): Date {
    if j.d < JalaliMonthLength(j.y, j.m) then j.(d := j.d + 1)
    else if j.m < 12 then Date(j.y, j.m + 1, 1)
    else Date(j.y + 1, 1, 1)
  }

  // ---------------------------------------------------------- Closed day counts

  /** Days in `k` Gregorian years from 1600, without counting them one by one. */
  function GregorianYears(k: int): int {
    365 * k + (k + 3) / 4 - (k + 99) / 100 + (k + 399) / 400
  }

  /** Days in `k` Jalali years from 979. */
  function JalaliYears(k: int): int {
    365 * k + (k / 33) * 8 + (k % 33 + 3) / 4
  }

  lemma {:induction false} GregorianYearCount(k: nat)
    ensures DaysBeforeGregorianYear(1600 + k) == GregorianYears(k)
  {
    if k != 0 {
      GregorianYearCount(k - 1);
      GregorianYearStep(k - 1);
    }
  }

  lemma GregorianYearStep(k: nat)
    ensures GregorianYears(k + 1) == GregorianYears(k) + (if GregorianLeap(1600 + k) then 366 else 365)
  {
    StepQuotient(k, 4, 3);
    StepQuotient(k, 100, 99);
    StepQuotient(k, 400, 399);
    LeapCycle(k);
  }

  lemma LeapCycle(k: nat)
    ensures (1600 + k) % 4 == k % 4 && (1600 + k) % 100 == k % 100 && (1600 + k) % 400 == k % 400
    ensures k % 400 == 0 ==> k % 100 == 0
    ensures k % 100 == 0 ==> k % 4 == 0
  {
    var q := k / 400;
    assert k == 400 * q + k % 400;
    assert k % 100 == (k % 400) % 100;
    var p := k / 100;
    assert k == 100 * p + k % 100;
    assert k % 4 == (k % 100) % 4;
  }

  /** Rounding up to multiples of `c` moves exactly when `k` is a multiple. */
  lemma StepQuotient(k: nat, c: nat, up: nat)
    requires c == 4 || c == 100 || c == 400
    requires up == c - 1
    ensures (k + 1 + up) / c == (k + up) / c + (if k % c == 0 then 1 else 0)
  {
  }

  lemma {:induction false} JalaliYearCount(k: nat)
    ensures DaysBeforeJalaliYear(979 + k) == 79 + JalaliYears(k)
  {
    if k != 0 {
      JalaliYearCount(k - 1);
      JalaliYearStep(k - 1);
    }
  }

  lemma JalaliYearStep(k: nat)
    ensures JalaliYears(k + 1) == JalaliYears(k) + (if JalaliLeap(979 + k) then 366 else 365)
  {
    if k % 33 == 32 {
      assert (k + 1) % 33 == 0 && (k + 1) / 33 == k / 33 + 1;
    } else {
      assert (k + 1) % 33 == k % 33 + 1 && (k + 1) / 33 == k / 33;
    }
  }

  lemma GregorianMonthCount(y: int, m: int)
    requires 1 <= m <= 13
    ensures DaysBeforeGregorianMonth(y, m) ==
            [0, 31, 59, 90, 120, 151, 181, 212, 243, 273, 304, 334, 365][m - 1]
              + (if m > 2 && GregorianLeap(y) then 1 else 0)
  {
    if m > 1 { GregorianMonthCount(y, m - 1); }
  }

  lemma JalaliMonthCount(y: int, m: int)
    requires 1 <= m <= 12
    ensures DaysBeforeJalaliMonth(y, m) == if m < 7 then (m - 1) * 31 else (m - 7) * 30 + 186
  {
    if m > 1 { JalaliMonthCount(y, m - 1); }
  }

  // --------------------------------------------- Day numbers order the dates

  lemma {:induction false} GregorianYearsOrdered(a: int, b: int)
    requires 1600 <= a < b
    ensures DaysBeforeGregorianYear(a) + (if GregorianLeap(a) then 366 else 365) <= DaysBeforeGregorianYear(b)
    decreases b
  {
    if a != b - 1 { GregorianYearsOrdered(a, b - 1); }
  }

  lemma {:induction false} JalaliYearsOrdered(a: int, b: int)
    requires 979 <= a < b
    ensures DaysBeforeJalaliYear(a) + (if JalaliLeap(a) then 366 else 365) <= DaysBeforeJalaliYear(b)
    decreases b
  {
    if a != b - 1 { JalaliYearsOrdered(a, b - 1); }
  }

  lemma {:induction false} GregorianMonthsOrdered(y: int, a: int, b: int)
    requires 1 <= a < b <= 13
    ensures DaysBeforeGregorianMonth(y, a) + GregorianMonthLength(y, a) <= DaysBeforeGregorianMonth(y, b)
    decreases b
  {
    if a != b - 1 { GregorianMonthsOrdered(y, a, b - 1); }
  }

  lemma {:induction false} JalaliMonthsOrdered(y: int, a: int, b: int)
    requires 1 <= a < b <= 13
    ensures DaysBeforeJalaliMonth(y, a) + JalaliMonthLength(y, a) <= DaysBeforeJalaliMonth(y, b)
    decreases b
  {
    if a != b - 1 { JalaliMonthsOrdered(y, a, b - 1); }
  }

  lemma GregorianOrder(a: Date, b: Date)
    requires ValidGregorian(a) && ValidGregorian(b) && 1600 <= a.y && 1600 <= b.y
    ensures Before(a, b) <==> GregorianDayNumber(a) < GregorianDayNumber(b)
  {
    if Before(a, b) { GregorianBefore(a, b); }
    if Before(b, a) { GregorianBefore(b, a); }
  }

  lemma GregorianBefore(a: Date, b: Date)
    requires ValidGregorian(a) && ValidGregorian(b) && 1600 <= a.y && 1600 <= b.y
    requires Before(a, b)
    ensures GregorianDayNumber(a) < GregorianDayNumber(b)
  {
    if a.y < b.y {
      GregorianYearsOrdered(a.y, b.y);
      GregorianMonthCount(a.y, 13);
      GregorianMonthsOrdered(a.y, a.m, 13);
      if b.m > 1 { GregorianMonthsOrdered(b.y, 1, b.m); }
    } else if a.m < b.m {
      GregorianMonthsOrdered(a.y, a.m, b.m);
    }
  }

  lemma JalaliOrder(a: Date, b: Date)
    requires ValidJalali(a) && ValidJalali(b) && 979 <= a.y && 979 <= b.y
    ensures Before(a, b) <==> JalaliDayNumber(a) < JalaliDayNumber(b)
  {
    if Before(a, b) { JalaliBefore(a, b); }
    if Before(b, a) { JalaliBefore(b, a); }
  }

  lemma JalaliBefore(a: Date, b: Date)
    requires ValidJalali(a) && ValidJalali(b) && 979 <= a.y && 979 <= b.y
    requires Before(a, b)
    ensures JalaliDayNumber(a) < JalaliDayNumber(b)
  {
    if a.y < b.y {
      JalaliYearsOrdered(a.y, b.y);
      JalaliYearLength(a.y);
      JalaliMonthsOrdered(a.y, a.m, 13);
      if b.m > 1 { JalaliMonthsOrdered(b.y, 1, b.m); }
    } else if a.m < b.m {
      JalaliMonthsOrdered(a.y, a.m, b.m);
    }
  }

  lemma JalaliYearLength(y: int)
    ensures DaysBeforeJalaliMonth(y, 13) == if JalaliLeap(y) then 366 else 365
  {
    JalaliMonthCount(y, 12);
  }

  lemma NextGregorianDayNumber(g: Date)
    requires ValidGregorian(g) && 1600 <= g.y
    ensures ValidGregorian(NextGregorianDay(g))
    ensures GregorianDayNumber(NextGregorianDay(g)) == GregorianDayNumber(g) + 1
  {
    GregorianMonthCount(g.y, 13);
  }

  lemma NextJalaliDayNumber(j: Date)
    requires ValidJalali(j) && 979 <= j.y
    ensures ValidJalali(NextJalaliDay(j))
    ensures JalaliDayNumber(NextJalaliDay(j)) == JalaliDayNumber(j) + 1
  {
    JalaliYearLength(j.y);
  }
}
