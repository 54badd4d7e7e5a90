/**
 * Calendar dates as the data layer reads them (`getFullYear`, `getMonth`, `getDate`, `getTime`), in
 * the proleptic Gregorian calendar. Every date is taken at midnight UTC; time zones are not modelled.
 */
module Dates {

  /** A calendar date; `month` counts from 0 (January) to 11, as `getMonth` does. */
  datatype Date = Date(year: int, month: int, day: int)

  const MS_PER_DAY: int := 86400000

  predicate IsLeapYear(y: int) {
    y % 4 == 0 && (y % 100 != 0 || y % 400 == 0)
  }

  function DaysInMonth(year: int, month: int): int {
    if month == 1 then (if IsLeapYear(year) then 29 else 28)
    else if month == 3 || month == 5 || month == 8 || month == 10 then 30
    else 31
  }

  /** A date that names a real calendar day. */
  predicate ValidDate(d: Date) {
    0 <= d.month < 12 && 1 <= d.day <= DaysInMonth(d.year, d.month)
  }

  /**
   * Days from the start of the proleptic calendar's first 400-year era to 1 March of `y`. Years are
   * counted from March here, so that a leap day is the last day of its year; `/` and `%` on a positive
   * divisor floor, as the count needs.
   */
  function MarchFirst(y: int): int {
    var era := y / 400;
    var yoe := y % 400;
    era * 146097 + yoe * 365 + yoe / 4 - yoe / 100
  }

  /** Position of `day` of `month` within a year that starts on 1 March. */
  function DayOfMarchYear(month: int, day: int): int {
    var mp := if month >= 2 then month - 2 else month + 10;
    (153 * mp + 2) / 5 + day - 1
  }

  /** Days since 1970-01-01 (which is day 719468 of the count). */
  function DayNumber(d: Date): int {
    var y := if d.month <= 1 then d.year - 1 else d.year;
    MarchFirst(y) + DayOfMarchYear(d.month, d.day) - 719468
  }

  /** `getTime()` of the date: milliseconds since the epoch at its midnight. */
  function TimeOfDate(d: Date): int {
    DayNumber(d) * MS_PER_DAY
  }

  /** The calendar day after `d`. */
  function NextDay(d: Date): (n: Date)
    requires ValidDate(d)
    ensures ValidDate(n)
  {
    if d.day < DaysInMonth(d.year, d.month) then Date(d.year, d.month, d.day + 1)
    else if d.month < 11 then Date(d.year, d.month + 1, 1)
    else Date(d.year + 1, 0, 1)
  }

  /** Adding a multiple of the modulus does not change the remainder, for the moduli of the leap rule. */
  lemma ShiftRemainder4(q: int, z: int)
    ensures (4 * q + z) % 4 == z % 4
  {
  }

  lemma ShiftRemainder100(q: int, z: int)
    ensures (100 * q + z) % 100 == z % 100
  {
  }

  lemma ShiftRemainder400(q: int, z: int)
    ensures (400 * q + z) % 400 == z % 400
  {
  }

  /** Adding whole 400-year eras does not change the remainders the leap rule looks at. */
  lemma EraRemainders(era: int, z: int)
    ensures (era * 400 + z) % 4 == z % 4
    ensures (era * 400 + z) % 100 == z % 100
    ensures (era * 400 + z) % 400 == z % 400
  {
    ShiftRemainder4(era * 100, z);
    ShiftRemainder100(era * 4, z);
    ShiftRemainder400(era, z);
    assert era * 400 == 4 * (era * 100) == 100 * (era * 4) == 400 * era;
  }

  /** Stepping from `n` to `n + 1` raises the quotient by 4 exactly at a multiple of 4. */
  lemma QuotientStep4(n: int)
    ensures (n + 1) / 4 - n / 4 == if (n + 1) % 4 == 0 then 1 else 0
  {
  }

  /** Stepping from `n` to `n + 1` raises the quotient by 100 exactly at a multiple of 100. */
  lemma QuotientStep100(n: int)
    ensures (n + 1) / 100 - n / 100 == if (n + 1) % 100 == 0 then 1 else 0
  {
  }

  /** Splitting a year into its era and its year within the era. */
  lemma EraSplit(era: int, yoe: int)
    requires 0 <= yoe < 400
    ensures (era * 400 + yoe) / 400 == era && (era * 400 + yoe) % 400 == yoe
  {
  }

  /** The last March-based year of an era, which ends with the era's leap day. */
  lemma YearLengthAtEraEnd(era: int)
    ensures MarchFirst(era * 400 + 399 + 1) == MarchFirst(era * 400 + 399) + 366
    ensures IsLeapYear(era * 400 + 399 + 1)
  {
    EraSplit(era, 399);
    EraSplit(era + 1, 0);
    assert era * 400 + 399 + 1 == (era + 1) * 400 + 0;
    EraRemainders(era + 1, 0);
  }

  /** A March-based year inside an era. */
  lemma YearLengthInEra(era: int, yoe: int)
    requires 0 <= yoe < 399
    ensures MarchFirst(era * 400 + yoe + 1) ==
            MarchFirst(era * 400 + yoe) + (if IsLeapYear(era * 400 + yoe + 1) then 366 else 365)
  {
    EraSplit(era, yoe);
    EraSplit(era, yoe + 1);
    EraRemainders(era, yoe + 1);
    QuotientStep4(yoe);
    QuotientStep100(yoe);
  }

  /** A March-based year has 366 days exactly when the February it ends with has a 29th. */
  lemma YearLength(y: int)
    ensures MarchFirst(y + 1) == MarchFirst(y) + (if IsLeapYear(y + 1) then 366 else 365)
  {
    var era := y / 400;
    var yoe := y % 400;
    assert y == era * 400 + yoe;
    if yoe == 399 {
      YearLengthAtEraEnd(era);
    } else {
      YearLengthInEra(era, yoe);
    }
  }

  /** Within the March-based year, the first of the next month follows the last day of this one. */
  lemma MonthEnd(year: int, month: int)
    requires 0 <= month < 11 && month != 1
    ensures DayOfMarchYear(month + 1, 1) == DayOfMarchYear(month, DaysInMonth(year, month)) + 1
  {
    if month == 0 {
    } else if month == 2 {
    } else if month == 3 {
    } else if month == 4 {
    } else if month == 5 {
    } else if month == 6 {
    } else if month == 7 {
    } else if month == 8 {
    } else if month == 9 {
    } else {
    }
  }

  /** From the last day of February to 1 March: the March-based year ends. */
  lemma NextDayAfterFebruary(d: Date)
    requires ValidDate(d) && d.month == 1 && d.day == DaysInMonth(d.year, 1)
    ensures DayNumber(Date(d.year, 2, 1)) == DayNumber(d) + 1
  {
    YearLength(d.year - 1);
  }

  /** From the last day of a month other than February and December to the first of the next. */
  lemma NextDayAfterMonthEnd(d: Date)
    requires ValidDate(d) && d.month != 1 && d.month < 11 && d.day == DaysInMonth(d.year, d.month)
    ensures DayNumber(Date(d.year, d.month + 1, 1)) == DayNumber(d) + 1
  {
    MonthEnd(d.year, d.month);
  }

  /** The day count is consecutive: the next calendar day is exactly one day later. */
  lemma NextDayIsOneLater(d: Date)
    requires ValidDate(d)
    ensures DayNumber(NextDay(d)) == DayNumber(d) + 1
  {
    if d.day == DaysInMonth(d.year, d.month) {
      if d.month == 1 {
        NextDayAfterFebruary(d);
      } else if d.month < 11 {
        NextDayAfterMonthEnd(d);
      }
    }
  }

  /** 1 January 1970 is day zero. */
  lemma EpochIsDayZero()
    ensures DayNumber(Date(1970, 0, 1)) == 0
  {
  }

  /** `Math.floor(getMonth() / 3)`: the quarter, 0 to 3. */
  function Quarter(d: Date): (q: int)
    ensures 0 <= d.month < 12 ==> 0 <= q < 4
    ensures 3 * q <= d.month < 3 * q + 3
  {
    d.month / 3
  }

  /** The clock reading the period filters compare against, split into its date and time of day. */
  datatype Now = Now(date: Date, msOfDay: int)

  function NowMs(now: Now): int {
    TimeOfDate(now.date) + now.msOfDay
  }
}
