/** Proleptic Gregorian calendar dates as Python's `datetime.fromtimestamp(ts, tz=utc).date()`
    and `date.isoformat()` produce them (used by fastapi-oauth/app/repos/clientes_repo.py).
    Days are counted from 1970-01-01. */
module CivilDates {
  import opened Common

  const SecondsPerDay := 86400

  datatype Date = Date(year: int, month: int, day: int)

  predicate IsLeap(y: int) {
    y % 4 == 0 && (y % 100 != 0 || y % 400 == 0)
  }

  function DaysInYear(y: int): nat {
    if IsLeap(y) then 366 else 365
  }

  function DaysInMonth(y: int, m: int): nat
    requires 1 <= m <= 12
  {
    if m == 2 then (if IsLeap(y) then 29 else 28)
    else if m == 4 || m == 6 || m == 9 || m == 11 then 30
    else 31
  }

  predicate ValidDate(d: Date) {
    1 <= d.month <= 12 && 1 <= d.day <= DaysInMonth(d.year, d.month)
  }

  /** Days of the year before the first of month `m` (`m == 13` is the whole year). */
  function DaysBeforeMonth(y: int, m: int): nat
    requires 1 <= m <= 13
  {
    if m == 1 then 0 else DaysBeforeMonth(y, m - 1) + DaysInMonth(y, m - 1)
  }

  lemma MonthsFillYear(y: int)
    ensures DaysBeforeMonth(y, 13) == DaysInYear(y)
  {
    assert DaysBeforeMonth(y, 2) == 31;
    assert DaysBeforeMonth(y, 3) == 31 + DaysInMonth(y, 2);
    assert DaysBeforeMonth(y, 4) == 62 + DaysInMonth(y, 2);
    assert DaysBeforeMonth(y, 5) == 92 + DaysInMonth(y, 2);
    assert DaysBeforeMonth(y, 6) == 123 + DaysInMonth(y, 2);
    assert DaysBeforeMonth(y, 7) == 153 + DaysInMonth(y, 2);
    assert DaysBeforeMonth(y, 8) == 184 + DaysInMonth(y, 2);
    assert DaysBeforeMonth(y, 9) == 215 + DaysInMonth(y, 2);
    assert DaysBeforeMonth(y, 10) == 245 + DaysInMonth(y, 2);
    assert DaysBeforeMonth(y, 11) == 276 + DaysInMonth(y, 2);
    assert DaysBeforeMonth(y, 12) == 306 + DaysInMonth(y, 2);
  }

  /** Days from 1970-01-01 to the first of January of `y` (negative before 1970). */
  function DaysBeforeYear(y: int): int
    decreases if y >= 1970 then y - 1970 else 1970 - y
  {
    if y == 1970 then 0
    else if y > 1970 then DaysBeforeYear(y - 1) + DaysInYear(y - 1)
    else DaysBeforeYear(y + 1) - DaysInYear(y)
  }

  lemma NextYear(y: int)
    ensures DaysBeforeYear(y + 1) == DaysBeforeYear(y) + DaysInYear(y)
  {
  }

  /** Walks forward from the first of January of `y` by `rem` days. */
  function YearUp(y: int, rem: nat): (r: (int, nat))
    ensures r.1 < DaysInYear(r.0)
    decreases rem
  {
    if rem < DaysInYear(y) then (y, rem) else YearUp(y + 1, rem - DaysInYear(y))
  }

  /** Walks backward from the first of January of `y` by `-rem` days. */
  function YearDown(y: int, rem: int): (r: (int, nat))
    requires rem < 0
    ensures r.1 < DaysInYear(r.0)
    decreases -rem
  {
    var back := rem + DaysInYear(y - 1);
    if back >= 0 then (y - 1, back) else YearDown(y - 1, back)
  }

  /** Splits a day of the year into month and day, starting at month `m`. */
  function MonthWalk(y: int, m: int, rem: nat): (d: Date)
    requires 1 <= m <= 12 && rem < DaysInYear(y) - DaysBeforeMonth(y, m)
    ensures ValidDate(d) && d.year == y
    decreases 12 - m
  {
    MonthsFillYear(y);
    if rem < DaysInMonth(y, m) then Date(y, m, rem + 1)
    else MonthWalk(y, m + 1, rem - DaysInMonth(y, m))
  }

  /** The date `z` days after 1970-01-01. */
  function CivilFromDays(z: int): (d: Date)
    ensures ValidDate(d)
  {
    var yr := if z >= 0 then YearUp(1970, z) else YearDown(1970, z);
    MonthWalk(yr.0, 1, yr.1)
  }

  /** The number of days from 1970-01-01 to a date. */
  function DaysFromCivil(d: Date): int
    requires ValidDate(d)
  {
    DaysBeforeYear(d.year) + DaysBeforeMonth(d.year, d.month) + d.day - 1
  }

  lemma {:induction false} YearUpSum(y: int, rem: nat)
    ensures DaysBeforeYear(YearUp(y, rem).0) + YearUp(y, rem).1 == DaysBeforeYear(y) + rem
    decreases rem
  {
    if rem >= DaysInYear(y) {
      NextYear(y);
      YearUpSum(y + 1, rem - DaysInYear(y));
    }
  }

  lemma {:induction false} YearDownSum(y: int, rem: int)
    requires rem < 0
    ensures DaysBeforeYear(YearDown(y, rem).0) + YearDown(y, rem).1 == DaysBeforeYear(y) + rem
    decreases -rem
  {
    NextYear(y - 1);
    var back := rem + DaysInYear(y - 1);
    if back < 0 {
      YearDownSum(y - 1, back);
    }
  }

  lemma {:induction false} MonthWalkSum(y: int, m: int, rem: nat)
    requires 1 <= m <= 12 && rem < DaysInYear(y) - DaysBeforeMonth(y, m)
    ensures DaysBeforeMonth(y, MonthWalk(y, m, rem).month) + MonthWalk(y, m, rem).day - 1
            == DaysBeforeMonth(y, m) + rem
    decreases 12 - m
  {
    MonthsFillYear(y);
    if rem >= DaysInMonth(y, m) {
      MonthWalkSum(y, m + 1, rem - DaysInMonth(y, m));
    }
  }

  /** Counting the days back from the computed date gives the day number again. */
  lemma CivilRoundTrip(z: int)
    ensures DaysFromCivil(CivilFromDays(z)) == z
  {
    var yr := if z >= 0 then YearUp(1970, z) else YearDown(1970, z);
    if z >= 0 {
      YearUpSum(1970, z);
    } else {
      YearDownSum(1970, z);
    }
    MonthWalkSum(yr.0, 1, yr.1);
  }

  /** The calendar date of a timestamp, in UTC (the day number is rounded down). */
  function EpochDate(ts: int): (d: Date)
    ensures ValidDate(d)
  {
    CivilFromDays(ts / SecondsPerDay)
  }

  /** The timestamp falls within the day the date denotes. */
  lemma EpochDateContains(ts: int)
    ensures SecondsPerDay * DaysFromCivil(EpochDate(ts)) <= ts < SecondsPerDay * (DaysFromCivil(EpochDate(ts)) + 1)
  {
    CivilRoundTrip(ts / SecondsPerDay);
  }

  /** Years `date` can represent. */
  predicate InRange(d: Date) {
    1 <= d.year <= 9999
  }

  /** `date.isoformat()`: YYYY-MM-DD, zero-padded. */
  function IsoDate(d: Date): (s: string)
    requires ValidDate(d) && InRange(d)
    ensures |s| == 10 && s[4] == '-' && s[7] == '-'
    ensures IsDigits(s[..4]) && IsDigits(s[5..7]) && IsDigits(s[8..])
  {
    var s := Digits(d.year, 4) + "-" + Digits(d.month, 2) + "-" + Digits(d.day, 2);
    assert s[..4] == Digits(d.year, 4) && s[5..7] == Digits(d.month, 2) && s[8..] == Digits(d.day, 2);
    s
  }

  /** Reading the three numbers back out of the ISO text gives the date. */
  lemma IsoDateRoundTrip(d: Date)
    requires ValidDate(d) && InRange(d)
    ensures var s := IsoDate(d);
            Date(DigitsValue(s[..4]), DigitsValue(s[5..7]), DigitsValue(s[8..])) == d
  {
    var s := IsoDate(d);
    IsoDateParts(d);
    SmallDigits(d.year, 4);
    SmallDigits(d.month, 2);
    SmallDigits(d.day, 2);
  }

  lemma IsoDateParts(d: Date)
    requires ValidDate(d) && InRange(d)
    ensures IsoDate(d)[..4] == Digits(d.year, 4)
    ensures IsoDate(d)[5..7] == Digits(d.month, 2)
    ensures IsoDate(d)[8..] == Digits(d.day, 2)
  {
  }

  lemma SmallDigits(n: nat, k: nat)
    requires k == 2 || k == 4
    requires n < (if k == 2 then 100 else 10000)
    ensures DigitsValue(Digits(n, k)) == n
  {
    DigitsRoundTrip(n, k);
    assert Pow10(k) == (if k == 2 then 100 else 10000) by {
      assert Pow10(1) == 10;
      assert Pow10(2) == 100;
      assert Pow10(3) == 1000;
    }
    ModOfSmaller(n, Pow10(k));
  }

}
