/**
 * The calendar arithmetic behind `DateField`: parsing `%Y%m%d` and the
 * day count `(now - date).days` that `BirthDayField` bounds.
 */
module Dates {

  import opened Wrappers

  datatype Date = Date(year: int, month: int, day: int)

  predicate IsLeap(y: int) {
    y % 4 == 0 && (y % 100 != 0 || y % 400 == 0)
  }

  function DaysInMonth(y: int, m: int): (r: int)
    requires 1 <= m <= 12
    ensures 28 <= r <= 31
  {
    if m == 2 then (if IsLeap(y) then 29 else 28)
    else if m == 4 || m == 6 || m == 9 || m == 11 then 30
    else 31
  }

  /** A date `datetime.datetime` can represent (years 1..9999). */
  predicate ValidDate(d: Date) {
    1 <= d.year <= 9999 && 1 <= d.month <= 12 && 1 <= d.day <= DaysInMonth(d.year, d.month)
  }

  function DaysBeforeYear(y: int): int
    requires y >= 1
  {
    var p := y - 1;
    p * 365 + p / 4 - p / 100 + p / 400
  }

  function DaysBeforeMonth(y: int, m: int): (r: int)
    requires 1 <= m <= 12
    decreases m
  {
    if m == 1 then 0 else DaysBeforeMonth(y, m - 1) + DaysInMonth(y, m - 1)
  }

  /** Proleptic Gregorian ordinal (`date.toordinal()`): 0001-01-01 is day 1. */
  function Ordinal(d: Date): int
    requires ValidDate(d)
  {
    DaysBeforeYear(d.year) + DaysBeforeMonth(d.year, d.month) + d.day
  }

  predicate IsDigit(c: char) {
    '0' <= c <= '9'
  }

  function DigitsValue(s: string): (r: nat)
    requires forall k :: 0 <= k < |s| ==> IsDigit(s[k])
  {
    if |s| == 0 then 0
    else
      assert IsDigit(s[|s| - 1]);
      DigitsValue(s[..|s| - 1]) * 10 + (s[|s| - 1] as int - '0' as int)
  }

  predicate AllDigits(s: string) {
    forall k :: 0 <= k < |s| ==> IsDigit(s[k])
  }

  /**
   * `strptime(s, "%Y%m%d")`, read strictly: eight ASCII digits forming a
   * representable calendar date. `None` is the `ValueError` case.
   */
  function ParseYmd(s: string): (r: Option<Date>)
    ensures r.Some? ==> ValidDate(r.value)
    ensures r.Some? ==> |s| == 8 && AllDigits(s)
    ensures (|s| == 8 && AllDigits(s)
             && ValidDate(Date(DigitsValue(s[..4]), DigitsValue(s[4..6]), DigitsValue(s[6..8])))) ==> r.Some?
    ensures r.Some? ==>
              && r.value.year == DigitsValue(s[..4])
              && r.value.month == DigitsValue(s[4..6])
              && r.value.day == DigitsValue(s[6..8])
  {
    if |s| != 8 || !AllDigits(s) then None
    else
      var d := Date(DigitsValue(s[..4]), DigitsValue(s[4..6]), DigitsValue(s[6..8]));
      if ValidDate(d) then Some(d) else None
  }

  /** `70 * 365.25`, the birthday bound, held as quarter days so it stays exact. */
  const BirthdayQuarterDays: int := 70 * 1461

  /**
   * `(now - date).days > 70 * 365.25` for a `now` on day `today`: the time of
   * day `now` carries is under one day, so `.days` is the ordinal difference.
   */
  predicate TooFarInPast(today: int, d: Date)
    requires ValidDate(d)
  {
    4 * (today - Ordinal(d)) > BirthdayQuarterDays
  }

  /** The fractional bound means "at least 25568 whole days ago". */
  lemma TooFarInPastIffDays(today: int, d: Date)
    requires ValidDate(d)
    ensures TooFarInPast(today, d) <==> today - Ordinal(d) >= 25568
  {
  }
}
