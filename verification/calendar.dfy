/** Civil timestamps with one-second resolution and the one-second steps the tool
    takes with `dt + ONE_SECOND` and `dt - ONE_SECOND`, following the proleptic
    Gregorian calendar as Python's `datetime` does. */
module Calendar {

  datatype Timestamp = Timestamp(year: int, month: int, day: int, hour: int, minute: int, second: int)

  predicate IsLeapYear(year: int)
  {
    year % 4 == 0 && (year % 100 != 0 || year % 400 == 0)
  }

  function DaysInMonth(year: int, month: int): (r: int)
    requires 1 <= month <= 12
    ensures 28 <= r <= 31
    ensures r == 29 <==> month == 2 && IsLeapYear(year)
    ensures r == 28 <==> month == 2 && !IsLeapYear(year)
  {
    if month == 2 then (if IsLeapYear(year) then 29 else 28)
    else if month == 4 || month == 6 || month == 9 || month == 11 then 30
    else 31
  }

  /** The field ranges every `datetime` value satisfies. */
  predicate Valid(t: Timestamp)
  {
    && 1 <= t.year
    && 1 <= t.month <= 12
    && 1 <= t.day <= DaysInMonth(t.year, t.month)
    && 0 <= t.hour < 24
    && 0 <= t.minute < 60
    && 0 <= t.second < 60
  }

  /** The earliest representable moment, 0001-01-01 00:00:00. */
  predicate IsFirst(t: Timestamp)
  {
    t == Timestamp(1, 1, 1, 0, 0, 0)
  }

  /** Chronological order: the fields compared from the year down to the second. */
  predicate Before(a: Timestamp, b: Timestamp)
  {
    || a.year < b.year
    || (a.year == b.year && a.month < b.month)
    || (a.year == b.year && a.month == b.month && a.day < b.day)
    || (a.year == b.year && a.month == b.month && a.day == b.day && a.hour < b.hour)
    || (a.year == b.year && a.month == b.month && a.day == b.day && a.hour == b.hour
        && a.minute < b.minute)
    || (a.year == b.year && a.month == b.month && a.day == b.day && a.hour == b.hour
        && a.minute == b.minute && a.second < b.second)
  }

  lemma BeforeTransitive(a: Timestamp, b: Timestamp, c: Timestamp)
    requires Before(a, b) && Before(b, c)
    ensures Before(a, c)
  {
  }

  /** `t + ONE_SECOND`: the second is carried into the minute, hour, day, month
      and year as each one overflows. */
  function AddSecond(t: Timestamp): (r: Timestamp)
    requires Valid(t)
    ensures Valid(r) && Before(t, r) && t.year <= r.year
    ensures !IsFirst(r)
  {
    if t.second < 59 then t.(second := t.second + 1)
    else if t.minute < 59 then t.(minute := t.minute + 1, second := 0)
    else if t.hour < 23 then t.(hour := t.hour + 1, minute := 0, second := 0)
    else if t.day < DaysInMonth(t.year, t.month) then t.(day := t.day + 1, hour := 0, minute := 0, second := 0)
    else if t.month < 12 then Timestamp(t.year, t.month + 1, 1, 0, 0, 0)
    else Timestamp(t.year + 1, 1, 1, 0, 0, 0)
  }

  /** `t - ONE_SECOND`: a zero field borrows from the next larger one. The first
      representable moment has no predecessor. */
  function SubSecond(t: Timestamp): (r: Timestamp)
    requires Valid(t) && !IsFirst(t)
    ensures Valid(r) && Before(r, t)
  {
    if t.second > 0 then t.(second := t.second - 1)
    else if t.minute > 0 then t.(minute := t.minute - 1, second := 59)
    else if t.hour > 0 then t.(hour := t.hour - 1, minute := 59, second := 59)
    else if t.day > 1 then t.(day := t.day - 1, hour := 23, minute := 59, second := 59)
    else if t.month > 1 then
      Timestamp(t.year, t.month - 1, DaysInMonth(t.year, t.month - 1), 23, 59, 59)
    else Timestamp(t.year - 1, 12, 31, 23, 59, 59)
  }

  /** Stepping back undoes stepping forward ... */
  lemma SubSecondAfterAddSecond(t: Timestamp)
    requires Valid(t)
    ensures SubSecond(AddSecond(t)) == t
  {
  }

  /** ... and stepping forward undoes stepping back. */
  lemma AddSecondAfterSubSecond(t: Timestamp)
    requires Valid(t) && !IsFirst(t)
    ensures AddSecond(SubSecond(t)) == t
  {
  }

  /** No valid timestamp lies strictly between t and t + 1s. */
  lemma AddSecondIsNext(t: Timestamp, u: Timestamp)
    requires Valid(t) && Valid(u) && Before(t, u)
    ensures !Before(u, AddSecond(t))
  {
  }

  /** t advanced by n seconds. */
  function Advance(t: Timestamp, n: nat): (r: Timestamp)
    requires Valid(t)
    ensures Valid(r) && r.year >= t.year
  {
    if n == 0 then t else AddSecond(Advance(t, n - 1))
  }

  /** Advancing further lands strictly later. */
  lemma {:induction false} AdvanceIncreasing(t: Timestamp, i: nat, j: nat)
    requires Valid(t) && i < j
    ensures Before(Advance(t, i), Advance(t, j))
    decreases j
  {
    if i < j - 1 {
      AdvanceIncreasing(t, i, j - 1);
      BeforeTransitive(Advance(t, i), Advance(t, j - 1), Advance(t, j));
    }
  }
}
