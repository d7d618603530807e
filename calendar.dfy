/**
 * `is_business_day`: the job runs Monday to Friday, judged by the weekday of
 * the current instant in UTC.
 *
 * The clock is not read: the weekday is an input, and `UtcWeekday` gives
 * the weekday `datetime.now(timezone.utc).weekday()` reports for an instant
 * counted in whole seconds since 1970-01-01T00:00:00Z.
 */
module Calendar {

  /** `datetime.weekday()`: 0 is Monday, 6 is Sunday. */
  type Weekday = w: int | 0 <= w <= 6

  const Monday: Weekday := 0
  const Thursday: Weekday := 3
  const Saturday: Weekday := 5
  const Sunday: Weekday := 6

  const SecondsPerDay := 86400

  /** The gate of the job: true on a weekday index from 0 to 4. */
  function IsBusinessDay(weekday: Weekday): (b: bool)
    ensures b <==> weekday != Saturday && weekday != Sunday
  {
    0 <= weekday <= 4
  }

  /** The day after `weekday`, Monday following Sunday. */
  function NextWeekday(weekday: Weekday): (r: Weekday)
    ensures weekday < Sunday ==> r == weekday + 1
    ensures weekday == Sunday ==> r == Monday
  {
    (weekday + 1) % 7
  }

  /**
   * The UTC weekday of the instant `t` seconds after the epoch, which fell on
   * a Thursday. Python's floor division and Dafny's division agree for the
   * positive divisor, so instants before the epoch are covered too.
   */
  function UtcWeekday(t: int): (w: Weekday)
    ensures t / SecondsPerDay % 7 == 0 ==> w == Thursday
  {
    (t / SecondsPerDay + Thursday) % 7
  }

  /** The epoch and 2024-01-01T00:00:00Z, a Monday. */
  lemma KnownInstants()
    ensures UtcWeekday(0) == Thursday
    ensures UtcWeekday(1704067200) == Monday
  {
  }

  /** Every instant of a UTC day has the weekday of the day's midnight. */
  lemma SameDaySameWeekday(day: int, s: int)
    requires 0 <= s < SecondsPerDay
    ensures UtcWeekday(day * SecondsPerDay + s) == UtcWeekday(day * SecondsPerDay)
  {
  }

  lemma DayOfInstant(day: int, s: int)
    requires 0 <= s < SecondsPerDay
    ensures (day * SecondsPerDay + s) / SecondsPerDay == day
  {
  }

  /** A day later, the UTC weekday is the next one. */
  lemma NextDayNextWeekday(t: int)
    ensures UtcWeekday(t + SecondsPerDay) == NextWeekday(UtcWeekday(t))
  {
    var day, s := t / SecondsPerDay, t % SecondsPerDay;
    assert t + SecondsPerDay == (day + 1) * SecondsPerDay + s;
    DayOfInstant(day + 1, s);
  }

  /** How many of the `n` days starting on `weekday` the job runs on. */
  function BusinessDaysFrom(weekday: Weekday, n: nat): (count: nat)
    ensures count <= n
    decreases n
  {
    if n == 0 then 0
    else (if IsBusinessDay(weekday) then 1 else 0) + BusinessDaysFrom(NextWeekday(weekday), n - 1)
  }

  /** Any seven consecutive days hold five business days: weekends are skipped. */
  lemma FiveBusinessDaysAWeek(weekday: Weekday)
    ensures BusinessDaysFrom(weekday, 7) == 5
  {
  }

  /** Each whole week added to a stretch of days adds five business days, wherever it starts. */
  lemma {:induction false} WholeWeekAddsFive(weekday: Weekday, n: nat)
    ensures BusinessDaysFrom(weekday, n + 7) == BusinessDaysFrom(weekday, n) + 5
    decreases n
  {
    if n == 0 {
      FiveBusinessDaysAWeek(weekday);
    } else {
      WholeWeekAddsFive(NextWeekday(weekday), n - 1);
    }
  }

  /** `k` whole weeks hold `5 * k` business days. */
  lemma {:induction false} BusinessDaysInWeeks(weekday: Weekday, k: nat)
    ensures BusinessDaysFrom(weekday, 7 * k) == 5 * k
  {
    if k > 0 {
      BusinessDaysInWeeks(weekday, k - 1);
      WholeWeekAddsFive(weekday, 7 * (k - 1));
    }
  }

  /**
   * On how many of the `n` UTC days starting at the instant `t` the gate
   * opens: the count the weekdays of those days give.
   */
  function GateOpenDays(t: int, n: nat): (count: nat)
    ensures count == BusinessDaysFrom(UtcWeekday(t), n)
    decreases n
  {
    if n == 0 then 0
    else
      NextDayNextWeekday(t);
      (if IsBusinessDay(UtcWeekday(t)) then 1 else 0) + GateOpenDays(t + SecondsPerDay, n - 1)
  }

  /** Whatever the starting instant, the gate is open on five of the next seven UTC days. */
  lemma GateOpensFiveDaysAWeek(t: int)
    ensures GateOpenDays(t, 7) == 5
  {
    FiveBusinessDaysAWeek(UtcWeekday(t));
  }
}
