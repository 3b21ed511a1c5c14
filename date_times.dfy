/** System.DateTime as a count of 100-nanosecond ticks: the part of it that
    bookings use (Date, AddDays with whole days, AddTicks) and the range
    check that makes those operations throw. */
module DateTimes {
  import opened Common

  const TicksPerDay: int := 864_000_000_000

  /** DateTime.MaxValue.Ticks, the last tick of 31 December 9999. */
  const MaxTicks: int := 3_155_378_975_999_999_999

  /** A representable DateTime. */
  type Ticks = t: int | 0 <= t <= MaxTicks

  /** The first tick of the last representable day. */
  const LastDay: int := MaxTicks + 1 - TicksPerDay

  /** `t` is midnight, as every DateTime.Date is. */
  predicate IsDayStart(t: int) {
    t % TicksPerDay == 0
  }

  /** DateTime.Date: midnight of the day holding `t`. */
  function Date(t: Ticks): (d: Ticks)
    ensures IsDayStart(d) && d <= t < d + TicksPerDay
  {
    (t / TicksPerDay) * TicksPerDay
  }

  /** A midnight `d` with `d <= t < d + TicksPerDay` is the Date of `t`. */
  lemma DateIsUnique(t: Ticks, d: int)
    requires IsDayStart(d) && d <= t < d + TicksPerDay
    ensures Date(t) == d
  {
    var k := d / TicksPerDay;
    assert d == k * TicksPerDay;
    assert t / TicksPerDay == k;
  }

  /** Two midnights less than a day apart are the same midnight. */
  lemma DayStartsApart(d: int, e: int)
    requires IsDayStart(d) && IsDayStart(e) && d <= e < d + TicksPerDay
    ensures d == e
  {
    var k, m := d / TicksPerDay, e / TicksPerDay;
    assert d == k * TicksPerDay && e == m * TicksPerDay;
    assert k <= m < k + 1;
  }

  /** Date is monotone: a later instant is never on an earlier day. */
  lemma DateMonotone(s: Ticks, t: Ticks)
    requires s <= t
    ensures Date(s) <= Date(t)
  {
    assert s / TicksPerDay <= t / TicksPerDay;
  }

  /** The largest number of days DateTime.AddDays accepts (DaysTo10000). */
  const MaxDays: int := 3_652_059

  /** Message of the ArgumentOutOfRangeException that AddDays throws for a
      count of days beyond MaxDays. The exception names its parameter,
      "value", and on .NET Core its Message ends with that name. */
  const AddValueError: string := "Value to add was out of range. (Parameter 'value')"

  /** Message of the ArgumentOutOfRangeException that AddTicks (and AddDays,
      through it) throws when the result is not representable; the
      parameter is again "value". */
  const DateArithmeticError: string :=
    "The added or subtracted value results in an un-representable DateTime. (Parameter 'value')"

  /** DateTime.AddTicks; None where .NET throws ArgumentOutOfRangeException
      because the result is not representable. */
  function AddTicks(t: Ticks, delta: int): Option<Ticks> {
    if 0 <= t + delta <= MaxTicks then Some(t + delta) else None
  }

  /** DateTime.AddDays for a whole number of days: the count is checked
      against MaxDays, then added as ticks. */
  function AddDays(t: Ticks, days: int): Option<Ticks> {
    if days < -MaxDays || days > MaxDays then None else AddTicks(t, days * TicksPerDay)
  }

  /** The message of the exception that `t.AddDays(days)` or the following
      `AddTicks(-1)` throws, when one of them does. */
  function AddDaysError(days: int): string {
    if days < -MaxDays || days > MaxDays then AddValueError else DateArithmeticError
  }

  /** `start.AddDays(days).AddTicks(-1)`: the end time that bookings and
      availability checks derive from a duration in days. */
  function EndTimeFor(start: Ticks, days: int): (r: Option<Ticks>)
    ensures r.Some? <==> 0 < start + days * TicksPerDay <= MaxTicks
    ensures r.Some? ==> r.value == start + days * TicksPerDay - 1
  {
    if days < -MaxDays || days > MaxDays then
      assert days * TicksPerDay >= MaxTicks + 1 || days * TicksPerDay <= -(MaxTicks + 1);
      None
    else match AddDays(start, days)
      case None => None
      case Some(e) => AddTicks(e, -1)
  }

  /** The derived end time lies after the start exactly when the duration is
      at least one day. */
  lemma EndTimeAfterStart(start: Ticks, days: int)
    requires EndTimeFor(start, days).Some?
    ensures EndTimeFor(start, days).value > start <==> days > 0
  {
    if days <= 0 {
      assert days * TicksPerDay <= 0;
    } else {
      assert days * TicksPerDay >= TicksPerDay;
    }
  }

  /** The calendar days a booking of `days` days covers: `days` of them when
      it starts at midnight, and one more when it starts later in the day,
      because the end time keeps the start's time of day. */
  lemma {:induction false} EndDateOfDuration(start: Ticks, days: int)
    requires days > 0 && EndTimeFor(start, days).Some?
    ensures var e := EndTimeFor(start, days).value;
      Date(e) == Date(start) + (if IsDayStart(start) then days - 1 else days) * TicksPerDay
  {
    var e := EndTimeFor(start, days).value;
    var d := Date(start);
    var r := start - d;
    var n := if IsDayStart(start) then days - 1 else days;
    if IsDayStart(start) {
      DateIsUnique(start, start);
      assert r == 0;
    } else {
      assert r != 0;
    }
    assert e == d + n * TicksPerDay + (if r == 0 then TicksPerDay - 1 else r - 1);
    assert IsDayStart(d + n * TicksPerDay) by {
      var k := d / TicksPerDay;
      assert d == k * TicksPerDay;
      assert d + n * TicksPerDay == (k + n) * TicksPerDay;
    }
    DateIsUnique(e, d + n * TicksPerDay);
  }

  /** No midnight lies after LastDay. */
  lemma DayStartAtMostLastDay(x: int)
    requires IsDayStart(x) && x <= MaxTicks
    ensures x <= LastDay
  {
    var k := x / TicksPerDay;
    assert x == k * TicksPerDay;
    assert MaxTicks + 1 == MaxDays * TicksPerDay;
    assert k < MaxDays;
  }

  /** Midnights `d <= e` lie a whole number of days apart. */
  lemma DayStartsDiffer(d: int, e: int)
    requires IsDayStart(d) && IsDayStart(e) && d <= e
    ensures (e - d) % TicksPerDay == 0
    ensures e == d + ((e - d) / TicksPerDay) * TicksPerDay
  {
    var k, m := d / TicksPerDay, e / TicksPerDay;
    assert d == k * TicksPerDay && e == m * TicksPerDay;
    assert e - d == (m - k) * TicksPerDay;
  }
}
