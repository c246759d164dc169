/** How far back a request has to reach (src/qte_ingestion/backfill.py, `_span_for`). */
module HistorySpan {
  import opened Timeframes

  const SECONDS_PER_DAY := 86_400

  function BarsPerDay(tf: Timeframe): (n: nat)
    ensures n > 0 && n * Seconds(tf) == SECONDS_PER_DAY
  {
    SECONDS_PER_DAY / Seconds(tf)
  }

  /** Whole days back from today, a week more than the bars asked for would fill. */
  function SpanFor(tf: Timeframe, roundTheClock: bool, target: nat): nat {
    if roundTheClock then target / BarsPerDay(tf) + 7 else (7 * target) / (5 * BarsPerDay(tf)) + 7
  }

  /** Days are numbered; five in a row trade and two do not, wherever the week starts. */
  predicate TradesOn(day: nat, holidays: set<nat>) {
    DayOfWeek(day) < 5 && day !in holidays
  }

  function DayOfWeek(day: nat): nat {
    day % 7
  }

  lemma NextDay(day: nat)
    ensures 0 <= DayOfWeek(day) < 7
    ensures DayOfWeek(day + 1) == if DayOfWeek(day) == 6 then 0 else DayOfWeek(day) + 1
  {
  }

  /** How many of the `count` days from `first` on have a session. */
  function Sessions(first: nat, count: nat, holidays: set<nat>): nat {
    if count == 0 then 0
    else Sessions(first, count - 1, holidays) + if TradesOn(first + count - 1, holidays) then 1 else 0
  }

  lemma {:induction false} SevenMoreDays(first: nat, count: nat)
    ensures Sessions(first, count + 7, {}) == Sessions(first, count, {}) + 5
  {
    hide DayOfWeek, Sessions;
    AnotherDay(first, count);
    AnotherDay(first, count + 1);
    AnotherDay(first, count + 2);
    AnotherDay(first, count + 3);
    AnotherDay(first, count + 4);
    AnotherDay(first, count + 5);
    AnotherDay(first, count + 6);
  }

  lemma AnotherDay(first: nat, count: nat)
    ensures Sessions(first, count + 1, {}) == Sessions(first, count, {}) + if DayOfWeek(first + count) < 5 then 1 else 0
    ensures 0 <= DayOfWeek(first + count) < 7
    ensures DayOfWeek(first + count + 1) == if DayOfWeek(first + count) == 6 then 0 else DayOfWeek(first + count) + 1
  {
    NextDay(first + count);
  }

  lemma {:induction false} FiveDaysInSeven(first: nat, count: nat)
    ensures 7 * Sessions(first, count, {}) >= 5 * count - 10
    decreases count
  {
    if count >= 7 {
      FiveDaysInSeven(first, count - 7);
      SevenMoreDays(first, count - 7);
    } else if count >= 3 {
      ShortWeek(first, count);
    }
  }

  lemma ShortWeek(first: nat, count: nat)
    requires 3 <= count < 7
    ensures Sessions(first, count, {}) >= count - 2
  {
    hide DayOfWeek;
    AnotherDay(first, 0);
    AnotherDay(first, 1);
    AnotherDay(first, 2);
    AnotherDay(first, 3);
    AnotherDay(first, 4);
    AnotherDay(first, 5);
  }

  /** A holiday costs at most its own day. */
  lemma {:induction false} HolidaysCostTheirDays(first: nat, count: nat, holidays: set<nat>)
    ensures Sessions(first, count, holidays) + |HolidaysIn(first, count, holidays)| >= Sessions(first, count, {})
  {
    if count > 0 {
      HolidaysCostTheirDays(first, count - 1, holidays);
      var (day, before) := (first + count - 1, HolidaysIn(first, count - 1, holidays));
      assert HolidaysIn(first, count, holidays) == if day in holidays then before + {day} else before;
    }
  }

  function HolidaysIn(first: nat, count: nat, holidays: set<nat>): set<nat> {
    set h | h in holidays && first <= h < first + count
  }

  lemma FewerHolidays(first: nat, count: nat, holidays: set<nat>)
    ensures |HolidaysIn(first, count, holidays)| <= |holidays|
  {
    SubsetIsSmaller(HolidaysIn(first, count, holidays), holidays);
  }

  lemma {:induction false} SubsetIsSmaller(a: set<nat>, b: set<nat>)
    requires a <= b
    ensures |a| <= |b|
    decreases |a|
  {
    if a != {} {
      var x :| x in a;
      SubsetIsSmaller(a - {x}, b - {x});
    }
  }

  /** On a five-day week the days asked for hold enough sessions for the target, wherever the weekend
      falls, with any two sessions lost to holidays, and even if the days are rounded down by one. */
  lemma SpanHoldsEnoughSessions(tf: Timeframe, target: nat, first: nat, days: nat, holidays: set<nat>)
    requires days + 1 >= SpanFor(tf, false, target) && |holidays| <= 2
    ensures Sessions(first, days, holidays) * BarsPerDay(tf) >= target
  {
    FiveDaysInSeven(first, days);
    HolidaysCostTheirDays(first, days, holidays);
    FewerHolidays(first, days, holidays);
    var (n, bpd) := (Sessions(first, days, holidays), BarsPerDay(tf));
    assert 7 * n >= 5 * days - 24;
    EnoughBars(target, bpd, days, n);
  }

  lemma EnoughBars(target: nat, perDay: nat, days: nat, sessions: nat)
    requires perDay > 0 && days >= (7 * target) / (5 * perDay) + 6 && 7 * sessions >= 5 * days - 24
    ensures sessions * perDay >= target
  {
    var q := (7 * target) / (5 * perDay);
    assert 7 * target < (q + 1) * (5 * perDay);
    assert 5 * (q + 1) <= 7 * sessions;
    TimesMonotone(perDay, 5 * (q + 1), 7 * sessions);
    assert (q + 1) * (5 * perDay) == perDay * (5 * (q + 1));
    assert perDay * (7 * sessions) == 7 * (sessions * perDay);
  }

  /** On a market that never closes, without the factor. */
  lemma SpanHoldsEnoughDays(tf: Timeframe, target: nat, days: nat)
    requires days + 1 >= SpanFor(tf, true, target)
    ensures days * BarsPerDay(tf) >= target
  {
    var (q, bpd) := (target / BarsPerDay(tf), BarsPerDay(tf));
    assert target < (q + 1) * bpd;
    TimesMonotone(bpd, q + 1, days);
  }
}
