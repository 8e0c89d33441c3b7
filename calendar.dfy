/**
 * The trading-day calendar of predictor.py: from an anchor date, walk
 * forward one day at a time and keep the Monday-to-Friday days.
 *
 * A date is its proleptic Gregorian ordinal as Python's `date.toordinal`
 * gives it: day 1 is 0001-01-01, a Monday. `weekday()` is then
 * `(d - 1) mod 7` with Monday = 0 ... Sunday = 6.
 */
module TradingCalendar {

  /** `date.weekday()` of the day with ordinal `d`: Monday = 0, Sunday = 6. */
  function Weekday(d: int): (w: int)
    ensures 0 <= w < 7
  {
    (d + 6) % 7
  }

  /** The test `weekday() < 5` of predictor.py:12 and :53. */
  predicate IsTradingDay(d: int)
  {
    Weekday(d) < 5
  }

  lemma WeekdayStep(d: int)
    ensures Weekday(d + 1) == if Weekday(d) == 6 then 0 else Weekday(d) + 1
  {
  }

  /** The first trading day strictly after `d`: never more than three days ahead. */
  function NextTradingDay(d: int): (r: int)
    ensures d < r <= d + 3
    ensures IsTradingDay(r)
    ensures forall k :: d < k < r ==> !IsTradingDay(k)
  {
    WeekdayStep(d);
    WeekdayStep(d + 1);
    WeekdayStep(d + 2);
    var w := Weekday(d);
    if w == 4 then d + 3 else if w == 5 then d + 2 else d + 1
  }

  /** A day that is not a trading day does not change which trading day comes next. */
  lemma NextTradingDaySkips(d: int)
    requires !IsTradingDay(d + 1)
    ensures NextTradingDay(d + 1) == NextTradingDay(d)
  {
  }

  /**
   * The specification of `get_future_trading_days(start, n)`: the next `n`
   * trading days after `start`, and none when `n <= 0`.
   */
  function FutureTradingDays(start: int, n: int): (r: seq<int>)
    ensures |r| == if n <= 0 then 0 else n
    decreases n
  {
    if n <= 0 then [] else [NextTradingDay(start)] + FutureTradingDays(NextTradingDay(start), n - 1)
  }

  /** Every date is a trading day after `start`, and the dates strictly increase. */
  lemma {:induction false} FutureTradingDaysOrdered(start: int, n: int)
    ensures forall i :: 0 <= i < |FutureTradingDays(start, n)| ==>
      start < FutureTradingDays(start, n)[i] && IsTradingDay(FutureTradingDays(start, n)[i])
    ensures forall i, j :: 0 <= i < j < |FutureTradingDays(start, n)| ==>
      FutureTradingDays(start, n)[i] < FutureTradingDays(start, n)[j]
    decreases n
  {
    if n > 0 {
      var first := NextTradingDay(start);
      FutureTradingDaysOrdered(first, n - 1);
      var rest := FutureTradingDays(first, n - 1);
      var r := FutureTradingDays(start, n);
      assert r == [first] + rest;
      forall i | 0 < i < |r| ensures first < r[i] && IsTradingDay(r[i]) {
        assert r[i] == rest[i - 1];
      }
      forall i, j | 0 <= i < j < |r| ensures r[i] < r[j] {
        assert r[j] == rest[j - 1];
        if i > 0 {
          assert r[i] == rest[i - 1];
        }
      }
    }
  }

  /**
   * Completeness: the first date is the first trading day after `start`, and
   * no trading day between `start` and the last date is skipped.
   */
  lemma {:induction false} FutureTradingDaysComplete(start: int, n: int)
    requires n > 0
    ensures FutureTradingDays(start, n)[0] == NextTradingDay(start)
    ensures forall d :: start < d <= FutureTradingDays(start, n)[n - 1] && IsTradingDay(d) ==>
      d in FutureTradingDays(start, n)
    decreases n
  {
    var first := NextTradingDay(start);
    var r := FutureTradingDays(start, n);
    if n > 1 {
      FutureTradingDaysOrdered(first, n - 1);
      FutureTradingDaysComplete(first, n - 1);
      var rest := FutureTradingDays(first, n - 1);
      assert r == [first] + rest;
      forall d | start < d <= r[n - 1] && IsTradingDay(d) ensures d in r {
        if d > first {
          assert rest[n - 2] == r[n - 1];
          assert d in rest;
        }
      }
    }
  }

  /** One step of the walk: the next day is either kept or skipped. */
  lemma FutureTradingDaysStep(current: int, k: int)
    requires k > 0
    ensures IsTradingDay(current + 1) ==>
      FutureTradingDays(current, k) == [current + 1] + FutureTradingDays(current + 1, k - 1)
    ensures !IsTradingDay(current + 1) ==>
      FutureTradingDays(current, k) == FutureTradingDays(current + 1, k)
  {
    if !IsTradingDay(current + 1) {
      NextTradingDaySkips(current);
    }
  }

  /**
   * One pass of the loop body keeps the loop invariant: the dates kept so
   * far followed by the walk still ahead are the whole answer.
   */
  lemma WalkStep(start: int, n: int, kept: seq<int>, current: int)
    requires |kept| < n
    requires kept + FutureTradingDays(current, n - |kept|) == FutureTradingDays(start, n)
    ensures var next := if IsTradingDay(current + 1) then kept + [current + 1] else kept;
      next + FutureTradingDays(current + 1, n - |next|) == FutureTradingDays(start, n)
    ensures !IsTradingDay(current + 1) ==> NextTradingDay(current + 1) == NextTradingDay(current)
  {
    FutureTradingDaysStep(current, n - |kept|);
    if IsTradingDay(current + 1) {
      var rest := FutureTradingDays(current + 1, n - |kept| - 1);
      assert kept + [current + 1] + rest == kept + ([current + 1] + rest);
    } else {
      NextTradingDaySkips(current);
    }
  }

  /**
   * `get_future_trading_days` (predictor.py:7-14), with the loop as written:
   * advance `current` by one day, keep it when it falls on Monday-Friday,
   * stop once `n` dates are kept.
   */
  method GetFutureTradingDays(start: int, n: int) returns (future: seq<int>)
    ensures future == FutureTradingDays(start, n)
  {
    future := [];
    var current := start;
    while |future| < n
      invariant future + FutureTradingDays(current, n - |future|) == FutureTradingDays(start, n)
      decreases n - |future|, NextTradingDay(current) - current
    {
      WalkStep(start, n, future, current);
      current := current + 1;
      if Weekday(current) < 5 {
        future := future + [current];
      }
    }
  }
}
