/**
 * One-minute candlestick bars as the opening-range strategy sees them, the
 * time of day the strategy compares against, and the hammer test on a bar.
 */
module Candles {

  /** The Python `None`-or-value of the strategy's optional fields. */
  datatype Option<T> = None | Some(value: T)

  /** A time of day, in whole seconds since midnight. */
  type Seconds = t: int | 0 <= t < 86400

  /**
   * One bar of the data feed: its prices and the time of day of its
   * timestamp. Volume and the date are never read by the strategy.
   */
  datatype Bar = Bar(open: real, high: real, low: real, close: real, time: Seconds)

  /**
   * `datetime.time(hour, minute)`: the time of day, or None where the
   * constructor raises ValueError (hour outside 0..23, minute outside 0..59).
   */
  function TimeOf(hour: int, minute: int): (r: Option<Seconds>)
    ensures r.Some? <==> 0 <= hour < 24 && 0 <= minute < 60
    ensures r.Some? ==> r.value / 3600 == hour && r.value % 3600 / 60 == minute && r.value % 60 == 0
  {
    if 0 <= hour < 24 && 0 <= minute < 60 then Some(hour * 3600 + minute * 60) else None
  }

  /** 9:30, the start of the hard-coded breakout window. */
  const WindowStart: Seconds := 9 * 3600 + 30 * 60

  /** 11:00, the (inclusive) end of the hard-coded breakout window. */
  const WindowEnd: Seconds := 11 * 3600

  /** `datetime.time(9, 30) <= current_time <= datetime.time(11, 0)`. */
  predicate InBreakoutWindow(t: Seconds)
  {
    WindowStart <= t <= WindowEnd
  }

  function Abs(x: real): (r: real)
    ensures r >= 0.0 && (r == x || r == -x)
  {
    if x < 0.0 then -x else x
  }

  function Min(x: real, y: real): (r: real)
    ensures r <= x && r <= y && (r == x || r == y)
  {
    if x <= y then x else y
  }

  /** `abs(open - close)`. */
  function BodySize(bar: Bar): (r: real)
    ensures r >= 0.0
    ensures r == 0.0 <==> bar.open == bar.close
  {
    Abs(bar.open - bar.close)
  }

  /** `low - min(open, close)`: positive exactly when the low lies above min(open, close). */
  function TailSize(bar: Bar): (r: real)
    ensures r <= 0.0 <==> bar.low <= bar.open && bar.low <= bar.close
  {
    bar.low - Min(bar.open, bar.close)
  }

  /**
   * The strategy's hammer test: the tail is at least half the body. Since
   * the body is never negative, a hammer never has its low under min(open,
   * close); on a bar with no body it is exactly that.
   */
  predicate IsHammer(bar: Bar)
    ensures IsHammer(bar) ==> bar.low >= Min(bar.open, bar.close)
    ensures bar.open == bar.close ==> (IsHammer(bar) <==> bar.low >= bar.open)
  {
    TailSize(bar) >= 0.5 * BodySize(bar)
  }

  /**
   * On a bar whose low is at or under both open and close the tail is never
   * positive, so the test holds exactly when open, close and low coincide.
   */
  lemma HammerWithLowUnderBody(bar: Bar)
    requires bar.low <= bar.open && bar.low <= bar.close
    ensures IsHammer(bar) <==> bar.open == bar.close == bar.low
  {
    assert TailSize(bar) <= 0.0;
    if IsHammer(bar) {
      assert BodySize(bar) == 0.0;
      assert bar.open == bar.close;
    }
  }

  /** The test reads open, low and close only; the upper shadow plays no part. */
  lemma HammerIgnoresHigh(bar: Bar, high: real)
    ensures IsHammer(bar) <==> IsHammer(bar.(high := high))
  {
  }

  /**
   * A flat bar with an upper wick of 100 and no lower wick still passes,
   * because the test has no upper-shadow condition.
   */
  lemma LongUpperWickIsHammer()
    ensures IsHammer(Bar(100.0, 200.0, 100.0, 100.0, WindowStart))
  {
  }

  /** open 10, high 10.2, low 8, close 9: tail 8 - 9 = -1 against body 1, not a hammer. */
  lemma DescendingBarIsNotHammer()
    ensures BodySize(Bar(10.0, 10.2, 8.0, 9.0, WindowStart)) == 1.0
    ensures TailSize(Bar(10.0, 10.2, 8.0, 9.0, WindowStart)) == -1.0
    ensures !IsHammer(Bar(10.0, 10.2, 8.0, 9.0, WindowStart))
  {
  }
}
