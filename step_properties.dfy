/**
 * What one call of `next` does, stated rule by rule against Step: how the
 * opening range is defined, when the breakout is armed, when `buy()` and
 * `close()` are issued, and which parameters and fields play no part.
 */
module StepProperties {
  import opened Candles
  import opened Strategy

  /**
   * With a valid check time, the range is taken from the current bar exactly
   * when it is unset (None or a zero high) and the bar is at or after the
   * check time; otherwise both range fields keep their values.
   */
  lemma RangeDefinition(p: Params, s: State, bar: Bar, barCount: nat, positionSize: int)
    requires Valid(s) && CheckTime(p).Some?
    ensures var r := Step(p, s, bar, barCount, positionSize);
      && r.outcome != Raised(ValueError)
      && (if !Truthy(s.openingRangeHigh) && bar.time >= CheckTime(p).value
          then r.state.openingRangeHigh == Some(bar.high) && r.state.openingRangeLow == Some(bar.low)
          else r.state.openingRangeHigh == s.openingRangeHigh && r.state.openingRangeLow == s.openingRangeLow)
  {
    if !Truthy(s.openingRangeHigh) {
      assert !s.breakoutOpened;
    }
  }

  /** `datetime.time(*check_time)` raises exactly on the bars that reach it: those seen while the range is unset. */
  lemma ValueErrorIff(p: Params, s: State, bar: Bar, barCount: nat, positionSize: int)
    requires Valid(s)
    ensures var r := Step(p, s, bar, barCount, positionSize);
      r.outcome == Raised(ValueError) <==> !Truthy(s.openingRangeHigh) && CheckTime(p).None?
  {
  }

  /**
   * A breakout not yet armed becomes armed on this bar exactly when the
   * range as it stands after this bar's range-setting is set, the bar is in
   * the 9:30-11:00 window and it closes at or above high + (high - low).
   */
  lemma ArmingIff(p: Params, s: State, bar: Bar, barCount: nat, positionSize: int)
    requires Valid(s) && !s.breakoutOpened
    ensures var r := Step(p, s, bar, barCount, positionSize);
      r.state.breakoutOpened <==>
        && r.outcome.Completed?
        && Truthy(r.state.openingRangeHigh)
        && InBreakoutWindow(bar.time)
        && var high, low := r.state.openingRangeHigh.value, r.state.openingRangeLow.value;
           bar.close >= high + (high - low)
  {
    var defined := DefineRange(p, s, bar);
    if defined.outcome.Completed? {
      var (armed, rangeSize) := Breakout(defined.state, bar);
      if armed.breakoutOpened {
        SameBarEntryImpossible(armed, bar);
      }
    }
  }

  /**
   * The step that arms the breakout cannot also enter: arming needs
   * close >= high + (high - low), entry needs low <= close < high, and the
   * two together would make the range width both negative and at least zero.
   */
  lemma SameBarEntryImpossible(s: State, bar: Bar)
    requires s.openingRangeHigh.Some? && s.openingRangeLow.Some?
    requires bar.close >= s.openingRangeHigh.value + (s.openingRangeHigh.value - s.openingRangeLow.value)
    ensures !(s.openingRangeLow.value <= bar.close < s.openingRangeHigh.value)
  {
  }

  /** An armed breakout stays armed on every step that completes: no completed step clears it. */
  lemma ArmedStaysArmed(p: Params, s: State, bar: Bar, barCount: nat, positionSize: int)
    requires Valid(s) && s.breakoutOpened
    ensures var r := Step(p, s, bar, barCount, positionSize);
      r.state.breakoutOpened && r.state.openingRangeHigh == s.openingRangeHigh && r.state.openingRangeLow == s.openingRangeLow
  {
  }

  /**
   * `buy()` is issued exactly when, at the start of the bar, the breakout
   * was armed, the bar is in the window, low <= close < high and the bar is
   * a hammer; and every such bar ends in the unbound `range_size` error,
   * with the Buy as its only action.
   */
  lemma EntryIff(p: Params, s: State, bar: Bar, barCount: nat, positionSize: int)
    requires Valid(s)
    ensures var r := Step(p, s, bar, barCount, positionSize);
      && (Buy in r.actions <==>
           && s.breakoutOpened
           && InBreakoutWindow(bar.time)
           && s.openingRangeLow.value <= bar.close < s.openingRangeHigh.value
           && IsHammer(bar))
      && (Buy in r.actions <==> r.outcome == Raised(UnboundLocalError))
      && (Buy in r.actions ==> r.actions == [Buy])
  {
    var r := Step(p, s, bar, barCount, positionSize);
    var defined := DefineRange(p, s, bar);
    if defined.outcome.Completed? {
      var (armed, rangeSize) := Breakout(defined.state, bar);
      if s.breakoutOpened {
        assert rangeSize.None?;
      } else if armed.breakoutOpened {
        SameBarEntryImpossible(armed, bar);
      }
    }
    assert Close !in [Buy];
  }

  /**
   * No step ever changes `stop_price` or `take_profit`: the only assignment
   * to them follows the read of the unbound `range_size`.
   */
  lemma PriceLevelsNeverWritten(p: Params, s: State, bar: Bar, barCount: nat, positionSize: int)
    requires Valid(s)
    ensures var r := Step(p, s, bar, barCount, positionSize);
      r.state.stopPrice == s.stopPrice && r.state.takeProfit == s.takeProfit
  {
    EntryIff(p, s, bar, barCount, positionSize);
  }

  /**
   * `close()` is issued on a bar exactly when the step completes, the bar
   * count has reached `entry_time` and a position is open; the prices, the
   * stop and the target play no part, and it is issued at most once.
   */
  lemma ExitIff(p: Params, s: State, bar: Bar, barCount: nat, positionSize: int)
    requires Valid(s)
    ensures var r := Step(p, s, bar, barCount, positionSize);
      && (Close in r.actions <==> r.outcome.Completed? && barCount >= p.entryTime && positionSize != 0)
      && (r.outcome.Completed? ==> r.actions == (if barCount >= p.entryTime && positionSize != 0 then [Close] else []))
  {
    EntryIff(p, s, bar, barCount, positionSize);
  }

  /**
   * `next` depends on `check_time` and `entry_time` only: `risk` and
   * `scale_out` are never read, `stop` is read just before `range_size`
   * raises and its value is never used, and `target` is never reached.
   */
  lemma UnusedParams(p: Params, q: Params, s: State, bar: Bar, barCount: nat, positionSize: int)
    requires Valid(s) && p.checkTime == q.checkTime && p.entryTime == q.entryTime
    ensures Step(p, s, bar, barCount, positionSize) == Step(q, s, bar, barCount, positionSize)
  {
    EntryIff(p, s, bar, barCount, positionSize);
    EntryIff(q, s, bar, barCount, positionSize);
  }

  /** A range [100, 101] broken at 102 and retested inside the range by a bar that is not a hammer issues nothing. */
  lemma BreakoutThenNoHammer()
    ensures var s1 := Step(DefaultParams, Init, Bar(100.5, 101.0, 100.0, 100.5, WindowStart), 1, 0);
      && s1 == StepResult(State(Some(101.0), Some(100.0), false, None, None), [], Completed)
      && var s2 := Step(DefaultParams, s1.state, Bar(101.0, 102.5, 101.0, 102.0, WindowStart + 60), 2, 0);
      && s2 == StepResult(State(Some(101.0), Some(100.0), true, None, None), [], Completed)
      && var s3 := Step(DefaultParams, s2.state, Bar(100.9, 101.0, 100.6, 100.7, WindowStart + 120), 3, 0);
      s3 == StepResult(s2.state, [], Completed)
    ensures var retest := Bar(100.9, 101.0, 100.6, 100.7, WindowStart + 120);
      100.0 <= retest.close < 101.0 && !IsHammer(retest)
  {
  }

  /** The same range and breakout, retested by a flat bar at 100.5: `buy()` and then UnboundLocalError. */
  lemma BreakoutThenHammer()
    ensures var armed := State(Some(101.0), Some(100.0), true, None, None);
      Step(DefaultParams, armed, Bar(100.5, 100.8, 100.5, 100.5, WindowStart + 120), 3, 0)
        == StepResult(armed, [Buy], Raised(UnboundLocalError))
  {
  }
}
