/**
 * A whole run of the strategy: the engine calls `next` once per bar, in
 * order, and `stop` once the data ends. An exception raised by `next`
 * propagates out of the run, so no later bar and no `stop` is seen.
 */
module Backtest {
  import opened Candles
  import opened Strategy
  import opened StepProperties

  /** One bar as the engine hands it over, with the broker's position size at that bar. */
  datatype Tick = Tick(bar: Bar, positionSize: int)

  /**
   * `next` on each tick in turn, the first with `len(self)` = barCount;
   * stops at the first exception.
   */
  function Run(p: Params, s: State, ticks: seq<Tick>, barCount: nat): (r: StepResult)
    requires Valid(s)
    ensures Valid(r.state)
    ensures ticks == [] ==> r == StepResult(s, [], Completed)
    decreases |ticks|
  {
    if ticks == [] then StepResult(s, [], Completed)
    else
      var first := Step(p, s, ticks[0].bar, barCount, ticks[0].positionSize);
      if first.outcome.Raised? then first
      else
        var rest := Run(p, first.state, ticks[1..], barCount + 1);
        StepResult(rest.state, first.actions + rest.actions, rest.outcome)
  }

  /**
   * A run from `__init__`'s fields, then `stop` with the final position
   * size when every bar completed.
   */
  function Backtest(p: Params, ticks: seq<Tick>, firstBarCount: nat, finalPositionSize: int): (r: StepResult)
    ensures var run := Run(p, Init, ticks, firstBarCount);
      && r.outcome == run.outcome && r.state == run.state
      && run.actions <= r.actions
      && (r.outcome.Raised? ==> r.actions == run.actions)
      && (r.outcome.Completed? ==> |r.actions| == |run.actions| + (if finalPositionSize != 0 then 1 else 0))
      && (r.outcome.Completed? ==> forall i :: |run.actions| <= i < |r.actions| ==> r.actions[i] == Close)
    ensures ticks == [] ==> r == StepResult(Init, StopActions(finalPositionSize), Completed)
  {
    var run := Run(p, Init, ticks, firstBarCount);
    if run.outcome.Completed? then StepResult(run.state, run.actions + StopActions(finalPositionSize), Completed)
    else run
  }

  /** Once the range is set with a nonzero high, no later bar changes either range field. */
  lemma {:induction false} RangeFrozen(p: Params, s: State, ticks: seq<Tick>, barCount: nat)
    requires Valid(s) && Truthy(s.openingRangeHigh)
    ensures var r := Run(p, s, ticks, barCount);
      r.state.openingRangeHigh == s.openingRangeHigh && r.state.openingRangeLow == s.openingRangeLow
    decreases |ticks|
  {
    if ticks != [] {
      var first := Step(p, s, ticks[0].bar, barCount, ticks[0].positionSize);
      if first.outcome.Completed? {
        RangeFrozen(p, first.state, ticks[1..], barCount + 1);
      }
    }
  }

  /**
   * With a valid `check_time`, while no bar reaches it, the range stays as
   * it was (unset), the breakout is never armed, `buy()` is never issued
   * and no step raises.
   */
  lemma {:induction false} NoCheckTimeNoEntry(p: Params, s: State, ticks: seq<Tick>, barCount: nat)
    requires Valid(s) && !Truthy(s.openingRangeHigh) && CheckTime(p).Some?
    requires forall i :: 0 <= i < |ticks| ==> ticks[i].bar.time < CheckTime(p).value
    ensures var r := Run(p, s, ticks, barCount);
      && r.outcome == Completed
      && r.state.openingRangeHigh == s.openingRangeHigh && r.state.openingRangeLow == s.openingRangeLow
      && !r.state.breakoutOpened
      && Buy !in r.actions
    decreases |ticks|
  {
    if ticks != [] {
      var first := Step(p, s, ticks[0].bar, barCount, ticks[0].positionSize);
      RangeDefinition(p, s, ticks[0].bar, barCount, ticks[0].positionSize);
      EntryIff(p, s, ticks[0].bar, barCount, ticks[0].positionSize);
      ArmingIff(p, s, ticks[0].bar, barCount, ticks[0].positionSize);
      NoCheckTimeNoEntry(p, first.state, ticks[1..], barCount + 1);
    }
  }

  /**
   * The range is the high and low of the first bar at or after the check
   * time, whatever follows it, when that bar's high is nonzero.
   */
  lemma {:induction false} FirstBarAtCheckTimeDefinesRange(p: Params, s: State, ticks: seq<Tick>, barCount: nat, k: nat)
    requires Valid(s) && !Truthy(s.openingRangeHigh) && CheckTime(p).Some?
    requires k < |ticks| && ticks[k].bar.time >= CheckTime(p).value && ticks[k].bar.high != 0.0
    requires forall i :: 0 <= i < k ==> ticks[i].bar.time < CheckTime(p).value
    ensures var r := Run(p, s, ticks, barCount);
      r.state.openingRangeHigh == Some(ticks[k].bar.high) && r.state.openingRangeLow == Some(ticks[k].bar.low)
    decreases k
  {
    var first := Step(p, s, ticks[0].bar, barCount, ticks[0].positionSize);
    RangeDefinition(p, s, ticks[0].bar, barCount, ticks[0].positionSize);
    if k == 0 {
      RangeFrozen(p, first.state, ticks[1..], barCount + 1);
    } else {
      FirstBarAtCheckTimeDefinesRange(p, first.state, ticks[1..], barCount + 1, k - 1);
    }
  }

  /**
   * A `buy()` ends the run: it is the last action, no other Buy precedes it,
   * and the run ended in the unbound `range_size` error.
   */
  lemma {:induction false} BuyEndsRun(p: Params, s: State, ticks: seq<Tick>, barCount: nat)
    requires Valid(s)
    ensures var r := Run(p, s, ticks, barCount);
      Buy in r.actions ==>
        && r.outcome == Raised(UnboundLocalError)
        && r.actions[|r.actions| - 1] == Buy
        && Buy !in r.actions[..|r.actions| - 1]
    decreases |ticks|
  {
    if ticks != [] {
      var first := Step(p, s, ticks[0].bar, barCount, ticks[0].positionSize);
      EntryIff(p, s, ticks[0].bar, barCount, ticks[0].positionSize);
      if first.outcome.Completed? {
        var rest := Run(p, first.state, ticks[1..], barCount + 1);
        BuyEndsRun(p, first.state, ticks[1..], barCount + 1);
        var all := first.actions + rest.actions;
        if Buy in all {
          assert Buy !in first.actions;
          assert Buy in rest.actions;
          assert all[..|all| - 1] == first.actions + rest.actions[..|rest.actions| - 1];
        }
      }
    }
  }

  /** `stop_price` and `take_profit` keep their values over the whole run. */
  lemma {:induction false} PriceLevelsKept(p: Params, s: State, ticks: seq<Tick>, barCount: nat)
    requires Valid(s)
    ensures var r := Run(p, s, ticks, barCount);
      r.state.stopPrice == s.stopPrice && r.state.takeProfit == s.takeProfit
    decreases |ticks|
  {
    if ticks != [] {
      var first := Step(p, s, ticks[0].bar, barCount, ticks[0].positionSize);
      PriceLevelsNeverWritten(p, s, ticks[0].bar, barCount, ticks[0].positionSize);
      if first.outcome.Completed? {
        PriceLevelsKept(p, first.state, ticks[1..], barCount + 1);
      }
    }
  }

  /**
   * Over a whole backtest `stop_price` and `take_profit` stay None, and a
   * `buy()` is the last action of a run that ends in UnboundLocalError
   * without reaching `stop()`.
   */
  lemma BacktestOutcome(p: Params, ticks: seq<Tick>, firstBarCount: nat, finalPositionSize: int)
    ensures var r := Backtest(p, ticks, firstBarCount, finalPositionSize);
      && r.state.stopPrice == None && r.state.takeProfit == None
      && (Buy in r.actions ==> r.outcome == Raised(UnboundLocalError) && r.actions[|r.actions| - 1] == Buy)
  {
    PriceLevelsKept(p, Init, ticks, firstBarCount);
    BuyEndsRun(p, Init, ticks, firstBarCount);
    var run := Run(p, Init, ticks, firstBarCount);
    if run.outcome.Completed? {
      assert Buy !in run.actions;
      assert Buy !in StopActions(finalPositionSize);
    }
  }

  /** An out-of-range `check_time` makes the very first bar raise ValueError, before any action. */
  lemma InvalidCheckTimeFailsFirstBar(p: Params, ticks: seq<Tick>, firstBarCount: nat, finalPositionSize: int)
    requires CheckTime(p).None? && ticks != []
    ensures Backtest(p, ticks, firstBarCount, finalPositionSize) == StepResult(Init, [], Raised(ValueError))
  {
  }
}
