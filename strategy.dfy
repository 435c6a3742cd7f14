/**
 * The bar-by-bar decision logic of the opening-range breakout strategy:
 * its parameters, the per-run fields, one call of `next` as the function
 * Step, `stop` as StopActions, and the strategy object whose methods update
 * its fields as Step says.
 */
module Strategy {
  import opened Candles

  /** The strategy's `params` tuple; `checkTime` is an (hour, minute) pair. */
  datatype Params = Params(
    target: real,
    risk: real,
    stop: real,
    checkTime: (int, int),
    entryTime: int,
    scaleOut: real)

  /** The declared defaults. */
  const DefaultParams := Params(2.0, 1.0, 1.0, (9, 30), 60, 0.5)

  /** What the strategy asks of the engine's broker. */
  datatype Action = Buy | Close

  /** The Python exceptions a call of `next` can raise. */
  datatype Error =
    | ValueError        // `datetime.time(*check_time)` with an hour or minute out of range
    | UnboundLocalError // `range_size` read before assignment

  datatype Outcome = Completed | Raised(error: Error)

  /** The fields `next` writes. */
  datatype State = State(
    openingRangeHigh: Option<real>,
    openingRangeLow: Option<real>,
    breakoutOpened: bool,
    stopPrice: Option<real>,
    takeProfit: Option<real>)

  /** Their values after `__init__`. */
  const Init := State(None, None, false, None, None)

  /** The result of one call of `next`: the new fields, the actions issued, and how it ended. */
  datatype StepResult = StepResult(state: State, actions: seq<Action>, outcome: Outcome)

  /** Python truthiness of the opening-range high: None and 0 are both false. */
  predicate Truthy(x: Option<real>)
  {
    x.Some? && x.value != 0.0
  }

  /**
   * What every reachable State satisfies: the two range fields are set
   * together, and the breakout is armed only over a set (truthy) range.
   */
  predicate Valid(s: State)
  {
    (s.openingRangeHigh.Some? <==> s.openingRangeLow.Some?) &&
    (s.breakoutOpened ==> Truthy(s.openingRangeHigh))
  }

  /** The time of day `check_time` names, or None where `datetime.time` raises. */
  function CheckTime(p: Params): Option<Seconds>
  {
    TimeOf(p.checkTime.0, p.checkTime.1)
  }

  /** TestRun.py lines 81-83: define the opening range from the first bar at or after the check time. */
  function DefineRange(p: Params, s: State, bar: Bar): (r: StepResult)
    requires Valid(s)
    ensures Valid(r.state) && r.actions == []
    ensures !Truthy(s.openingRangeHigh) && CheckTime(p).None? <==> r.outcome == Raised(ValueError)
    ensures r.outcome.Raised? ==> r.state == s
  {
    if !Truthy(s.openingRangeHigh) then
      match CheckTime(p)
      case None => StepResult(s, [], Raised(ValueError))
      case Some(checkAt) =>
        if bar.time >= checkAt then
          StepResult(s.(openingRangeHigh := Some(bar.high), openingRangeLow := Some(bar.low)), [], Completed)
        else
          StepResult(s, [], Completed)
    else
      StepResult(s, [], Completed)
  }

  /**
   * TestRun.py lines 86-89: arm the breakout. Returns the new fields and the local
   * `range_size`, which is bound (Some) only when the block is entered.
   */
  function Breakout(s: State, bar: Bar): (r: (State, Option<real>))
    requires Valid(s)
    ensures Valid(r.0)
    ensures r.0 == s.(breakoutOpened := r.0.breakoutOpened)
    ensures r.1.Some? <==> Truthy(s.openingRangeHigh) && !s.breakoutOpened && InBreakoutWindow(bar.time)
    ensures r.0.breakoutOpened != s.breakoutOpened ==> r.1.Some?
  {
    if Truthy(s.openingRangeHigh) && !s.breakoutOpened && InBreakoutWindow(bar.time) then
      var rangeSize := s.openingRangeHigh.value - s.openingRangeLow.value;
      (if bar.close >= s.openingRangeHigh.value + rangeSize then s.(breakoutOpened := true) else s, Some(rangeSize))
    else
      (s, None)
  }

  /** TestRun.py line 96: the stop-loss level, `stop` range widths under the entry close. */
  function StopLevel(close: real, stop: real, rangeSize: real): real
  {
    close - stop * rangeSize
  }

  /** TestRun.py line 97: the profit target, `target` range widths over the entry close. */
  function TargetLevel(close: real, target: real, rangeSize: real): real
  {
    close + target * rangeSize
  }

  /**
   * TestRun.py lines 92-98: enter on a retracement into the range with a hammer bar.
   * `buy()` is issued before `range_size` is read, so an unbound
   * `range_size` raises after the Buy.
   */
  function Retrace(p: Params, s: State, bar: Bar, rangeSize: Option<real>): (r: StepResult)
    requires Valid(s)
    ensures r.outcome.Completed? ==> Valid(r.state)
    ensures r.outcome.Raised? ==> r.state == s
    ensures r.actions == [] || r.actions == [Buy]
    ensures r.outcome.Raised? <==> r.actions == [Buy] && rangeSize.None?
  {
    if s.breakoutOpened && bar.close < s.openingRangeHigh.value && InBreakoutWindow(bar.time) &&
       bar.close >= s.openingRangeLow.value && IsHammer(bar)
    then
      match rangeSize
      case None => StepResult(s, [Buy], Raised(UnboundLocalError))
      case Some(size) =>
        StepResult(s.(stopPrice := Some(StopLevel(bar.close, p.stop, size)),
                      takeProfit := Some(TargetLevel(bar.close, p.target, size)),
                      breakoutOpened := false),
                   [Buy], Completed)
    else
      StepResult(s, [], Completed)
  }

  /**
   * TestRun.py lines 101-103: leave the position once `len(self)` reaches
   * `entry_time`. What this means for a whole call of `next` is
   * `StepProperties.ExitIff`.
   */
  function ManagePosition(entryTime: int, barCount: nat, positionSize: int): (r: seq<Action>)
    ensures r == [Close] <==> barCount >= entryTime && positionSize != 0
    ensures r == [] <==> !(barCount >= entryTime && positionSize != 0)
  {
    if barCount >= entryTime && positionSize != 0 then [Close] else []
  }

  /**
   * One call of `next` on `bar`, with `barCount` = `len(self)` (counted
   * from 1, including this bar) and the broker's current position size.
   * A raised exception leaves the remaining blocks unexecuted.
   */
  function Step(p: Params, s: State, bar: Bar, barCount: nat, positionSize: int): (r: StepResult)
    requires Valid(s)
    ensures Valid(r.state)
    ensures r.outcome.Raised? ==> r.state == s
  {
    var defined := DefineRange(p, s, bar);
    if defined.outcome.Raised? then defined
    else
      var (armed, rangeSize) := Breakout(defined.state, bar);
      var entered := Retrace(p, armed, bar, rangeSize);
      if entered.outcome.Raised? then entered
      else StepResult(entered.state, entered.actions + ManagePosition(p.entryTime, barCount, positionSize), Completed)
  }

  /**
   * `stop()`: flatten whatever position is left when the data ends. The
   * class's `Stop` method issues these actions, and `Backtest.Backtest`
   * appends them to a completed run.
   */
  function StopActions(positionSize: int): (r: seq<Action>)
    ensures r == [Close] <==> positionSize != 0
    ensures r == [] <==> positionSize == 0
  {
    if positionSize != 0 then [Close] else []
  }

  /** An order handle; the strategy only ever holds None. */
  datatype Order = Order(action: Action)

  /**
   * The strategy object. `Next` and `Stop` are the engine's per-bar and
   * end-of-data callbacks; the fields `Next` may write are exactly those
   * in State, and `order`, `checkTime` and `entryTime` keep their
   * constructor values because `Next` may not modify them.
   */
  class OpeningRangeStrategy {
    const params: Params
    var openingRangeHigh: Option<real>
    var openingRangeLow: Option<real>
    var order: Option<Order>
    var breakoutOpened: bool  // `opened`
    var checkTime: (int, int)
    var entryTime: int
    var stopPrice: Option<real>
    var takeProfit: Option<real>

    /** The fields `next` writes, as a State. */
    function Fields(): State
      reads this
    {
      State(openingRangeHigh, openingRangeLow, breakoutOpened, stopPrice, takeProfit)
    }

    /** The object invariant: Valid fields, and the per-run copies of the parameters. */
    predicate Inv()
      reads this
    {
      Valid(Fields()) && checkTime == params.checkTime && entryTime == params.entryTime
    }

    /** `__init__` (indicators left out). */
    constructor (p: Params)
      ensures Inv() && params == p
      ensures Fields() == Init && order == None
    {
      params := p;
      openingRangeHigh := None;
      openingRangeLow := None;
      order := None;
      breakoutOpened := false;
      checkTime := p.checkTime;
      entryTime := p.entryTime;
      stopPrice := None;
      takeProfit := None;
    }

    /** `next` on one bar. */
    method Next(bar: Bar, barCount: nat, positionSize: int) returns (actions: seq<Action>, outcome: Outcome)
      requires Inv()
      modifies this`openingRangeHigh, this`openingRangeLow, this`breakoutOpened, this`stopPrice, this`takeProfit
      ensures Inv()
      ensures Step(params, old(Fields()), bar, barCount, positionSize) == StepResult(Fields(), actions, outcome)
    {
      actions, outcome := [], Completed;
      var currentTime := bar.time;

      // Define the opening range.
      if !Truthy(openingRangeHigh) {
        var checkAt := TimeOf(checkTime.0, checkTime.1);
        if checkAt.None? {
          outcome := Raised(ValueError);
          return;
        }
        if currentTime >= checkAt.value {
          openingRangeHigh := Some(bar.high);
          openingRangeLow := Some(bar.low);
        }
      }

      // Breakout above the range within the window.
      var rangeSize: Option<real> := None;
      if Truthy(openingRangeHigh) && !breakoutOpened && InBreakoutWindow(currentTime) {
        var size := openingRangeHigh.value - openingRangeLow.value;
        rangeSize := Some(size);
        if bar.close >= openingRangeHigh.value + size {
          breakoutOpened := true;
        }
      }

      // Retracement into the range with a hammer bar.
      var entered := Retracement(bar, rangeSize);
      actions := actions + entered.actions;
      if entered.outcome.Raised? {
        outcome := entered.outcome;
        return;
      }

      // Time-based exit.
      if barCount >= entryTime {
        if positionSize != 0 {
          actions := actions + [Close];
        }
      }
    }

    /**
     * TestRun.py lines 92-98 of `next`, given the local `range_size` (None while
     * unbound). Returns the actions issued and how the block ended; the
     * new fields are its StepResult's state.
     */
    method Retracement(bar: Bar, rangeSize: Option<real>) returns (r: StepResult)
      requires Inv()
      modifies this`breakoutOpened, this`stopPrice, this`takeProfit
      ensures Inv()
      ensures r == Retrace(params, old(Fields()), bar, rangeSize) && (r.outcome.Completed? ==> Fields() == r.state)
      ensures r.outcome.Raised? ==> Fields() == old(Fields())
    {
      r := StepResult(Fields(), [], Completed);
      if breakoutOpened && bar.close < openingRangeHigh.value && InBreakoutWindow(bar.time) {
        if bar.close >= openingRangeLow.value {
          if IsHammer(bar) {
            match rangeSize
            case None =>
              r := StepResult(Fields(), [Buy], Raised(UnboundLocalError));
            case Some(size) =>
              stopPrice := Some(StopLevel(bar.close, params.stop, size));
              takeProfit := Some(TargetLevel(bar.close, params.target, size));
              breakoutOpened := false;
              r := StepResult(Fields(), [Buy], Completed);
          }
        }
      }
    }

    /** `stop` at the end of the data. */
    method Stop(positionSize: int) returns (actions: seq<Action>)
      ensures actions == StopActions(positionSize)
    {
      actions := [];
      if positionSize != 0 {
        actions := actions + [Close];
      }
    }
  }
}
