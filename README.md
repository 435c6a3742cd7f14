# Opening-range breakout strategy, modelled in Dafny

This project models the bar-by-bar decision logic of `OpeningRangeStrategy`, a
backtrader strategy that trades a breakout from the opening range of the
session. It covers the per-run fields set up in `__init__`, the four rules of
`next`, the `is_hammer` test and the end-of-data `stop`.

- The opening range is the high and low of the first bar at or after
  `check_time` (9:30 by default), taken while the range is still unset.
  "Unset" is Python truthiness: a high of `None` or of `0` both count.
- The breakout is armed when a bar in the hard-coded window 9:30-11:00
  (inclusive) closes at or above `high + (high - low)`. The window does not
  follow `check_time`.
- The entry is a bar in the same window that was armed at its start, closes
  inside `[low, high)` and passes `is_hammer`. The entry issues `buy()`.
- The exit issues `close()` on every bar with `len(self) >= entry_time` while
  the broker reports a nonzero position. `stop()` issues one more `close()`
  if a position is left when the data ends.

`range_size` is a local of `next`, assigned only in the arming block. The
flag does not keep the two blocks apart: line 89 sets `opened` and line 92
reads the new value on the same bar. What does is the price: arming needs
`close >= high + (high - low)` and entry needs `low <= close < high`, and no
close meets both (`StepProperties.SameBarEntryImpossible`). So the entry
block only buys on a bar that was armed at its start, when the arming block
did not run, and every entry issues `buy()` and then raises
`UnboundLocalError` at line 96. The model keeps that behaviour:
`range_size` is an `Option`, and the entry with `None` ends the step with
`Raised(UnboundLocalError)` after the Buy. `StepProperties.EntryIff` proves
that every entry takes that path. It follows that no rule ever sets or reads
`stop_price` and `take_profit`, and that `stop` and `target` are never used.

Files and modules:

- `bars.dfy`, module `Candles`: the bar, time of day in seconds since
  midnight, `datetime.time(h, m)` with its `ValueError`, the breakout window,
  and `is_hammer` with its lemmas.
- `strategy.dfy`, module `Strategy`: the parameters, the fields `next`
  writes (`State`), one block of `next` per function, `Step` (one call of
  `next`), `StopActions` (`stop`), and the class `OpeningRangeStrategy`.
  The class's `Next`, `Retracement` and `Stop` methods update its fields as
  `Step` says. Its modifies clause lists only the five fields `next` writes,
  so `order`, `checkTime` and `entryTime` keep their constructor values.
- `step_properties.dfy`, module `StepProperties`: each rule of `next` stated
  against `Step`, both directions where the rule is an if-and-only-if.
- `backtest.dfy`, module `Backtest`: `Run` calls `Step` on each bar in turn
  and stops at the first exception. `Backtest` adds `stop` at the end. The
  lemmas are about whole runs.

Inputs the strategy cannot compute itself are parameters of the model:

- the bar's prices and time of day;
- `len(self)`, counted from 1 and including the current bar;
- the broker's position size at each bar.

Prices are `real`.

Where the fields `stop_price`/`take_profit` and the parameters suggest more
than the code does, the model follows the code:

- there are no stop-loss or take-profit exits;
- `buy()` never leads to a successful entry (the unbound `range_size` above);
- the parameters are not validated;
- the opening range is one bar, and the breakout window is fixed.

## Model

| member | source | states |
|---|---|---|
| `Candles.TimeOf` | backtrader/btrun/TestRun.py:81 | `datetime.time(hour, minute)` exists iff hour is 0..23 and minute 0..59 (else ValueError); the seconds it gives decode back to that hour and minute |
| `Candles.BodySize` | backtrader/btrun/TestRun.py:107 | the body is never negative and is zero iff open equals close |
| `Candles.TailSize` | backtrader/btrun/TestRun.py:108 | the tail is positive iff the low lies above min(open, close) |
| `Candles.IsHammer` | backtrader/btrun/TestRun.py:105-109 | `is_hammer` is `low - min(open, close) >= 0.5 * abs(open - close)`; a hammer never has its low under min(open, close), and a bar with open = close is a hammer iff its low is at or above that price |
| `Candles.HammerWithLowUnderBody` | backtrader/btrun/TestRun.py:105-109 | on a bar whose low is at or under open and close, `is_hammer` holds iff open = close = low |
| `Candles.HammerIgnoresHigh` | backtrader/btrun/TestRun.py:105-109 | `is_hammer` does not depend on the bar's high: there is no upper-shadow condition |
| `Candles.LongUpperWickIsHammer` | backtrader/btrun/TestRun.py:105-109 | a flat bar with an upper wick of 100 and no lower wick passes the test |
| `Candles.DescendingBarIsNotHammer` | backtrader/btrun/TestRun.py:105-109 | open 10, high 10.2, low 8, close 9 has body 1 and tail -1, so it is not a hammer |
| `Strategy.DefineRange` | backtrader/btrun/TestRun.py:81-83 | raises ValueError iff the range is unset and `check_time` is out of range; a raise changes no field; the result keeps the range fields paired |
| `Strategy.Breakout` | backtrader/btrun/TestRun.py:86-89 | only `opened` may change, and only from false; `range_size` is bound iff the range is set, the breakout unarmed and the bar in the window; the state stays valid |
| `Strategy.Retrace` | backtrader/btrun/TestRun.py:92-98 | the entry block issues at most one Buy; it raises iff it issues the Buy with `range_size` unbound, and then leaves the fields unchanged |
| `Strategy.ManagePosition` | backtrader/btrun/TestRun.py:101-103 | `close()` is issued iff `len(self) >= entry_time` and the position size is nonzero; no action otherwise |
| `Strategy.Step` | backtrader/btrun/TestRun.py:77-103 | one call of `next` keeps the state valid, and a raised exception leaves every field as it was |
| `Strategy.StopActions` | backtrader/btrun/TestRun.py:111-113 | `stop` issues exactly one `close()` iff the position size is nonzero, and nothing otherwise |
| `Strategy.OpeningRangeStrategy.constructor` | backtrader/btrun/TestRun.py:62-70 | `__init__` leaves the range unset, the breakout unarmed, no order, no stop or target, and copies `check_time` and `entry_time` from the parameters |
| `Strategy.OpeningRangeStrategy.Next` | backtrader/btrun/TestRun.py:77-103 | the new fields, actions and outcome are those of `Step` on the old fields; only the range fields, `opened`, `stop_price` and `take_profit` may change |
| `Strategy.OpeningRangeStrategy.Retracement` | backtrader/btrun/TestRun.py:92-98 | the entry block's actions and outcome are those of `Retrace`, and a raise leaves the fields unchanged |
| `Strategy.OpeningRangeStrategy.Stop` | backtrader/btrun/TestRun.py:111-113 | issues the actions of `StopActions` for the position size |
| `StepProperties.RangeDefinition` | backtrader/btrun/TestRun.py:81-83 | with a valid check time, the range becomes the bar's high and low iff it was unset (None or 0) and the bar is at or after the check time; otherwise both fields keep their values |
| `StepProperties.ValueErrorIff` | backtrader/btrun/TestRun.py:81 | a step raises ValueError iff the range is unset and `check_time` is not a valid time of day |
| `StepProperties.ArmingIff` | backtrader/btrun/TestRun.py:81-89 | an unarmed breakout becomes armed iff the step completes, the range after this bar's range-setting is set, the bar is in 9:30-11:00 and close >= high + (high - low) |
| `StepProperties.SameBarEntryImpossible` | backtrader/btrun/TestRun.py:86-93 | a close that arms the breakout cannot also lie in `[low, high)` |
| `StepProperties.ArmedStaysArmed` | backtrader/btrun/TestRun.py:81-98 | once armed, the breakout stays armed and the range fields stay as they are |
| `StepProperties.EntryIff` | backtrader/btrun/TestRun.py:86-98 | `buy()` is issued iff the breakout was armed at the start of the bar, the bar is in the window, low <= close < high and the bar is a hammer; exactly then the step raises UnboundLocalError, with Buy as its only action |
| `StepProperties.PriceLevelsNeverWritten` | backtrader/btrun/TestRun.py:92-98 | no step changes `stop_price` or `take_profit` |
| `StepProperties.ExitIff` | backtrader/btrun/TestRun.py:101-103 | `close()` is issued iff the step completes, `len(self) >= entry_time` and the position is nonzero; prices, stop and target play no part |
| `StepProperties.UnusedParams` | backtrader/btrun/TestRun.py:53-60 | two parameter sets with the same `check_time` and `entry_time` give identical steps: `risk`, `scale_out`, `stop` and `target` have no effect |
| `StepProperties.BreakoutThenNoHammer` | backtrader/btrun/TestRun.py:77-103 | a range [100, 101] set at 9:30 is armed by a close of 102, and a retest inside the range with open 100.9, close 100.7, low 100.6 is no hammer and issues nothing |
| `StepProperties.BreakoutThenHammer` | backtrader/btrun/TestRun.py:92-96 | the same armed range retested by a flat bar at 100.5 issues `buy()` and raises UnboundLocalError |
| `Backtest.Run` | backtrader/btrun/TestRun.py:77-103 | calling `next` bar after bar keeps the state valid; no bars means no change |
| `Backtest.Backtest` | backtrader/btrun/TestRun.py:62-113 | a whole run from `__init__`: `next` on each bar, then `stop` only if every bar completed; its outcome and fields are the run's, a raise adds nothing, a completed run adds one action when a position is left and none otherwise, and every added action is `close()`; with no bars it is `stop` alone |
| `Backtest.RangeFrozen` | backtrader/btrun/TestRun.py:81-83 | once the range is set with a nonzero high, no later bar changes either range field |
| `Backtest.NoCheckTimeNoEntry` | backtrader/btrun/TestRun.py:81-95 | with a valid `check_time`, if no bar reaches it, the range stays unset, the breakout is never armed, `buy()` is never issued and no step raises |
| `Backtest.FirstBarAtCheckTimeDefinesRange` | backtrader/btrun/TestRun.py:81-83 | after any run, the range is the high and low of the first bar at or after the check time, when that bar's high is nonzero |
| `Backtest.BuyEndsRun` | backtrader/btrun/TestRun.py:92-96 | a `buy()` is the last action of its run, no earlier Buy precedes it, and the run ends in UnboundLocalError |
| `Backtest.PriceLevelsKept` | backtrader/btrun/TestRun.py:69-70 | `stop_price` and `take_profit` keep their values over a whole run |
| `Backtest.BacktestOutcome` | backtrader/btrun/TestRun.py:62-113 | from `__init__` to `stop`, `stop_price` and `take_profit` stay None, and any `buy()` is the final action of a run that raised UnboundLocalError |
| `Backtest.InvalidCheckTimeFailsFirstBar` | backtrader/btrun/TestRun.py:81 | an out-of-range `check_time` makes the first bar raise ValueError before any action |

## Left out

- `TestWrapper`, `TestClient` and `IBApiApp` (lines 13-49): the socket client to the brokerage, its background thread and the `time.sleep` synchronisation are concurrency and I/O.
- The connection, the contract, the historical-data request and the fixed 10-second wait (lines 119-155): network I/O.
- The conversion of the received bars to a pandas `DataFrame` and a `PandasData` feed (lines 157-187): library code outside the model. Volume and the date of a bar are never read by the strategy and are not in `Bar`.
- The Cerebro setup, cash, commission, `cerebro.run()` and plotting (lines 115-117, 189-204): engine internals and user interface.
- The Stochastic and EMA indicators (lines 73-75): `next` never reads them. In backtrader they also delay the first call of `next` until their warm-up is over (89 bars for the 89-period EMA). The model does not compute that delay; `Run` takes the first bar's `len(self)` as a parameter instead.
- How the engine reacts to an exception in `next`: the model ends the run at the first exception and does not call `stop`.
- Order fills and position accounting after `buy()` and `close()`: these belong to the broker. The actions are outputs, and the position size is an input at every bar.
- IEEE floating point: prices are `real`, so rounding, NaN and infinities are not modelled.
- `check_time` is modelled as an (hour, minute) pair. Other tuples are not modelled: a shorter one gets the defaults of `datetime.time` (`(9,)` is 9:00, `()` is midnight); a longer one adds seconds, microseconds or tzinfo, or raises TypeError past five entries; non-integer entries raise TypeError.
- Times of day have a resolution of one second; microseconds are not modelled.
- `order` is a field that `__init__` sets to None and nothing reads or writes again. The model's `Order` type is a placeholder for it.
