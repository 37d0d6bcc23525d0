# Engulfing-pattern backtest, modelled in Dafny

This project models the core of a small candlestick backtesting script
(`Kgotso_POL_MATIC_Bot_Code.py`). The core has two parts:

- **The engulfing-pattern detector** (`check_engulfing_pattern`). It looks at
  the candle at an index and the candle before it. It reports Bullish, Bearish
  or None. A signal needs six conditions: the two body directions, the
  engulfing inequalities, a larger body, a volume spike over the 10 previous
  volumes, and a trend filter against the 20-close simple moving average. The
  trend filter is contrarian: a Bullish signal needs the close *below* the
  average, a Bearish one needs it *above*. The model keeps this polarity.
- **The trade simulator** (`simulated_trading_logic`). It runs one pass over
  the candles with a Flat / Long / Short state machine. While flat it asks the
  detector. On a signal it places the stop at the extreme of the two candles
  and sizes the trade so that size times stop distance equals the capital at
  risk. It opens only when that distance is positive. While a position is
  open it checks take-profit before stop-loss, and capital changes only when
  a position closes. A position still open at the end is left unresolved.

Files:

- `candles.dfy` (module `Candles`): the candle record, the close and volume
  columns, `Sum`/`Mean`, `SMA20` (mean of closes `i-19..i`) and `AvgVol10`
  (mean of volumes `i-10..i-1`). These stand in for the `talib.SMA` and pandas
  `mean` calls.
- `detector.dfy` (module `Detector`): the `Signal` datatype, one predicate per
  condition, `Detect`, and lemmas about what a signal implies.
- `simulator.dfy` (module `Simulator`): the state `Flat | Open(side, entry,
  stop, target, size)`, the pure one-candle `Step` and its fold `Trace`, the
  position invariant `Consistent`, and the imperative loop `SimulateTrading`
  with its helpers `ManagePosition`, `TryEntry`, `EnterLong` and `EnterShort`.
  The loop is proved equal to `Trace`. `EnterLong` and `EnterShort` restate
  the entry steps of `OpenLong` and `OpenShort` as statements, the way the
  script computes them. They are separate methods so that each entry's
  arithmetic is proved on its own, apart from the detector's facts in
  `TryEntry`.

The per-trade fields that the script keeps in variables across loop iterations
(entry, stop, target, size) live only inside an `Open` state here.

Two consequences of the code as written are proved rather than assumed:

- A take-profit close adds `size * profit_target_pct` on both sides.
- A stop-loss close removes `capital * risk_per_trade_pct / entry_price`, that
  is the risk amount divided by the entry price, and not the risk amount
  itself. The size is in units of the asset, but the exit formulas treat it
  like a notional amount. The model keeps the formulas exactly as written.

The body-size test is also shown to be implied by the direction and engulfing
tests, so it never decides a signal on its own.

Where a general description of this system and the code differ, the model
follows the code:

- The code performs no input validation. It raises no data error for an empty
  series or for non-increasing timestamps, so neither is modelled.
- The code prints lines of text instead of producing an event stream.

## Model

| member | source | states |
|---|---|---|
| Candles.Mean | Kgotso_POL_MATIC_Bot_Code.py:71 | the mean times the count is the sum, and some element lies at or below it and some at or above it |
| Candles.TrendVersusPriorCloses | Kgotso_POL_MATIC_Bot_Code.py:74-78 | a close is below (above) the 20-close SMA that includes it exactly when it is below (above) the mean of the 19 closes before it |
| Detector.Body | Kgotso_POL_MATIC_Bot_Code.py:65-66 | the body size is non-negative and is the absolute close-open difference |
| Detector.Detect | Kgotso_POL_MATIC_Bot_Code.py:40-100 | None for every index below 20; Bullish exactly when index >= 20 and all six bullish conditions hold; Bearish exactly when index >= 20 and all six bearish conditions hold |
| Detector.PatternsExclusive | Kgotso_POL_MATIC_Bot_Code.py:59-95 | no index satisfies the bullish and the bearish pattern at once |
| Detector.BullishSignalMeans | Kgotso_POL_MATIC_Bot_Code.py:59-88 | Bullish implies index >= 20, previous bearish, current bullish, cur.close > prev.open, cur.open < prev.close, larger body, volume above the 10-volume mean, close below the 20-close SMA |
| Detector.BearishSignalMeans | Kgotso_POL_MATIC_Bot_Code.py:59-98 | Bearish implies the mirrored shape and body conditions, the same volume condition, and close above the 20-close SMA |
| Detector.BodyTestImpliedByEngulf | Kgotso_POL_MATIC_Bot_Code.py:59-95 | opposite body directions plus the engulfing inequalities already make the current body strictly larger |
| Detector.SignalNeedsQuieterCandle | Kgotso_POL_MATIC_Bot_Code.py:69-72 | any signal at i implies some candle among the 10 before i had strictly less volume |
| Detector.TrendFilterIsContrarian | Kgotso_POL_MATIC_Bot_Code.py:74-95 | Bullish implies some of the 19 previous closes was strictly higher than the signal close; Bearish, strictly lower |
| Simulator.OpenLong | Kgotso_POL_MATIC_Bot_Code.py:153-170 | opens exactly when the stop distance is positive; entry is the close, stop is min of the two lows, size * stop distance == capital * risk_pct, target == entry * (1 + pct) |
| Simulator.OpenShort | Kgotso_POL_MATIC_Bot_Code.py:172-189 | opens exactly when the stop distance is positive; stop is max of the two highs, size * stop distance == capital * risk_pct, target == entry * (1 - pct) |
| Simulator.Step | Kgotso_POL_MATIC_Bot_Code.py:120-189 | a flat step never changes capital; from flat a Bullish signal yields exactly the OpenLong attempt, a Bearish one exactly the OpenShort attempt, and None leaves the state unchanged; a position opens only on the matching signal; an open position either closes or stays exactly as it is, so it is never reopened on the same candle; with neither threshold hit nothing changes; capital changes only on a close |
| Simulator.Trace | Kgotso_POL_MATIC_Bot_Code.py:114-189 | every reachable state has a positive entry price, and nothing happens before the detector's warm-up of 20 candles |
| Simulator.StepKeepsConsistent | Kgotso_POL_MATIC_Bot_Code.py:123-189 | one step preserves the position invariant: stop on the losing side of entry, target at the configured distance, size * stop distance == current capital * risk_pct |
| Simulator.TraceConsistent | Kgotso_POL_MATIC_Bot_Code.py:114-189 | every state of the run satisfies the position invariant |
| Simulator.TakeProfitAddsSizeTimesPct | Kgotso_POL_MATIC_Bot_Code.py:124-142 | a take-profit close sets capital to capital + size * profit_target_pct, for long and for short |
| Simulator.StopLossCostsRiskOverEntry | Kgotso_POL_MATIC_Bot_Code.py:131-148 | a stop-loss close sets capital to capital - capital * risk_pct / entry, for long and for short |
| Simulator.TakeProfitBeforeStopLoss | Kgotso_POL_MATIC_Bot_Code.py:124-148 | a candle that reaches both thresholds closes the position at its target |
| Simulator.OpenPositionNotMarkedToMarket | Kgotso_POL_MATIC_Bot_Code.py:191-195 | a position open before candle k was opened on an earlier candle from flat on a detector signal, and capital has not changed since, so final capital excludes it |
| Simulator.ManagePosition | Kgotso_POL_MATIC_Bot_Code.py:123-148 | the imperative open-position branch computes exactly Step |
| Simulator.EnterLong | Kgotso_POL_MATIC_Bot_Code.py:153-170 | the imperative long entry computes exactly OpenLong |
| Simulator.EnterShort | Kgotso_POL_MATIC_Bot_Code.py:172-189 | the imperative short entry computes exactly OpenShort |
| Simulator.TryEntry | Kgotso_POL_MATIC_Bot_Code.py:150-189 | the imperative flat branch computes exactly Step from a flat state, so a Bullish signal makes the OpenLong attempt, a Bearish one the OpenShort attempt, and None changes nothing |
| Simulator.SimulateTrading | Kgotso_POL_MATIC_Bot_Code.py:104-195 | the loop ends in the state of the fold Trace over all candles, and that state satisfies the position invariant |
| Simulator.WorkedExample | Kgotso_POL_MATIC_Bot_Code.py:126-167 | capital 1000, 1% risk, 2% target, entry 100, stop 98 give size 5 and target 102, and a next high of 103 yields capital 1000.1 |

## Left out

- `get_historical_klines` and the API client setup: network I/O and DataFrame construction. The model takes the candle sequence as input.
- All printed output and the `__main__` driver with its constants. The final capital and whether a position is left open are the results of `SimulateTrading`; no event list is produced.
- Candle open times: they only label printed lines.
- IEEE floating point, NaN warm-up values of `talib.SMA` and `pd.to_numeric` parsing: prices and volumes are exact reals, and the averages are the explicit window means. For indices of at least 20 every window is full, so no NaN can reach the comparisons.
- Simulator.Step: requires every close price to be positive, so that the entry price can be divided by. With a zero entry price the script would produce an infinite or undefined value, which reals cannot express. The same requirement applies to Trace, SimulateTrading, ManagePosition and TryEntry.
- Detector.Detect: requires the index to be inside the series. An out-of-range index would make `iloc` raise, and the only caller passes in-range indices.
- Validation of the configuration values: the script does not check them, and neither does the model.
