# Grid-trading scripts, modelled in Dafny

Six small Python scripts that watch the Bitcoin or Ether price and lay a
"grid" of price levels around it. Each script estimates a price range from
recent bars (an ATR band, the historical high/low, a volatility band or a
market-regime rule), splits the range into levels, and then either prints a
plan (`grid_planner_ETH.py`), places limit orders (`grid_trading_chatgpt.py`),
or polls the price and e-mails an alert whenever a level is reached or
crossed (the other four).

One Dafny module per script, plus shared definitions:

- `common.dfy`, module `GridCommon`. It holds Python's `int()` (truncation
  toward zero), `np.clip`, sums and means, `s[-k:]`, window extremes, and
  evenly spaced ladders with their monotonicity lemmas.
- `gemini.dfy`, module `Gemini`. It models range suggestion (ATR first, then
  the historical high/low) and the grid-count suggestion. It also models the
  levels between `min` and `max`, and the crossing detector. The detector
  keeps a `last_price` and a set of triggered level keys, as the class
  `CrossingMonitor`.
- `planner_eth.dfy`, module `PlannerEth`. It models the range and grid-count
  suggestions and the clamped levels. It also models the buy/sell plan, which
  splits the USDT balance over the levels below the price and the ETH balance
  over the levels at or above it (`GenerateGridPlan`, with its two loops).
- `lingma.dfy`, module `Lingma`. It models the class `BitcoinGridTrader`
  (`GridTrader`). The class rebuilds its grid around the new price, after
  re-tuning range and density with the volatility, ATR or regime algorithm,
  whenever it has no reference price or the price leaves the grid. It then
  signals every untriggered level that the price has reached.
- `trae.dfy`, module `Trae`. It models the ATR-based parameter suggestion and
  `generate_grid`. It also models the alert loop as `GridMonitor`: one array of
  flags indexed by position, shared by the ascending buy list and the
  descending sell list.
- `comate.dfy`, module `Comate`. It models the fixed 76000–95000 ladder built
  by a `while` loop, and the tick that alerts on the first matching buy price
  and the first matching sell price.
- `chatgpt.dfy`, module `ChatGpt`. It models the ATR-derived spacing and band,
  and the loop that issues `grid_count` alternating buy and sell limit orders.

How parts of the source are modelled:

- Code made of expressions is written as functions with lemmas.
- Code that changes state is written as classes and methods.
- Each method is proved equal to a specification function. The lemmas state
  what the scripts promise about that function.
- Prices are mathematical reals.
- Data the scripts fetch over the network becomes a parameter: the latest
  price (`None` when the fetch failed), the bar history, pandas_ta's ATR,
  numpy's standard deviation and scipy's normal quantile.

## Model

| member | source | states |
|---|---|---|
| `Gemini.SuggestParamsHistorical` | grid_trading_gemini.py:99-108 | None exactly when fewer than `lookback` bars exist; otherwise the least Low and greatest High of the last `lookback` bars, each attained by some bar of the window |
| `Gemini.SuggestParamsAtr` | grid_trading_gemini.py:110-137 | a range exactly when there are `period + 1` bars and an ATR; it is centred on the latest close and `2 * factor * atr` wide |
| `Gemini.SuggestNumGrids` | grid_trading_gemini.py:140-164 | a count exactly for a proper range, a positive target and a positive approximate step; the count is at least 1, and when it exceeds 1 the approximate step fits into the range between `n + 1` and `n + 2` times |
| `Gemini.ActualStepMeetsTarget` | grid_trading_gemini.py:154-158 | with more than one grid, the realised step `(max - min) / (n + 1)` earns at least the target percentage of `min` |
| `Gemini.SingleGridMayMissTarget` | grid_trading_gemini.py:154-159 | with the one-grid floor the realised profit can fall below the target: at 100–100.2 with a 0.4% target the single grid earns 0.1% |
| `Gemini.CalculateMonitoringGridLevels` | grid_trading_gemini.py:182-188 | no levels for a non-positive count or an empty range; otherwise `numGrids` strictly increasing levels inside the range, equally spaced, with a gap of one step at each end |
| `Gemini.SelectRange` | grid_trading_gemini.py:230-238 | the ATR range when ATR is preferred and available, else the historical range, else nothing (the script exits) |
| `Gemini.Setup` | grid_trading_gemini.py:219-282 | no setup without history; otherwise one exactly when the selected range has `0 < min < max`, and then at least one strictly increasing level inside it |
| `Gemini.ScanFacts` | grid_trading_gemini.py:299-327 | one scan adds exactly the keys of crossed levels to the triggered set; every signal is for a level crossed in its direction, at the current price, with a previously untriggered key; no two signals share a key; and the keys signalled are exactly the crossed keys that were not yet triggered, so every such crossing alerts |
| `Gemini.Step` | grid_trading_gemini.py:292-334 | a failed fetch forgets the last price and keeps the flags; the first price after that only records itself; every successful fetch becomes the last price; flags only grow, by exactly the crossed keys when a last price exists; the keys signalled are exactly the keys newly triggered |
| `Gemini.NoSignalOnRecovery` | grid_trading_gemini.py:330-334 | the tick after a failed fetch never signals |
| `Gemini.RunSignalsEachKeyAtMostOnce` | grid_trading_gemini.py:292-334 | over any sequence of ticks each level key signals at most once, and only when untriggered at the start; every key triggered during the run was signalled |
| `Gemini.FallThroughOneLevel` | grid_trading_gemini.py:304-314 | levels 95, 100, 105 and a fall from 97 to 94 give exactly one BUY, at 95 |
| `Gemini.RiseThroughOneLevel` | grid_trading_gemini.py:317-327 | levels 95, 100, 105 and a rise from 103 to 106 give exactly one SELL, at 105 |
| `Gemini.CrossingMonitor.constructor` | grid_trading_gemini.py:68-69 | the monitor starts with no last price and no triggered level |
| `Gemini.CrossingMonitor.Tick` | grid_trading_gemini.py:292-334 | the loop body updates `last_price` and the triggered set, and returns the signals, exactly as `Step` specifies |
| `PlannerEth.SuggestRangeAtr` | grid_planner_ETH.py:93-101 | a range exactly when there are enough bars, an ATR and a current price; it extends `factor * atr` on each side of the current price and carries the ATR |
| `PlannerEth.AtrRangeExample` | grid_planner_ETH.py:98-101 | price 100, ATR 5 and factor 2 give [90, 110] |
| `PlannerEth.SuggestRangeHistorical` | grid_planner_ETH.py:103-113 | None only for an empty history; a shorter history clamps the window; the result is the window's attained least Low and greatest High |
| `PlannerEth.HistoricalRangeExample` | grid_planner_ETH.py:103-113 | 30 bars with least Low 1000 and greatest High 1200 and a 30-bar lookback give [1000, 1200] |
| `PlannerEth.SuggestTotalGrids` | grid_planner_ETH.py:115-133 | a count exactly when `0 < min < max` and the target is positive; the count is at least 1 and fits the approximate step as for Gemini |
| `PlannerEth.TotalGridsAgreeWithGemini` | grid_planner_ETH.py:115-133 | on every input the planner's count equals `suggest_num_grids` of the Gemini script |
| `PlannerEth.CalculateGridLevels` | grid_planner_ETH.py:135-142 | no levels for a zero bound, an empty range or a non-positive count; otherwise `numGrids` strictly increasing levels strictly inside the range |
| `PlannerEth.ClampIsNoOp` | grid_planner_ETH.py:139-141 | with non-zero bounds the `min`/`max` clamp changes nothing: the levels equal Gemini's unclamped ones |
| `PlannerEth.BuyLevels` | grid_planner_ETH.py:155 | every buy level is a grid level below the current price |
| `PlannerEth.SellLevels` | grid_planner_ETH.py:156 | every sell level is a grid level at or above the current price |
| `PlannerEth.AllBelow` | grid_planner_ETH.py:155-156 | when every level is below the price, all are buys and none are sells |
| `PlannerEth.SidesPartitionLevels` | grid_planner_ETH.py:155-156 | for increasing levels, the buy levels followed by the sell levels are exactly the grid levels |
| `PlannerEth.SideCountsAddUp` | grid_planner_ETH.py:155-159 | the two side counts add up to the number of levels |
| `PlannerEth.SidesRise` | grid_planner_ETH.py:155-156 | both sides of increasing levels are increasing, so `sorted()` leaves them unchanged |
| `PlannerEth.PerGridShare` | grid_planner_ETH.py:162-163 | the even share is positive exactly when there are levels and a positive balance; the shares then add up to the balance; otherwise the share is 0 |
| `PlannerEth.PlanCounts` | grid_planner_ETH.py:146-159 | falsy inputs or no levels give an empty plan with zero counts; otherwise the side counts add up to the grid count |
| `PlannerEth.TotalsOfConcat` | grid_planner_ETH.py:161-179 | the USDT spent and the ETH sold by a concatenation of plan entries add up |
| `PlannerEth.BuyEntriesShape` | grid_planner_ETH.py:165-171 | one BUY entry per buy level, in order, when the share is positive, otherwise none; each entry carries the share and `share / level` as its ETH estimate |
| `PlannerEth.BuyEntriesTotals` | grid_planner_ETH.py:165-171 | the BUY entries spend the share once per entry and sell no ETH |
| `PlannerEth.SellEntriesShape` | grid_planner_ETH.py:173-179 | one SELL entry per sell level, in order, when the share is positive, otherwise none; each entry carries the share and `share * level` as its USDT estimate |
| `PlannerEth.SellEntriesTotals` | grid_planner_ETH.py:173-179 | the SELL entries sell the share once per entry and spend no USDT |
| `PlannerEth.SplitSpendsBalances` | grid_planner_ETH.py:155-179 | the buy entries spend exactly the USDT balance when there are buy levels and a positive balance, and likewise for ETH on the sell side; a non-positive balance gives zero |
| `PlannerEth.SplitEntriesPriced` | grid_planner_ETH.py:155-179 | every entry is at a grid level; BUYs are below the price at the USDT share, SELLs at or above it at the ETH share; every estimate is consistent |
| `PlannerEth.SplitOrdered` | grid_planner_ETH.py:155-179 | entry prices strictly increase and all BUYs come before all SELLs |
| `PlannerEth.PlanSpendsBalances` | grid_planner_ETH.py:144-181 | the whole plan spends exactly the USDT balance and sells exactly the ETH balance whenever the side has levels and a positive balance |
| `PlannerEth.PlanEntriesPriced` | grid_planner_ETH.py:144-181 | every entry lies strictly inside the range, on the correct side of the price, at its side's share, with consistent estimates |
| `PlannerEth.PlanOrdered` | grid_planner_ETH.py:144-181 | the plan is ordered by price with the BUYs first |
| `PlannerEth.AppendBuyEntries` | grid_planner_ETH.py:165-171 | the buy loop appends exactly the BUY entries of its levels |
| `PlannerEth.AppendSellEntries` | grid_planner_ETH.py:173-179 | the sell loop appends exactly the SELL entries of its levels |
| `PlannerEth.GenerateGridPlan` | grid_planner_ETH.py:144-181 | the plan and both counts are those of `GridPlan`, about which the lemmas above are proved |
| `Lingma.VolatilityUpdate` | grid_trading_lingma.py:107-115 | the range becomes `z * volatility`; a zero volatility keeps the density (the raised error is caught); otherwise the density lies in [5, 20] and equals `int(10 / (vol * 100))` when that is in bounds |
| `Lingma.VolatilityExamples` | grid_trading_lingma.py:107-115 | 1% volatility at z = 1.96 gives a range of 0.0196 and 10 levels; 0.1% volatility is clipped to 20 levels |
| `Lingma.TrueRangeAt` | grid_trading_lingma.py:125-131 | the first bar's true range is its span; later ones are the largest of the span and the absolute moves of high and low, hence non-negative |
| `Lingma.TrueRanges` | grid_trading_lingma.py:125-131 | the loop builds one true range per bar, as `TrueRangeSeq` defines them |
| `Lingma.AtrParams` | grid_trading_lingma.py:132-136 | the range times the latest price is three ATRs; the density is 8, or is kept when the ATR is zero |
| `Lingma.AtrUpdate` | grid_trading_lingma.py:117-136 | nothing changes with fewer than 14 high/low pairs; otherwise the parameters follow from the 14-bar mean true range |
| `Lingma.RegimeUpdate` | grid_trading_lingma.py:138-152 | the results lie in [8, 25] levels and [0.05, 0.3] range; a trending market never widens or thickens the grid beyond the clip floor, a ranging one never narrows or thins it below the clip ceiling |
| `Lingma.RangingExample` | grid_trading_lingma.py:138-152 | thirty equal prices are a ranging market: from (0.1, 10) the parameters become (0.13, 14) |
| `Lingma.AutoUpdate` | grid_trading_lingma.py:91-105 | with no history or fewer than 30 prices, or an unrecognised algorithm, nothing changes; every update keeps the density in [5, 25] |
| `Lingma.GridShape` | grid_trading_lingma.py:61-80 | with a positive step the buy ladder falls strictly and the sell ladder rises strictly; every level lies on its side of the base; the outermost levels are `base * (1 - range)` and `base * (1 + range)` |
| `Lingma.GenerateGridState` | grid_trading_lingma.py:61-80 | re-tunes the parameters; lays `density` buy and `density` sell levels mirrored about the base price; keeps the reference price and the triggered set |
| `Lingma.ShouldRegenerate` | grid_trading_lingma.py:82-88 | no regeneration exactly when the reference price is truthy and the price is at or above some buy level and at or below some sell level (an empty list counts as 0) |
| `Lingma.ScanFacts` | grid_trading_lingma.py:184-196 | one scan adds exactly the reached levels to the triggered set; it signals each newly triggered level once, at the price and on the scan's side; a scan that reaches nothing new is silent |
| `Lingma.CheckSignalsFacts` | grid_trading_lingma.py:184-192 | one check triggers exactly the reached buy and sell levels; BUY signals precede SELL signals; no level signals twice; every newly triggered level signals |
| `Lingma.NothingNewIsSilent` | grid_trading_lingma.py:184-192 | a check that reaches no untriggered level sends nothing and changes nothing |
| `Lingma.Step` | grid_trading_lingma.py:45-58 | a failed fetch changes nothing; otherwise, with a regeneration, the new price becomes the reference and the triggered set is rebuilt from scratch; without one, grid and parameters stay and the set grows by the reached levels |
| `Lingma.FreshGridIsSilent` | grid_trading_lingma.py:61-80 | a grid freshly laid around a price with a positive step has no level that price has reached |
| `Lingma.RegenerationTickIsSilent` | grid_trading_lingma.py:50-58 | the tick that regenerates the grid sends no signal and leaves the triggered set empty |
| `Lingma.EachLevelFiresOnceBetweenRegenerations` | grid_trading_lingma.py:45-58 | over ticks that do not regenerate, the grid and parameters stay fixed and each level signals at most once, only if it was untriggered |
| `Lingma.GridTrader.constructor` | grid_trading_lingma.py:9-34 | a 10% range of 10 levels, no reference price, no levels and no triggered level |
| `Lingma.GridTrader.CheckPrice` | grid_trading_lingma.py:45-58 | the method's new state and signals are those of `Step`; the density stays in bounds |
| `Lingma.GridTrader.GenerateGrid` | grid_trading_lingma.py:61-76 | the new levels and parameters are those of `GenerateGridState` |
| `Lingma.GridTrader.AutoUpdateParameters` | grid_trading_lingma.py:91-105 | the parameters become `AutoUpdate` of the old ones and nothing else changes |
| `Lingma.GridTrader.UpdateByVolatility` | grid_trading_lingma.py:107-115 | the parameters become `VolatilityUpdate` of the old ones |
| `Lingma.GridTrader.UpdateByAtr` | grid_trading_lingma.py:117-136 | the parameters become `AtrUpdate` of the old ones |
| `Lingma.GridTrader.UpdateByRegime` | grid_trading_lingma.py:138-152 | the parameters become `RegimeUpdate` of the old ones |
| `Lingma.GridTrader.CheckTradingSignals` | grid_trading_lingma.py:184-192 | the two loops compute the triggered set and signals of `CheckSignals` and leave the grid alone |
| `Lingma.GridTrader.TriggerSignal` | grid_trading_lingma.py:194-205 | the level joins the triggered set and a signal for it is returned |
| `Trae.SuggestParameters` | grid_trading_trae.py:92-127 | without a truthy ATR, 10 levels and no bounds; with one, bounds three ATRs on each side of the price and `min(int(band / step), 20)` levels for a 1.5% step, never negative for a positive price and ATR |
| `Trae.Min` | grid_trading_trae.py:122-125 | Python's `min`: no larger than either argument and equal to one of them |
| `Trae.ZeroGridsExample` | grid_trading_trae.py:122-125 | a small ATR gives zero levels: 600 of band against a 1500 step at 100000 |
| `Trae.LadderInside` | grid_trading_trae.py:165-166 | `n` levels one step apart over `n + 1` intervals stay strictly inside the band |
| `Trae.GenerateGrid` | grid_trading_trae.py:129-172 | `num_grids` buy levels `min + (i + 1) * (max - min) / (num_grids + 1)`, strictly increasing and inside the band (none for an empty band); the sell levels are their reverse; `num_grids` cleared flags |
| `Trae.GenerateGridExample` | grid_trading_trae.py:137 | a band of [100, 200] with four levels gives 120, 140, 160, 180 |
| `Trae.ScanFlagsFacts` | grid_trading_trae.py:258-267 | a scan sets exactly the flags of reached levels, keeps set flags, and alerts in index order once for each flag it sets |
| `Trae.Step` | grid_trading_trae.py:253-267 | a failed fetch changes nothing and alerts nothing; the flag list keeps its length |
| `Trae.StepFacts` | grid_trading_trae.py:258-267 | one pass never clears a flag, alerts only for clear flags and at most once per flag; a flag left clear had neither its buy nor its sell level reached |
| `Trae.SharedFlagExample` | grid_trading_trae.py:256-267 | at 2.5 on the ladder 1, 2, 3 the buy alert at 3 sets flag 2, which silences the reached sell level 1 |
| `Trae.EachIndexAlertsOnce` | grid_trading_trae.py:251-267 | over a whole run each flag index alerts at most once, only if it was clear at the start, and ends set |
| `Trae.GridMonitor.constructor` | grid_trading_trae.py:245-246 | the monitor holds the generated grid, with its flags in a fresh array |
| `Trae.GridMonitor.Tick` | grid_trading_trae.py:251-267 | the loop updates the flag array and returns the alerts exactly as `Step` specifies |
| `Comate.RungCountIsMaximal` | grid_trading_comate.py:62-66 | exactly the first `RungCount` rungs from `low` lie at or below `high` |
| `Comate.AtMost` | grid_trading_comate.py:69 | the filtered list holds exactly the prices at or below the bound |
| `Comate.SellsAreShiftedBuys` | grid_trading_comate.py:65-69 | the filter drops exactly the last candidate, the only one above `high` |
| `Comate.BuildLadders` | grid_trading_comate.py:58-69 | the loop lays exactly `RungCount` buy prices, stepping up from `low` by the density, all at or below `high`; the sell prices are the buy prices without the first |
| `Comate.LadderComplete` | grid_trading_comate.py:62-69 | when the loop condition fails after `m` rungs, `m` is the full rung count, every rung is at or below `high`, and the filter leaves the rungs without the first |
| `Comate.ConfiguredLadder` | grid_trading_comate.py:15-23 | with the configured constants the density is 380 and the ladder has 51 buy prices, from 76000 to 95000 |
| `Comate.FirstHit` | grid_trading_comate.py:79-90 | None exactly when no level from `from` on is reached; otherwise the first reached index |
| `Comate.CheckPrice` | grid_trading_comate.py:72-90 | a failed fetch alerts nothing; otherwise at most one buy alert, for the first buy price at or above the price, and at most one sell alert, for the first sell price at or below it |
| `Comate.BuyAlertIsNearestAbove` | grid_trading_comate.py:79-83 | on a rising ladder the buy alert names the lowest buy price at or above the current price |
| `Comate.SellAlertIsAlwaysTheLowest` | grid_trading_comate.py:86-90 | on a rising ladder a sell alert always names the lowest sell price, however far the price has risen |
| `ChatGpt.CalculateGridParameters` | grid_trading_chatgpt.py:42-47 | the spacing is half an ATR and the band ten ATRs, hence twenty spacings |
| `ChatGpt.PairsAreSymmetric` | grid_trading_chatgpt.py:77-84 | the k-th buy and the k-th sell lie symmetrically about the current price |
| `ChatGpt.LaddersMove` | grid_trading_chatgpt.py:77-84 | with a positive spacing the buys strictly climb and the sells strictly fall, one spacing per round |
| `ChatGpt.BuysBelowSellsAbove` | grid_trading_chatgpt.py:77-84 | with the configured factor and count and a positive ATR, every buy is below the price and every sell above it |
| `ChatGpt.GridTrading` | grid_trading_chatgpt.py:75-85 | exactly `grid_count` rounds of a buy then a sell order of `order_amount`, the k-th at `cp - range/2 + k*spacing` and `cp + range/2 - k*spacing` |

## Left out

- HTTP fetches of prices, klines and market charts are left out as I/O. They become parameters: an optional price per tick, a bar sequence, an optional history.
- SMTP e-mail, `load_dotenv`, credentials and `argparse` are left out as I/O. A signal, alert or order value stands for each message sent.
- `print`, `display_plan` and the explanation template are left out as output only.
- `time.sleep` and the endless `while True` loops are left out as timing. Each loop is a `Run` function over a finite sequence of ticks, and its body is one method.
- The `ccxt` exchange object and its order calls are left out as foreign calls. The model keeps the log of order requests.
- pandas_ta's ATR, with its smoothing, is left out as a library call. The latest ATR (or the mean of the ATR column) is an input.
- DataFrame construction and sorting are left out as library calls.
- `np.std` of the returns and `scipy.stats.norm.ppf` are left out as floating-point library calls. The volatility and the z-score are inputs.
- The `f"{level:.2f}"` key is abstracted as a key function of the level, because formatting is not modelled.
- Prices are exact reals, so binary floating-point rounding is not modelled. Comate's repeated `price += 380` is exact for the configured integers anyway.
- NaN values are not modelled: a NaN ATR, which is truthy in Trae, and the mean of an empty window. Inputs that would produce one are excluded or made `None`.
- `Lingma.AtrUpdate`: requires a non-zero latest closing price when enough high/low data exists. With a zero price, numpy divides to infinity instead of raising; the model leaves that case out. The same requirement (`MarketOk`) carries through `Lingma.AutoUpdate`, `Lingma.GenerateGridState`, `Lingma.Step`, `Lingma.GridTrader.CheckPrice` and their callers.
- `Lingma.AutoUpdate`: the fetch of high/low data is an input, because the call cannot be seen here. As written, `fetch_high_low_data` reads a third element of coingecko's `[time, price]` pairs, which raises and yields `None`, so the ATR algorithm never changes the parameters in practice.
- `PlannerEth.GenerateGridPlan`: requires that no grid level can be zero (`min >= 0` or `max <= 0`). A zero buy level would raise a division by zero in the source; `PlannerEth.GridPlan` and the plan lemmas carry the same requirement.
- `PlannerEth.CalculateAtr` has no contract of its own: the ATR is an input.
- Trae's `SuggestParameters` requires a non-zero price when the ATR is truthy, because the source divides by it there and the error is not caught.
- `Trae.GenerateGrid`: requires that the count is not -1 when the band is proper (`max > min`). There the source divides by `num_grids + 1 == 0` and the `ZeroDivisionError` is not caught. `Trae.GridMonitor.constructor` carries the same requirement. `Trae.SuggestParameters` gives -1 only for a negative price, and never for a positive price and ATR.
- `Comate.BuildLadders` requires a positive density, without which the source loop never ends. The configured density is 380.
- Comate's price fetch raises an uncaught `KeyError` on a malformed response. That is left out as I/O; a failed fetch is `None`.
- Exceptions raised by ChatGpt's order calls would end its loop early. They are left out as foreign-call behaviour.

## Notes on the scripts as written

The behaviour below follows the code.

- **Recovery after a failed fetch (Gemini).** The script resets `last_price`
  to `None` (grid_trading_gemini.py:332-334), and does not keep the previous
  price. So the first tick after a recovery never signals
  (`Gemini.NoSignalOnRecovery`).
- **The single-grid floor and fees (Gemini).** It does not follow that a
  target above twice the fee still covers the fees per grid. With the floor of
  one grid (grid_trading_gemini.py:155), the single grid can earn less than
  the target: `Gemini.SingleGridMayMissTarget` gives 0.1% against a target of
  0.4% and a fee of 0.1%. The script only prints a warning.
- **Short history (Gemini and the ETH planner).** The Gemini script returns no
  historical range when the history is shorter than its lookback. The ETH
  planner clamps the window to the bars it has.
- **True range (Lingma).** Lingma's true range takes the moves of the high and
  of the low against the previous bar, not against the previous close
  (grid_trading_lingma.py:127-131).
- **Level-triggered signals (Lingma and Trae).** Lingma and Trae signal when
  the price is at or beyond a level (`<=` for buys, `>=` for sells). They do so
  without a previous price, so they do not detect crossings.
- **Shared flags (Trae).** Trae's flag `i` belongs to both `buy_levels[i]` and
  `sell_levels[i]`, and these are different levels. A buy alert can therefore
  silence a reached sell level (`Trae.SharedFlagExample`).
- **ATR column name (Trae).** Trae reads the column `ATR_14`
  (grid_trading_trae.py:87). pandas_ta names its ATR column `ATRr_14`, which is
  the name the Gemini script (grid_trading_gemini.py:117) and the ETH planner
  (grid_planner_ETH.py:79) use. As written, the lookup raises, `calculate_atr`
  returns `None`, and the ATR branch of `suggest_parameters` never runs. This
  is read from the code, not observed. The model keeps the
  ATR as an input, so it covers both branches.
- **Sell alert (Comate).** Comate's sell alert always names the lowest sell
  price, whatever the current price (`Comate.SellAlertIsAlwaysTheLowest`).
- **Range containment (Lingma).** On regeneration, Lingma always centres the
  new grid on the triggering price, and it clears every flag. The new grid
  therefore contains that price (`Lingma.GridShape`,
  `Lingma.RegenerationTickIsSilent`).
