/** grid_trading_gemini.py: suggest a price range from the bar history (ATR
    preferred, the historical High/Low window as fallback), suggest a grid count
    from a target profit per grid, lay out the monitoring levels, and watch the
    price tick by tick for crossings of those levels. */
module Gemini {
  import opened GridCommon

  const HistoricalLookback: nat := 30
  const AtrPeriod: nat := 14
  const AtrFactor: real := 2.0
  const TargetProfitPerGridPct: real := 0.8
  const FeePct: real := 0.1

  datatype Range = Range(minPrice: real, maxPrice: real)

  datatype Estimator = Atr | Historical

  datatype Selection = Selection(estimator: Estimator, range: Range)

  /** `suggest_params_historical`: the lowest Low and highest High of the last
      `lookback` bars, or nothing when fewer bars exist. */
  function SuggestParamsHistorical(bars: seq<Bar>, lookback: nat): (r: Option<Range>)
    requires lookback > 0 || |bars| > 0
    ensures r.None? <==> |bars| < lookback
    ensures r.Some? ==>
      var start := WindowStart(|bars|, lookback);
      && (forall i :: start <= i < |bars| ==> r.value.minPrice <= bars[i].low && bars[i].high <= r.value.maxPrice)
      && (exists i :: start <= i < |bars| && r.value.minPrice == bars[i].low)
      && (exists i :: start <= i < |bars| && r.value.maxPrice == bars[i].high)
  {
    if |bars| < lookback then None
    else
      var recent := TakeLast(bars, lookback);
      SuffixExtremes(bars, WindowStart(|bars|, lookback));
      Some(Range(MinLow(recent), MaxHigh(recent)))
  }

  /** `suggest_params_atr`, given the latest ATR that pandas_ta produced (None when
      its column is missing or NaN): a range symmetric about the latest close,
      `factor * atr` wide on each side; nothing with fewer than `period + 1` bars. */
  function SuggestParamsAtr(bars: seq<Bar>, period: nat, factor: real, latestAtr: Option<real>): (r: Option<Range>)
    ensures r.Some? <==> |bars| >= period + 1 && latestAtr.Some?
    ensures r.Some? ==>
      && r.value.minPrice + r.value.maxPrice == 2.0 * bars[|bars| - 1].close
      && r.value.maxPrice - r.value.minPrice == 2.0 * factor * latestAtr.value
  {
    if |bars| < period + 1 then None
    else
      match latestAtr
      case None => None
      case Some(atr) =>
        var close := bars[|bars| - 1].close;
        Some(Range(close - factor * atr, close + factor * atr))
  }

  /** `suggest_num_grids`: nothing for a missing or empty range, a non-positive
      target or a non-positive approximate step; otherwise a count of at least one
      that fits the approximate step `min * target / 100` into the range. The
      fee only feeds a printed warning. */
  function SuggestNumGrids(minPrice: Option<real>, maxPrice: Option<real>, targetProfitPct: real, feePct: real): (r: Option<int>)
    ensures r.Some? <==>
      && minPrice.Some? && maxPrice.Some? && minPrice.value < maxPrice.value
      && targetProfitPct > 0.0 && minPrice.value * (targetProfitPct / 100.0) > 0.0
    ensures r.Some? ==>
      r.value >= 1 &&
      CountFitsStep(maxPrice.value - minPrice.value, minPrice.value * (targetProfitPct / 100.0), r.value)
  {
    if minPrice.None? || maxPrice.None? || minPrice.value >= maxPrice.value then None
    else if targetProfitPct <= 0.0 then None
    else
      var step := minPrice.value * (targetProfitPct / 100.0);
      if step <= 0.0 then None
      else
        var range := maxPrice.value - minPrice.value;
        var n := Trunc(range / step) - 1;
        SuggestedCountFits(range, step);
        Some(if n < 1 then 1 else n)
  }

  /** Whenever the suggested count is above one, the realised step
      `(max - min) / (n + 1)` earns at least the target profit percentage. */
  lemma ActualStepMeetsTarget(minPrice: real, maxPrice: real, targetProfitPct: real, feePct: real)
    requires SuggestNumGrids(Some(minPrice), Some(maxPrice), targetProfitPct, feePct).Some?
    requires SuggestNumGrids(Some(minPrice), Some(maxPrice), targetProfitPct, feePct).value > 1
    ensures var n := SuggestNumGrids(Some(minPrice), Some(maxPrice), targetProfitPct, feePct).value;
      ((maxPrice - minPrice) / ((n + 1) as real)) / minPrice * 100.0 >= targetProfitPct
  {
    var n := SuggestNumGrids(Some(minPrice), Some(maxPrice), targetProfitPct, feePct).value;
    var step := minPrice * (targetProfitPct / 100.0);
    var actual := (maxPrice - minPrice) / ((n + 1) as real);
    assert ((n + 1) as real) * step <= maxPrice - minPrice;
    DivMono(((n + 1) as real) * step, maxPrice - minPrice, (n + 1) as real);
    assert ((n + 1) as real) * step / ((n + 1) as real) == step;
    assert actual >= step;
    assert actual / minPrice >= targetProfitPct / 100.0 by {
      assert minPrice > 0.0;
      assert step / minPrice == targetProfitPct / 100.0;
      DivMono(step, actual, minPrice);
    }
  }

  lemma DivMono(a: real, b: real, c: real)
    requires a <= b && c > 0.0
    ensures a / c <= b / c
  {
    assert b / c - a / c == (b - a) / c;
  }

  /** The floor of one grid does not keep that promise: with a range of half a
      target step the single grid earns a quarter of the target. */
  lemma SingleGridMayMissTarget()
    ensures SuggestNumGrids(Some(100.0), Some(100.2), 0.4, 0.1) == Some(1)
    ensures ((100.2 - 100.0) / 2.0) / 100.0 * 100.0 < 0.4
  {
    assert (100.2 - 100.0) / (100.0 * (0.4 / 100.0)) == 0.5;
  }

  /** `calculate_monitoring_grid_levels`: no levels for a non-positive count or an
      empty range; otherwise `numGrids` levels rising in equal steps of
      `(max - min) / (numGrids + 1)`, all strictly inside the range. */
  function CalculateMonitoringGridLevels(minPrice: real, maxPrice: real, numGrids: int): (r: seq<real>)
    ensures numGrids <= 0 || minPrice >= maxPrice ==> r == []
    ensures numGrids > 0 && minPrice < maxPrice ==>
      var step := (maxPrice - minPrice) / ((numGrids + 1) as real);
      && |r| == numGrids
      && StrictlyIncreasing(r)
      && (forall i :: 0 <= i < |r| ==> minPrice < r[i] < maxPrice)
      && r[0] - minPrice == step
      && maxPrice - r[|r| - 1] == step
      && (forall i :: 0 <= i < |r| - 1 ==> r[i + 1] - r[i] == step)
  {
    if numGrids <= 0 then []
    else if minPrice >= maxPrice then []
    else
      var step := (maxPrice - minPrice) / ((numGrids + 1) as real);
      LadderRises(minPrice, step, numGrids);
      assert ((numGrids + 1) as real) * step == maxPrice - minPrice;
      Ladder(minPrice, step, numGrids)
  }

  /** The `if/elif` at lines 230-238: the ATR range when ATR is preferred and
      available, else the historical range when available, else nothing. */
  function SelectRange(preferred: Estimator, atrRange: Option<Range>, historicalRange: Option<Range>): (r: Option<Selection>)
    ensures preferred == Atr && atrRange.Some? ==> r == Some(Selection(Atr, atrRange.value))
    ensures !(preferred == Atr && atrRange.Some?) && historicalRange.Some? ==> r == Some(Selection(Historical, historicalRange.value))
    ensures r.None? <==> !(preferred == Atr && atrRange.Some?) && historicalRange.None?
  {
    if preferred == Atr && atrRange.Some? then Some(Selection(Atr, atrRange.value))
    else if historicalRange.Some? then Some(Selection(Historical, historicalRange.value))
    else None
  }

  datatype MonitoringSetup = MonitoringSetup(estimator: Estimator, range: Range, numGrids: int, levels: seq<real>)

  /** Phase 1 of `__main__` with the configured constants, from the fetched bars
      (None when the fetch failed) and pandas_ta's latest ATR; None wherever the
      script calls `exit()`. A selected range with `0 < min < max` always yields a
      non-empty grid, so the empty-levels exit is never taken. */
  function Setup(history: Option<seq<Bar>>, latestAtr: Option<real>): (r: Option<MonitoringSetup>)
    ensures history.None? ==> r.None?
    ensures history.Some? ==>
      var sel := SelectRange(Atr, SuggestParamsAtr(history.value, AtrPeriod, AtrFactor, latestAtr),
                             SuggestParamsHistorical(history.value, HistoricalLookback));
      (r.Some? <==> sel.Some? && 0.0 < sel.value.range.minPrice < sel.value.range.maxPrice)
      && (r.Some? ==> r.value.estimator == sel.value.estimator && r.value.range == sel.value.range)
    ensures r.Some? ==>
      && r.value.numGrids >= 1
      && |r.value.levels| == r.value.numGrids
      && StrictlyIncreasing(r.value.levels)
      && forall i :: 0 <= i < |r.value.levels| ==> r.value.range.minPrice < r.value.levels[i] < r.value.range.maxPrice
  {
    match history
    case None => None
    case Some(bars) =>
      var hist := SuggestParamsHistorical(bars, HistoricalLookback);
      var atr := SuggestParamsAtr(bars, AtrPeriod, AtrFactor, latestAtr);
      match SelectRange(Atr, atr, hist)
      case None => None
      case Some(sel) =>
        match SuggestNumGrids(Some(sel.range.minPrice), Some(sel.range.maxPrice), TargetProfitPerGridPct, FeePct)
        case None => None
        case Some(n) =>
          var levels := CalculateMonitoringGridLevels(sel.range.minPrice, sel.range.maxPrice, n);
          if levels == [] then None
          else Some(MonitoringSetup(sel.estimator, sel.range, n, levels))
  }

  // ---------------------------------------------------------------------------
  // The monitoring loop (lines 292-338), one tick at a time.

  /** Line 304: the price fell from above the level to at or below it. */
  predicate CrossedDown(last: real, level: real, current: real) { last > level >= current }

  /** Line 317: the price rose from below the level to at or above it. */
  predicate CrossedUp(last: real, level: real, current: real) { last < level <= current }

  datatype ScanResult = ScanResult(triggered: set<int>, signals: seq<Signal>)

  /** The `for level in monitoring_grid_levels` loop after its first `n` levels;
      `key` stands for the `f"{level:.2f}"` formatting, so levels that format alike
      share one flag. */
  function Scan(levels: seq<real>, key: real -> int, last: real, current: real, triggered: set<int>, n: nat): ScanResult
    requires n <= |levels|
  {
    if n == 0 then ScanResult(triggered, [])
    else
      var prev := Scan(levels, key, last, current, triggered, n - 1);
      var level := levels[n - 1];
      if CrossedDown(last, level, current) && key(level) !in prev.triggered then
        ScanResult(prev.triggered + {key(level)}, prev.signals + [Signal(Buy, level, current)])
      else if CrossedUp(last, level, current) && key(level) !in prev.triggered then
        ScanResult(prev.triggered + {key(level)}, prev.signals + [Signal(Sell, level, current)])
      else prev
  }

  /** Keys that the scan of the first `n` levels marks: those of crossed levels. */
  ghost function CrossedKeys(levels: seq<real>, key: real -> int, last: real, current: real, n: nat): set<int>
    requires n <= |levels|
  {
    set i | 0 <= i < n && (CrossedDown(last, levels[i], current) || CrossedUp(last, levels[i], current)) :: key(levels[i])
  }

  /** The keys of the levels a batch of signals is for. */
  ghost function SignalKeys(signals: seq<Signal>, key: real -> int): set<int>
  {
    set j | 0 <= j < |signals| :: key(signals[j].level)
  }

  lemma SignalKeysConcat(a: seq<Signal>, b: seq<Signal>, key: real -> int)
    ensures SignalKeys(a + b, key) == SignalKeys(a, key) + SignalKeys(b, key)
  {
    var all := a + b;
    forall k | k in SignalKeys(all, key) ensures k in SignalKeys(a, key) + SignalKeys(b, key) {
      var j :| 0 <= j < |all| && key(all[j].level) == k;
      if j < |a| { assert all[j] == a[j]; } else { assert all[j] == b[j - |a|]; }
    }
    forall k | k in SignalKeys(a, key) + SignalKeys(b, key) ensures k in SignalKeys(all, key) {
      if k in SignalKeys(a, key) {
        var j :| 0 <= j < |a| && key(a[j].level) == k;
        assert all[j] == a[j];
      } else {
        var j :| 0 <= j < |b| && key(b[j].level) == k;
        assert all[|a| + j] == b[j];
      }
    }
  }

  /** What one scan does: it adds exactly the keys of the crossed levels to the
      triggered set; every signal is for a crossed level in the right direction,
      at the current price, with a key that was not triggered before the scan;
      no two signals share a key; and every crossed level whose key was not
      triggered before the scan is signalled. */
  lemma {:induction false} ScanFacts(levels: seq<real>, key: real -> int, last: real, current: real, triggered: set<int>, n: nat)
    requires n <= |levels|
    ensures var r := Scan(levels, key, last, current, triggered, n);
      && r.triggered == triggered + CrossedKeys(levels, key, last, current, n)
      && (forall j :: 0 <= j < |r.signals| ==>
            && key(r.signals[j].level) !in triggered
            && key(r.signals[j].level) in r.triggered
            && r.signals[j].price == current
            && (exists i :: 0 <= i < n && levels[i] == r.signals[j].level)
            && (r.signals[j].side == Buy ==> CrossedDown(last, r.signals[j].level, current))
            && (r.signals[j].side == Sell ==> CrossedUp(last, r.signals[j].level, current)))
      && (forall j, j' :: 0 <= j < j' < |r.signals| ==> key(r.signals[j].level) != key(r.signals[j'].level))
      && SignalKeys(r.signals, key) == CrossedKeys(levels, key, last, current, n) - triggered
  {
    if n > 0 {
      ScanFacts(levels, key, last, current, triggered, n - 1);
      var prev := Scan(levels, key, last, current, triggered, n - 1);
      var level := levels[n - 1];
      var crossed := CrossedDown(last, level, current) || CrossedUp(last, level, current);
      assert CrossedKeys(levels, key, last, current, n) ==
        CrossedKeys(levels, key, last, current, n - 1) + (if crossed then {key(level)} else {});
      if crossed && key(level) !in prev.triggered {
        var sg := if CrossedDown(last, level, current) then Signal(Buy, level, current) else Signal(Sell, level, current);
        assert SignalKeys([sg], key) == {key(level)} by { assert [sg][0] == sg; }
        SignalKeysConcat(prev.signals, [sg], key);
      }
    }
  }

  /** What the loop keeps between ticks. */
  datatype MonitorState = MonitorState(lastPrice: Option<real>, triggered: set<int>)

  datatype StepResult = StepResult(state: MonitorState, signals: seq<Signal>)

  /** One pass of `while True`, given the fetched price (None when the fetch
      failed): a failed fetch forgets the last price and keeps the flags; a
      successful one scans the levels only when a last price exists, and always
      records the new price. */
  function Step(levels: seq<real>, key: real -> int, s: MonitorState, sample: Option<real>): (r: StepResult)
    ensures sample.None? ==> r.state == MonitorState(None, s.triggered) && r.signals == []
    ensures sample.Some? ==> r.state.lastPrice == sample
    ensures s.lastPrice.None? ==> r.signals == [] && r.state.triggered == s.triggered
    ensures s.triggered <= r.state.triggered
    ensures sample.Some? && s.lastPrice.Some? ==>
      r.state.triggered == s.triggered + CrossedKeys(levels, key, s.lastPrice.value, sample.value, |levels|)
    ensures SignalKeys(r.signals, key) == r.state.triggered - s.triggered
  {
    match sample
    case None => StepResult(MonitorState(None, s.triggered), [])
    case Some(current) =>
      match s.lastPrice
      case None => StepResult(MonitorState(Some(current), s.triggered), [])
      case Some(last) =>
        ScanFacts(levels, key, last, current, s.triggered, |levels|);
        var scan := Scan(levels, key, last, current, s.triggered, |levels|);
        StepResult(MonitorState(Some(current), scan.triggered), scan.signals)
  }

  /** After a failed fetch, the tick that recovers cannot signal anything. */
  lemma NoSignalOnRecovery(levels: seq<real>, key: real -> int, s: MonitorState, sample: Option<real>)
    ensures Step(levels, key, Step(levels, key, s, None).state, sample).signals == []
  {
  }

  /** The loop run over a sequence of fetched prices: the final state and every
      signal in order. */
  function Run(levels: seq<real>, key: real -> int, s: MonitorState, samples: seq<Option<real>>): StepResult
    decreases |samples|
  {
    if samples == [] then StepResult(s, [])
    else
      var first := Step(levels, key, s, samples[0]);
      var rest := Run(levels, key, first.state, samples[1..]);
      StepResult(rest.state, first.signals + rest.signals)
  }

  /** Over any run, a level key signals at most once: no two signals share a
      key, none had its key triggered at the start, and every one is triggered
      at the end; conversely every key triggered during the run was signalled. */
  lemma {:induction false} RunSignalsEachKeyAtMostOnce(levels: seq<real>, key: real -> int, s: MonitorState, samples: seq<Option<real>>)
    ensures var r := Run(levels, key, s, samples);
      && s.triggered <= r.state.triggered
      && (forall j :: 0 <= j < |r.signals| ==> key(r.signals[j].level) !in s.triggered && key(r.signals[j].level) in r.state.triggered)
      && (forall j, j' :: 0 <= j < j' < |r.signals| ==> key(r.signals[j].level) != key(r.signals[j'].level))
      && SignalKeys(r.signals, key) == r.state.triggered - s.triggered
    decreases |samples|
  {
    if samples != [] {
      var first := Step(levels, key, s, samples[0]);
      var rest := Run(levels, key, first.state, samples[1..]);
      RunSignalsEachKeyAtMostOnce(levels, key, first.state, samples[1..]);
      SignalKeysConcat(first.signals, rest.signals, key);
      match samples[0]
      case None =>
      case Some(current) =>
        match s.lastPrice
        case None =>
        case Some(last) =>
          ScanFacts(levels, key, last, current, s.triggered, |levels|);
      var all := first.signals + rest.signals;
      assert forall j :: 0 <= j < |first.signals| ==> all[j] == first.signals[j];
      assert forall j :: |first.signals| <= j < |all| ==> all[j] == rest.signals[j - |first.signals|];
    }
  }

  /** Formatting a level to cents, the key of line 301 for these examples. */
  function Cents(x: real): int { (x * 100.0).Floor }

  /** Levels 95, 100, 105 with a fall from 97 to 94: exactly one BUY, at 95. */
  lemma FallThroughOneLevel()
    ensures Step([95.0, 100.0, 105.0], Cents, MonitorState(Some(97.0), {}), Some(94.0)).signals
            == [Signal(Buy, 95.0, 94.0)]
  {
    var levels := [95.0, 100.0, 105.0];
    assert Scan(levels, Cents, 97.0, 94.0, {}, 1) == ScanResult({9500}, [Signal(Buy, 95.0, 94.0)]);
    assert Scan(levels, Cents, 97.0, 94.0, {}, 2) == Scan(levels, Cents, 97.0, 94.0, {}, 1);
  }

  /** Levels 95, 100, 105 with a rise from 103 to 106: exactly one SELL, at 105. */
  lemma RiseThroughOneLevel()
    ensures Step([95.0, 100.0, 105.0], Cents, MonitorState(Some(103.0), {}), Some(106.0)).signals
            == [Signal(Sell, 105.0, 106.0)]
  {
    var levels := [95.0, 100.0, 105.0];
    assert Scan(levels, Cents, 103.0, 106.0, {}, 2) == ScanResult({}, []);
  }

  /** The monitoring loop's state as an object: the module-level `last_price`
      and `triggered_levels` become fields; the levels are fixed at start-up. */
  class CrossingMonitor {
    const levels: seq<real>
    const key: real -> int
    var lastPrice: Option<real>
    var triggeredLevels: set<int>

    constructor (levels: seq<real>, key: real -> int)
      ensures this.levels == levels && this.key == key
      ensures lastPrice == None && triggeredLevels == {}
    {
      this.levels := levels;
      this.key := key;
      lastPrice := None;
      triggeredLevels := {};
    }

    function State(): MonitorState
      reads this
    {
      MonitorState(lastPrice, triggeredLevels)
    }

    /** One pass of the loop body with the fetched price; returns the
        notifications it sends. */
    method Tick(sample: Option<real>) returns (signals: seq<Signal>)
      modifies this
      ensures StepResult(State(), signals) == Step(levels, key, old(State()), sample)
    {
      signals := [];
      if sample.Some? {
        var current := sample.value;
        if lastPrice.Some? {
          var last := lastPrice.value;
          var i := 0;
          while i < |levels|
            invariant 0 <= i <= |levels|
            invariant lastPrice == old(lastPrice)
            invariant ScanResult(triggeredLevels, signals) == Scan(levels, key, last, current, old(triggeredLevels), i)
          {
            var level := levels[i];
            var levelKey := key(level);
            if last > level >= current && levelKey !in triggeredLevels {
              signals := signals + [Signal(Buy, level, current)];
              triggeredLevels := triggeredLevels + {levelKey};
            } else if last < level <= current && levelKey !in triggeredLevels {
              signals := signals + [Signal(Sell, level, current)];
              triggeredLevels := triggeredLevels + {levelKey};
            }
            i := i + 1;
          }
        }
        lastPrice := Some(current);
      } else {
        if lastPrice.Some? {
          lastPrice := None;
        }
      }
    }
  }
}
