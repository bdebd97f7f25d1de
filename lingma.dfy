/** grid_trading_lingma.py: `BitcoinGridTrader`, a level-triggered grid around
    a base price. It rebuilds its grid (after re-tuning range and density with
    one of three algorithms) whenever the price has no reference or leaves the
    grid, and signals every untriggered level the price has reached. */
module Lingma {
  import opened GridCommon

  const InitialRange: real := 0.1
  const InitialDensity: int := 10
  const HistoryWindow: nat := 30

  /** `algorithm_type`; any other string selects no update. */
  datatype Algorithm = Volatility | AtrAlgorithm | Regime | Unrecognised

  datatype HighLow = HighLow(high: real, low: real)

  /** What the fetches of one regeneration deliver: the closing prices (None
      when the request failed), the standard deviation of their returns and the
      normal quantile (the numpy and scipy results), and the high/low pairs. */
  datatype MarketData = MarketData(history: Option<seq<real>>, volatility: real, zScore: real, highLow: Option<seq<HighLow>>)

  datatype Params = Params(baseRange: real, baseDensity: int)

  /** A density kept by every update: the clips bound it to [5, 25]. */
  predicate DensityInBounds(p: Params)
  {
    5 <= p.baseDensity <= 25
  }

  // ---------------------------------------------------------------------------
  // Parameter updates (lines 91-152)

  /** `update_by_volatility` with the volatility and z-score as inputs: the
      range becomes `z * volatility`. With a zero volatility `10 / 0.0` is inf,
      `int(inf)` raises, and `auto_update_parameters` catches it after the range
      was assigned, so the density is kept; otherwise the density is clipped to
      [5, 20]. */
  function VolatilityUpdate(p: Params, volatility: real, zScore: real): (r: Params)
    ensures r.baseRange == zScore * volatility
    ensures volatility == 0.0 ==> r.baseDensity == p.baseDensity
    ensures volatility != 0.0 ==> 5 <= r.baseDensity <= 20
    ensures volatility != 0.0 && 5 <= Trunc(10.0 / (volatility * 100.0)) <= 20 ==> r.baseDensity == Trunc(10.0 / (volatility * 100.0))
  {
    var baseRange := zScore * volatility;
    if volatility == 0.0 then Params(baseRange, p.baseDensity)
    else Params(baseRange, ClipInt(Trunc(10.0 / (volatility * 100.0)), 5, 20))
  }

  /** A 1% volatility at the 95% quantile 1.96 gives a 1.96% range of 10 levels;
      a 0.1% volatility would ask for 100 levels and is clipped to 20. */
  lemma VolatilityExamples()
    ensures VolatilityUpdate(Params(InitialRange, InitialDensity), 0.01, 1.96) == Params(0.0196, 10)
    ensures VolatilityUpdate(Params(InitialRange, InitialDensity), 0.001, 1.96).baseDensity == 20
  {
    assert 10.0 / (0.01 * 100.0) == 10.0;
    assert 10.0 / (0.001 * 100.0) == 100.0;
  }

  /** True range of bar `i`: the bar's span for the first bar, otherwise the
      largest of the span and the moves of the high and of the low. */
  function TrueRangeAt(highLow: seq<HighLow>, i: nat): (r: real)
    requires i < |highLow|
    ensures i == 0 ==> r == highLow[0].high - highLow[0].low
    ensures i > 0 ==>
      var b := highLow[i];
      var prev := highLow[i - 1];
      && r >= b.high - b.low && r >= Abs(b.high - prev.high) && r >= Abs(b.low - prev.low)
      && (r == b.high - b.low || r == Abs(b.high - prev.high) || r == Abs(b.low - prev.low))
      && r >= 0.0
  {
    if i == 0 then highLow[0].high - highLow[0].low
    else Max(Max(highLow[i].high - highLow[i].low, Abs(highLow[i].high - highLow[i - 1].high)), Abs(highLow[i].low - highLow[i - 1].low))
  }

  /** The `tr` list of lines 125-131, one true range per bar. */
  function TrueRangeSeq(highLow: seq<HighLow>): (r: seq<real>)
    ensures |r| == |highLow|
    ensures forall i :: 0 <= i < |r| ==> r[i] == TrueRangeAt(highLow, i)
  {
    seq(|highLow|, i requires 0 <= i < |highLow| => TrueRangeAt(highLow, i))
  }

  /** Lines 125-131: the true ranges, built by appending one per bar. */
  method TrueRanges(highLow: seq<HighLow>) returns (tr: seq<real>)
    requires |highLow| > 0
    ensures tr == TrueRangeSeq(highLow)
  {
    tr := [highLow[0].high - highLow[0].low];
    var i := 1;
    while i < |highLow|
      invariant 1 <= i <= |highLow|
      invariant tr == TrueRangeSeq(highLow[..i])
    {
      var b := highLow[i];
      var prev := highLow[i - 1];
      var span := b.high - b.low;
      var highMove := Abs(b.high - prev.high);
      var lowMove := Abs(b.low - prev.low);
      tr := tr + [Max(Max(span, highMove), lowMove)];
      i := i + 1;
      assert forall k :: 0 <= k < i ==> TrueRangeAt(highLow[..i], k) == TrueRangeAt(highLow, k);
    }
    assert highLow[..i] == highLow;
  }

  /** What the ATR update needs of its inputs: the latest closing price it
      divides by is non-zero whenever enough high/low data exists. */
  predicate AtrInputsOk(prices: seq<real>, highLow: Option<seq<HighLow>>)
  {
    |prices| > 0 && (highLow.Some? && |highLow.value| >= 14 ==> prices[|prices| - 1] != 0.0)
  }

  /** The ATR of lines 125-132: the mean of the last 14 true ranges. */
  function LatestAtr(highLow: seq<HighLow>): real
    requires |highLow| >= 14
  {
    Mean(TakeLast(TrueRangeSeq(highLow), 14))
  }

  /** The range fraction of a 3-ATR band around the latest price. */
  function AtrRangeFraction(atr: real, latestPrice: real): (r: real)
    requires latestPrice != 0.0
    ensures r * latestPrice == 3.0 * atr
  {
    3.0 * atr / latestPrice
  }

  /** The density quotient `3 * atr / (0.5 * atr)` of a non-zero ATR is 6. */
  function AtrDensityQuotient(atr: real): (r: real)
    requires atr != 0.0
    ensures r == 6.0
  {
    (3.0 * atr) / (0.5 * atr)
  }

  /** Lines 133-136 for a computed ATR: the range becomes `3 * atr / latest
      price`, and the density `clip(int(3 * atr / (0.5 * atr)), 8, 25)`, which is
      8. A zero ATR makes that quotient NaN, `int` raises after the range was
      assigned, and the density is kept. */
  function AtrParams(p: Params, atr: real, latestPrice: real): (r: Params)
    requires latestPrice != 0.0
    ensures r.baseRange * latestPrice == 3.0 * atr
    ensures r.baseDensity == (if atr == 0.0 then p.baseDensity else 8)
  {
    var baseRange := AtrRangeFraction(atr, latestPrice);
    if atr == 0.0 then Params(baseRange, p.baseDensity)
    else Params(baseRange, ClipInt(Trunc(AtrDensityQuotient(atr)), 8, 25))
  }

  /** `update_by_atr`: with fewer than 14 high/low pairs nothing changes;
      otherwise the parameters follow from the 14-bar ATR and the latest
      closing price. */
  function AtrUpdate(p: Params, prices: seq<real>, highLow: Option<seq<HighLow>>): (r: Params)
    requires AtrInputsOk(prices, highLow)
    ensures highLow.None? || |highLow.value| < 14 ==> r == p
    ensures highLow.Some? && |highLow.value| >= 14 ==>
      r == AtrParams(p, LatestAtr(highLow.value), prices[|prices| - 1])
  {
    if highLow.None? || |highLow.value| < 14 then p
    else AtrParams(p, LatestAtr(highLow.value), prices[|prices| - 1])
  }

  /** Line 142 under numpy semantics: `|ma7 - ma30| / ma30 > 0.05`, where a zero
      `ma30` gives inf (trending) unless `ma7` is zero too, which gives NaN (not
      trending). A negative `ma30` gives a negative ratio. */
  predicate Trending(maShort: real, maLong: real)
  {
    if maLong == 0.0 then maShort != 0.0
    else Abs(maShort - maLong) / maLong > 0.05
  }

  /** `update_by_regime`: a trending market narrows the grid (range times 0.6,
      density `int(density * 0.7)`), a ranging one widens it (1.3 and 1.4); the
      density is then clipped to [8, 25] and the range to [0.05, 0.3]. */
  function RegimeUpdate(p: Params, prices: seq<real>): (r: Params)
    requires |prices| > 0
    ensures 8 <= r.baseDensity <= 25 && 0.05 <= r.baseRange <= 0.3
    ensures var trending := Trending(Mean(TakeLast(prices, 7)), Mean(TakeLast(prices, 30)));
      && (trending && 0.0 <= p.baseRange ==> r.baseRange <= Max(0.05, p.baseRange))
      && (trending && 0 <= p.baseDensity ==> r.baseDensity <= (if p.baseDensity < 8 then 8 else p.baseDensity))
      && (!trending && 0.0 <= p.baseRange ==> r.baseRange >= (if p.baseRange < 0.3 then p.baseRange else 0.3))
      && (!trending && 0 <= p.baseDensity ==> r.baseDensity >= (if p.baseDensity < 25 then p.baseDensity else 25))
  {
    var maShort := Mean(TakeLast(prices, 7));
    var maLong := Mean(TakeLast(prices, 30));
    var d := p.baseDensity as real;
    var baseRange := if Trending(maShort, maLong) then p.baseRange * 0.6 else p.baseRange * 1.3;
    var baseDensity := if Trending(maShort, maLong) then Trunc(d * 0.7) else Trunc(d * 1.4);
    Params(ClipReal(baseRange, 0.05, 0.3), ClipInt(baseDensity, 8, 25))
  }

  /** Thirty equal prices are a ranging market: from the initial parameters the
      range widens to 13% and the density to 14. */
  lemma RangingExample()
    ensures RegimeUpdate(Params(InitialRange, InitialDensity), Repeat(100.0, 30)) == Params(0.13, 14)
  {
    var prices := Repeat(100.0, 30);
    assert TakeLast(prices, 7) == Repeat(100.0, 7);
    SumRepeat(100.0, 7);
    SumRepeat(100.0, 30);
    assert !Trending(100.0, 100.0);
  }

  /** `auto_update_parameters`: nothing changes without at least 30 closing
      prices; otherwise the selected algorithm's update, with any exception it
      raises caught (see the updates above). */
  function AutoUpdate(algorithm: Algorithm, p: Params, m: MarketData): (r: Params)
    requires m.history.Some? && |m.history.value| >= HistoryWindow ==> AtrInputsOk(m.history.value, m.highLow)
    ensures m.history.None? || |m.history.value| < HistoryWindow ==> r == p
    ensures algorithm == Unrecognised ==> r == p
    ensures DensityInBounds(p) ==> DensityInBounds(r)
  {
    if m.history.None? || |m.history.value| < HistoryWindow then p
    else
      var historical := m.history.value;
      match algorithm
      case Volatility => VolatilityUpdate(p, m.volatility, m.zScore)
      case AtrAlgorithm => AtrUpdate(p, historical, m.highLow)
      case Regime => RegimeUpdate(p, historical)
      case Unrecognised => p
  }

  /** What every regeneration needs of its market data. */
  predicate MarketOk(m: MarketData)
  {
    m.history.Some? && |m.history.value| >= HistoryWindow ==> AtrInputsOk(m.history.value, m.highLow)
  }

  // ---------------------------------------------------------------------------
  // The grid (lines 61-88)

  /** What a trader holds between ticks. */
  datatype TraderState = TraderState(
    currentPrice: Option<real>,
    buyLevels: seq<real>,
    sellLevels: seq<real>,
    triggered: set<real>,
    params: Params)

  /** The step of a grid of the given parameters around `basePrice` (lines 67-68). */
  function GridStep(basePrice: real, p: Params): real
    requires p.baseDensity > 0
  {
    basePrice * p.baseRange / (p.baseDensity as real)
  }

  /** With a positive step the buy ladder falls from one step below the base to
      `base * (1 - range)`, and the sell ladder rises from one step above it to
      `base * (1 + range)`. */
  lemma GridShape(basePrice: real, p: Params)
    requires p.baseDensity > 0 && GridStep(basePrice, p) > 0.0
    ensures var step := GridStep(basePrice, p);
      var buy := Ladder(basePrice, -step, p.baseDensity);
      var sell := Ladder(basePrice, step, p.baseDensity);
      && StrictlyDecreasing(buy) && StrictlyIncreasing(sell)
      && (forall i :: 0 <= i < |buy| ==> buy[i] < basePrice < sell[i])
      && buy[|buy| - 1] == basePrice * (1.0 - p.baseRange)
      && sell[|sell| - 1] == basePrice * (1.0 + p.baseRange)
  {
    var step := GridStep(basePrice, p);
    var n := p.baseDensity;
    LadderRises(basePrice, step, n);
    LadderFalls(basePrice, -step, n);
    assert (n as real) * step == basePrice * p.baseRange;
  }

  /** `generate_grid`: re-tune the parameters, then lay `density` levels one step
      apart below the base for buying and above it for selling. */
  function GenerateGridState(algorithm: Algorithm, s: TraderState, basePrice: real, m: MarketData): (r: TraderState)
    requires DensityInBounds(s.params) && MarketOk(m)
    ensures r.params == AutoUpdate(algorithm, s.params, m) && DensityInBounds(r.params)
    ensures |r.buyLevels| == |r.sellLevels| == r.params.baseDensity
    ensures forall i :: 0 <= i < |r.buyLevels| ==>
      r.buyLevels[i] + r.sellLevels[i] == 2.0 * basePrice
    ensures r.currentPrice == s.currentPrice && r.triggered == s.triggered
  {
    var p := AutoUpdate(algorithm, s.params, m);
    var step := GridStep(basePrice, p);
    LadderMirror(basePrice, step, p.baseDensity);
    s.(buyLevels := Ladder(basePrice, -step, p.baseDensity), sellLevels := Ladder(basePrice, step, p.baseDensity), params := p)
  }

  /** `should_regenerate_grid`: with a falsy reference price always; otherwise
      when the price is below the lowest buy level or above the highest sell
      level, an empty list counting as 0. */
  function ShouldRegenerate(s: TraderState, newPrice: real): (r: bool)
    ensures !r <==>
      && s.currentPrice.Some? && s.currentPrice.value != 0.0
      && (if s.buyLevels == [] then 0.0 <= newPrice else exists i :: 0 <= i < |s.buyLevels| && s.buyLevels[i] <= newPrice)
      && (if s.sellLevels == [] then newPrice <= 0.0 else exists i :: 0 <= i < |s.sellLevels| && newPrice <= s.sellLevels[i])
  {
    if s.currentPrice.None? || s.currentPrice.value == 0.0 then true
    else
      var currentMin := if s.buyLevels != [] then MinOf(s.buyLevels) else 0.0;
      var currentMax := if s.sellLevels != [] then MaxOf(s.sellLevels) else 0.0;
      newPrice < currentMin || newPrice > currentMax
  }

  // ---------------------------------------------------------------------------
  // Signals (lines 184-205)

  /** Line 187 for BUY (`price <= level`) and line 191 for SELL (`price >= level`). */
  predicate Reached(side: Side, price: real, level: real)
  {
    match side
    case Buy => price <= level
    case Sell => price >= level
  }

  datatype ScanResult = ScanResult(triggered: set<real>, signals: seq<Signal>)

  /** One `for level in ...` loop of `check_trading_signals` after its first `n`
      levels, each reached untriggered level calling `trigger_signal`. */
  function ScanLevels(levels: seq<real>, side: Side, price: real, triggered: set<real>, n: nat): ScanResult
    requires n <= |levels|
  {
    if n == 0 then ScanResult(triggered, [])
    else
      var prev := ScanLevels(levels, side, price, triggered, n - 1);
      var level := levels[n - 1];
      if Reached(side, price, level) && level !in prev.triggered then
        ScanResult(prev.triggered + {level}, prev.signals + [Signal(side, level, price)])
      else prev
  }

  /** The levels among the first `n` that the price has reached. */
  ghost function ReachedLevels(levels: seq<real>, side: Side, price: real, n: nat): set<real>
    requires n <= |levels|
  {
    set i | 0 <= i < n && Reached(side, price, levels[i]) :: levels[i]
  }

  /** Every signal is for a level outside `before` and inside `after`. */
  ghost predicate NewlyTriggered(signals: seq<Signal>, before: set<real>, after: set<real>)
  {
    forall j :: 0 <= j < |signals| ==> signals[j].level !in before && signals[j].level in after
  }

  /** No two signals are for the same level. */
  ghost predicate DistinctLevels(signals: seq<Signal>)
  {
    forall j, j' :: 0 <= j < j' < |signals| ==> signals[j].level != signals[j'].level
  }

  /** Every level that joined the triggered set was signalled. */
  ghost predicate EveryNewLevelSignalled(signals: seq<Signal>, before: set<real>, after: set<real>)
  {
    forall l :: l in after && l !in before ==> exists j :: 0 <= j < |signals| && signals[j].level == l
  }

  /** Two batches of signals, the second against the set the first left:
      together they are still fresh, distinct and complete. */
  lemma ChainSignals(a: seq<Signal>, b: seq<Signal>, t0: set<real>, t1: set<real>, t2: set<real>)
    requires t0 <= t1 <= t2
    requires NewlyTriggered(a, t0, t1) && NewlyTriggered(b, t1, t2)
    requires DistinctLevels(a) && DistinctLevels(b)
    requires EveryNewLevelSignalled(a, t0, t1) && EveryNewLevelSignalled(b, t1, t2)
    ensures NewlyTriggered(a + b, t0, t2) && DistinctLevels(a + b) && EveryNewLevelSignalled(a + b, t0, t2)
  {
    var all := a + b;
    forall j | 0 <= j < |all| ensures all[j].level !in t0 && all[j].level in t2 {
      if j < |a| { assert all[j] == a[j]; } else { assert all[j] == b[j - |a|]; }
    }
    forall j, j' | 0 <= j < j' < |all| ensures all[j].level != all[j'].level {
      if j' < |a| {
        assert all[j] == a[j] && all[j'] == a[j'];
      } else if j < |a| {
        assert all[j] == a[j] && all[j'] == b[j' - |a|];
      } else {
        assert all[j] == b[j - |a|] && all[j'] == b[j' - |a|];
      }
    }
    forall l | l in t2 && l !in t0 ensures exists j :: 0 <= j < |all| && all[j].level == l {
      if l in t1 {
        var j :| 0 <= j < |a| && a[j].level == l;
        assert all[j] == a[j];
      } else {
        var j :| 0 <= j < |b| && b[j].level == l;
        assert all[|a| + j] == b[j];
      }
    }
  }

  /** One scan adds exactly the reached levels to the triggered set; it signals
      each newly triggered level exactly once, for a level of the list the
      price has reached, at that price and on the scan's side. */
  lemma {:induction false} ScanFacts(levels: seq<real>, side: Side, price: real, triggered: set<real>, n: nat)
    requires n <= |levels|
    ensures ScanLevels(levels, side, price, triggered, n).triggered == triggered + ReachedLevels(levels, side, price, n)
    ensures NewlyTriggered(ScanLevels(levels, side, price, triggered, n).signals, triggered, ScanLevels(levels, side, price, triggered, n).triggered)
    ensures DistinctLevels(ScanLevels(levels, side, price, triggered, n).signals)
    ensures EveryNewLevelSignalled(ScanLevels(levels, side, price, triggered, n).signals, triggered, ScanLevels(levels, side, price, triggered, n).triggered)
    ensures forall sg :: sg in ScanLevels(levels, side, price, triggered, n).signals ==>
      sg == Signal(side, sg.level, price) && Reached(side, price, sg.level) && sg.level in levels
    ensures ReachedLevels(levels, side, price, n) <= triggered ==> ScanLevels(levels, side, price, triggered, n).signals == []
  {
    if n > 0 {
      ScanFacts(levels, side, price, triggered, n - 1);
      var prev := ScanLevels(levels, side, price, triggered, n - 1);
      var level := levels[n - 1];
      assert ReachedLevels(levels, side, price, n) ==
        ReachedLevels(levels, side, price, n - 1) + (if Reached(side, price, level) then {level} else {});
      if Reached(side, price, level) && level !in prev.triggered {
        var one := [Signal(side, level, price)];
        assert EveryNewLevelSignalled(one, prev.triggered, prev.triggered + {level}) by {
          assert one[0].level == level;
        }
        ChainSignals(prev.signals, one, triggered, prev.triggered, prev.triggered + {level});
      }
    }
  }

  /** `check_trading_signals`: the buy levels, then the sell levels, against one
      triggered set. */
  function CheckSignals(buyLevels: seq<real>, sellLevels: seq<real>, price: real, triggered: set<real>): ScanResult
  {
    var b := ScanLevels(buyLevels, Buy, price, triggered, |buyLevels|);
    var s := ScanLevels(sellLevels, Sell, price, b.triggered, |sellLevels|);
    ScanResult(s.triggered, b.signals + s.signals)
  }

  /** The levels one check triggers: every reached buy level and every reached
      sell level. */
  ghost function Hits(buyLevels: seq<real>, sellLevels: seq<real>, price: real): set<real>
  {
    ReachedLevels(buyLevels, Buy, price, |buyLevels|) + ReachedLevels(sellLevels, Sell, price, |sellLevels|)
  }

  /** One check triggers exactly the reached levels, and signals each level it
      newly triggers once: BUY signals first, for reached buy levels, then SELL
      signals for reached sell levels, all at the checked price. */
  lemma CheckSignalsFacts(buyLevels: seq<real>, sellLevels: seq<real>, price: real, triggered: set<real>)
    ensures CheckSignals(buyLevels, sellLevels, price, triggered).triggered == triggered + Hits(buyLevels, sellLevels, price)
    ensures NewlyTriggered(CheckSignals(buyLevels, sellLevels, price, triggered).signals, triggered, CheckSignals(buyLevels, sellLevels, price, triggered).triggered)
    ensures DistinctLevels(CheckSignals(buyLevels, sellLevels, price, triggered).signals)
    ensures EveryNewLevelSignalled(CheckSignals(buyLevels, sellLevels, price, triggered).signals, triggered, CheckSignals(buyLevels, sellLevels, price, triggered).triggered)
    ensures forall sg :: sg in CheckSignals(buyLevels, sellLevels, price, triggered).signals ==>
      && sg.price == price && Reached(sg.side, price, sg.level)
      && (sg.side == Buy ==> sg.level in buyLevels)
      && (sg.side == Sell ==> sg.level in sellLevels)
    ensures BuysFirst(CheckSignals(buyLevels, sellLevels, price, triggered).signals)
  {
    var b := ScanLevels(buyLevels, Buy, price, triggered, |buyLevels|);
    var s := ScanLevels(sellLevels, Sell, price, b.triggered, |sellLevels|);
    ScanFacts(buyLevels, Buy, price, triggered, |buyLevels|);
    ScanFacts(sellLevels, Sell, price, b.triggered, |sellLevels|);
    ChainSignals(b.signals, s.signals, triggered, b.triggered, s.triggered);
    var all := b.signals + s.signals;
    forall k | 0 <= k < |all| ensures (all[k].side == Buy) == (k < |b.signals|) {
      if k < |b.signals| {
        assert all[k] == b.signals[k] && b.signals[k] in b.signals;
      } else {
        assert all[k] == s.signals[k - |b.signals|] && s.signals[k - |b.signals|] in s.signals;
      }
    }
  }

  /** Every BUY signal comes before every SELL signal. */
  ghost predicate BuysFirst(signals: seq<Signal>)
  {
    forall j, k :: 0 <= j < k < |signals| && signals[k].side == Buy ==> signals[j].side == Buy
  }

  /** A check at a price that reaches no level outside the triggered set sends
      nothing. */
  lemma NothingNewIsSilent(buyLevels: seq<real>, sellLevels: seq<real>, price: real, triggered: set<real>)
    requires Hits(buyLevels, sellLevels, price) <= triggered
    ensures CheckSignals(buyLevels, sellLevels, price, triggered) == ScanResult(triggered, [])
  {
    var b := ScanLevels(buyLevels, Buy, price, triggered, |buyLevels|);
    ScanFacts(buyLevels, Buy, price, triggered, |buyLevels|);
    ScanFacts(sellLevels, Sell, price, b.triggered, |sellLevels|);
  }

  // ---------------------------------------------------------------------------
  // One tick (lines 45-58)

  datatype StepResult = StepResult(state: TraderState, signals: seq<Signal>)

  /** `check_price` with the fetched price (None when the request failed) and
      the market data a regeneration would fetch. */
  function Step(algorithm: Algorithm, s: TraderState, sample: Option<real>, m: MarketData): (r: StepResult)
    requires DensityInBounds(s.params) && MarketOk(m)
    ensures DensityInBounds(r.state.params)
    ensures sample.None? ==> r == StepResult(s, [])
    ensures sample.Some? ==>
      var p := sample.value;
      && r.state.currentPrice == (if ShouldRegenerate(s, p) then Some(p) else s.currentPrice)
      && (!ShouldRegenerate(s, p) ==>
            && r.state.buyLevels == s.buyLevels && r.state.sellLevels == s.sellLevels && r.state.params == s.params
            && r.state.triggered == s.triggered + Hits(s.buyLevels, s.sellLevels, p))
      && (ShouldRegenerate(s, p) ==>
            && r.state.params == AutoUpdate(algorithm, s.params, m)
            && r.state.triggered == Hits(r.state.buyLevels, r.state.sellLevels, p))
  {
    match sample
    case None => StepResult(s, [])
    case Some(newPrice) =>
      var s1 := if ShouldRegenerate(s, newPrice)
        then GenerateGridState(algorithm, s, newPrice, m).(triggered := {}, currentPrice := Some(newPrice))
        else s;
      CheckSignalsFacts(s1.buyLevels, s1.sellLevels, newPrice, s1.triggered);
      var c := CheckSignals(s1.buyLevels, s1.sellLevels, newPrice, s1.triggered);
      StepResult(s1.(triggered := c.triggered), c.signals)
  }

  /** A grid freshly laid around the price with a positive step has no level
      the price has reached: checking it against an empty triggered set
      signals nothing and triggers nothing. */
  lemma FreshGridIsSilent(basePrice: real, p: Params)
    requires p.baseDensity > 0 && GridStep(basePrice, p) > 0.0
    ensures var step := GridStep(basePrice, p);
      CheckSignals(Ladder(basePrice, -step, p.baseDensity), Ladder(basePrice, step, p.baseDensity), basePrice, {})
        == ScanResult({}, [])
  {
    var step := GridStep(basePrice, p);
    var buy := Ladder(basePrice, -step, p.baseDensity);
    var sell := Ladder(basePrice, step, p.baseDensity);
    GridShape(basePrice, p);
    NothingNewIsSilent(buy, sell, basePrice, {});
    assert ReachedLevels(buy, Buy, basePrice, |buy|) == {};
    assert ReachedLevels(sell, Sell, basePrice, |sell|) == {};
  }

  /** On the tick that regenerates the grid around the price, nothing fires and
      the triggered set stays empty when the new step is positive. */
  lemma RegenerationTickIsSilent(algorithm: Algorithm, s: TraderState, p: real, m: MarketData)
    requires DensityInBounds(s.params) && MarketOk(m)
    requires ShouldRegenerate(s, p)
    requires GridStep(p, AutoUpdate(algorithm, s.params, m)) > 0.0
    ensures Step(algorithm, s, Some(p), m).signals == []
    ensures Step(algorithm, s, Some(p), m).state.triggered == {}
  {
    FreshGridIsSilent(p, AutoUpdate(algorithm, s.params, m));
  }

  /** A tick of the loop: the fetched price and the data a regeneration would see. */
  datatype Tick = Tick(sample: Option<real>, market: MarketData)

  ghost predicate AllMarketsOk(ticks: seq<Tick>)
  {
    forall i :: 0 <= i < |ticks| ==> MarketOk(ticks[i].market)
  }

  /** The monitoring loop over a sequence of ticks: the final state and every
      signal in order. */
  function Run(algorithm: Algorithm, s: TraderState, ticks: seq<Tick>): StepResult
    requires DensityInBounds(s.params) && AllMarketsOk(ticks)
    decreases |ticks|
  {
    if ticks == [] then StepResult(s, [])
    else
      var first := Step(algorithm, s, ticks[0].sample, ticks[0].market);
      var rest := Run(algorithm, first.state, ticks[1..]);
      StepResult(rest.state, first.signals + rest.signals)
  }

  /** No tick of the run regenerates the grid. */
  ghost predicate NoRegeneration(algorithm: Algorithm, s: TraderState, ticks: seq<Tick>)
    requires DensityInBounds(s.params) && AllMarketsOk(ticks)
    decreases |ticks|
  {
    ticks == [] ||
      ((ticks[0].sample.None? || !ShouldRegenerate(s, ticks[0].sample.value))
       && NoRegeneration(algorithm, Step(algorithm, s, ticks[0].sample, ticks[0].market).state, ticks[1..]))
  }

  /** Between regenerations each level fires at most once: no two signals of the
      run share a level, none was triggered at its start, the grid and the
      parameters stay as they were, and every signalled level ends triggered. */
  lemma {:induction false} EachLevelFiresOnceBetweenRegenerations(algorithm: Algorithm, s: TraderState, ticks: seq<Tick>)
    requires DensityInBounds(s.params) && AllMarketsOk(ticks)
    requires NoRegeneration(algorithm, s, ticks)
    ensures Run(algorithm, s, ticks).state.buyLevels == s.buyLevels
    ensures Run(algorithm, s, ticks).state.sellLevels == s.sellLevels
    ensures Run(algorithm, s, ticks).state.params == s.params
    ensures s.triggered <= Run(algorithm, s, ticks).state.triggered
    ensures NewlyTriggered(Run(algorithm, s, ticks).signals, s.triggered, Run(algorithm, s, ticks).state.triggered)
    ensures DistinctLevels(Run(algorithm, s, ticks).signals)
    ensures EveryNewLevelSignalled(Run(algorithm, s, ticks).signals, s.triggered, Run(algorithm, s, ticks).state.triggered)
    decreases |ticks|
  {
    if ticks != [] {
      var first := Step(algorithm, s, ticks[0].sample, ticks[0].market);
      assert AllMarketsOk(ticks[1..]) by {
        forall i | 0 <= i < |ticks[1..]| ensures MarketOk(ticks[1..][i].market) {
          assert ticks[1..][i] == ticks[i + 1];
        }
      }
      var rest := Run(algorithm, first.state, ticks[1..]);
      EachLevelFiresOnceBetweenRegenerations(algorithm, first.state, ticks[1..]);
      if ticks[0].sample.Some? {
        CheckSignalsFacts(s.buyLevels, s.sellLevels, ticks[0].sample.value, s.triggered);
      }
      ChainSignals(first.signals, rest.signals, s.triggered, first.state.triggered, rest.state.triggered);
    }
  }

  // ---------------------------------------------------------------------------
  // The trader object

  /** `BitcoinGridTrader`: its run parameters and state variables as fields. */
  class GridTrader {
    const algorithm: Algorithm
    var baseRange: real
    var baseDensity: int
    var currentPrice: Option<real>
    var buyLevels: seq<real>
    var sellLevels: seq<real>
    var triggeredLevels: set<real>

    ghost predicate Valid()
      reads this
    {
      DensityInBounds(Params(baseRange, baseDensity))
    }

    function State(): TraderState
      reads this
    {
      TraderState(currentPrice, buyLevels, sellLevels, triggeredLevels, Params(baseRange, baseDensity))
    }

    /** `__init__`: a 10% range of 10 levels, no reference price, no grid. */
    constructor (algorithm: Algorithm)
      ensures Valid() && this.algorithm == algorithm
      ensures State() == TraderState(None, [], [], {}, Params(InitialRange, InitialDensity))
    {
      this.algorithm := algorithm;
      baseRange := InitialRange;
      baseDensity := InitialDensity;
      currentPrice := None;
      buyLevels := [];
      sellLevels := [];
      triggeredLevels := {};
    }

    /** `check_price`: one tick with the fetched price; returns the signals sent. */
    method CheckPrice(sample: Option<real>, market: MarketData) returns (signals: seq<Signal>)
      requires Valid() && MarketOk(market)
      modifies this
      ensures Valid()
      ensures StepResult(State(), signals) == Step(algorithm, old(State()), sample, market)
    {
      if sample.None? {
        return [];
      }
      var newPrice := sample.value;
      if ShouldRegenerate(State(), newPrice) {
        GenerateGrid(newPrice, market);
        triggeredLevels := {};
        currentPrice := Some(newPrice);
      }
      signals := CheckTradingSignals(newPrice);
    }

    /** `generate_grid` (without its printing). */
    method GenerateGrid(basePrice: real, market: MarketData)
      requires Valid() && MarketOk(market)
      modifies this
      ensures Valid()
      ensures State() == GenerateGridState(algorithm, old(State()), basePrice, market)
    {
      AutoUpdateParameters(market);
      var step := GridStep(basePrice, Params(baseRange, baseDensity));
      buyLevels := Ladder(basePrice, -step, baseDensity);
      sellLevels := Ladder(basePrice, step, baseDensity);
    }

    /** `auto_update_parameters`. */
    method AutoUpdateParameters(market: MarketData)
      requires Valid() && MarketOk(market)
      modifies this
      ensures Valid()
      ensures Params(baseRange, baseDensity) == AutoUpdate(algorithm, old(Params(baseRange, baseDensity)), market)
      ensures currentPrice == old(currentPrice) && buyLevels == old(buyLevels) && sellLevels == old(sellLevels)
      ensures triggeredLevels == old(triggeredLevels)
    {
      if market.history.None? || |market.history.value| < HistoryWindow {
        return;
      }
      var historical := market.history.value;
      match algorithm
      case Volatility => UpdateByVolatility(market.volatility, market.zScore);
      case AtrAlgorithm => UpdateByAtr(historical, market.highLow);
      case Regime => UpdateByRegime(historical);
      case Unrecognised =>
    }

    /** `update_by_volatility` with the volatility and z-score given; a zero
        volatility stops after the range assignment, as the raised exception does. */
    method UpdateByVolatility(volatility: real, zScore: real)
      modifies this
      ensures Params(baseRange, baseDensity) == VolatilityUpdate(old(Params(baseRange, baseDensity)), volatility, zScore)
      ensures currentPrice == old(currentPrice) && buyLevels == old(buyLevels) && sellLevels == old(sellLevels)
      ensures triggeredLevels == old(triggeredLevels)
    {
      baseRange := zScore * volatility;
      if volatility == 0.0 {
        return;
      }
      baseDensity := Trunc(10.0 / (volatility * 100.0));
      baseDensity := ClipInt(baseDensity, 5, 20);
    }

    /** `update_by_atr`; a zero ATR stops after the range assignment, as the
        raised exception does. */
    method UpdateByAtr(prices: seq<real>, highLow: Option<seq<HighLow>>)
      requires AtrInputsOk(prices, highLow)
      modifies this
      ensures Params(baseRange, baseDensity) == AtrUpdate(old(Params(baseRange, baseDensity)), prices, highLow)
      ensures currentPrice == old(currentPrice) && buyLevels == old(buyLevels) && sellLevels == old(sellLevels)
      ensures triggeredLevels == old(triggeredLevels)
    {
      if highLow.None? || |highLow.value| < 14 {
        return;
      }
      var tr := TrueRanges(highLow.value);
      var atr := Mean(TakeLast(tr, 14));
      assert atr == LatestAtr(highLow.value);
      baseRange := AtrRangeFraction(atr, prices[|prices| - 1]);
      if atr == 0.0 {
        return;
      }
      baseDensity := Trunc(AtrDensityQuotient(atr));
      baseDensity := ClipInt(baseDensity, 8, 25);
    }

    /** `update_by_regime`. */
    method UpdateByRegime(prices: seq<real>)
      requires |prices| > 0
      modifies this
      ensures Params(baseRange, baseDensity) == RegimeUpdate(old(Params(baseRange, baseDensity)), prices)
      ensures currentPrice == old(currentPrice) && buyLevels == old(buyLevels) && sellLevels == old(sellLevels)
      ensures triggeredLevels == old(triggeredLevels)
    {
      var maShort := Mean(TakeLast(prices, 7));
      var maLong := Mean(TakeLast(prices, 30));
      if Trending(maShort, maLong) {
        baseRange := baseRange * 0.6;
        baseDensity := Trunc((baseDensity as real) * 0.7);
      } else {
        baseRange := baseRange * 1.3;
        baseDensity := Trunc((baseDensity as real) * 1.4);
      }
      baseDensity := ClipInt(baseDensity, 8, 25);
      baseRange := ClipReal(baseRange, 0.05, 0.3);
    }

    /** `check_trading_signals`: every reached, untriggered buy level, then every
        reached, untriggered sell level, goes through `trigger_signal`. */
    method CheckTradingSignals(price: real) returns (signals: seq<Signal>)
      modifies this
      ensures ScanResult(triggeredLevels, signals) == CheckSignals(old(buyLevels), old(sellLevels), price, old(triggeredLevels))
      ensures currentPrice == old(currentPrice) && buyLevels == old(buyLevels) && sellLevels == old(sellLevels)
      ensures baseRange == old(baseRange) && baseDensity == old(baseDensity)
    {
      signals := [];
      var i := 0;
      while i < |buyLevels|
        invariant 0 <= i <= |buyLevels|
        invariant currentPrice == old(currentPrice) && buyLevels == old(buyLevels) && sellLevels == old(sellLevels)
        invariant baseRange == old(baseRange) && baseDensity == old(baseDensity)
        invariant ScanResult(triggeredLevels, signals) == ScanLevels(buyLevels, Buy, price, old(triggeredLevels), i)
      {
        var level := buyLevels[i];
        if price <= level && level !in triggeredLevels {
          var signal := TriggerSignal(level, price, Buy);
          signals := signals + [signal];
        }
        i := i + 1;
      }
      ghost var afterBuy := ScanResult(triggeredLevels, signals);
      var j := 0;
      while j < |sellLevels|
        invariant 0 <= j <= |sellLevels|
        invariant currentPrice == old(currentPrice) && buyLevels == old(buyLevels) && sellLevels == old(sellLevels)
        invariant baseRange == old(baseRange) && baseDensity == old(baseDensity)
        invariant triggeredLevels == ScanLevels(sellLevels, Sell, price, afterBuy.triggered, j).triggered
        invariant signals == afterBuy.signals + ScanLevels(sellLevels, Sell, price, afterBuy.triggered, j).signals
      {
        var level := sellLevels[j];
        if price >= level && level !in triggeredLevels {
          var signal := TriggerSignal(level, price, Sell);
          signals := signals + [signal];
        }
        j := j + 1;
      }
    }

    /** `trigger_signal` without the e-mail: mark the level and report it. */
    method TriggerSignal(level: real, price: real, side: Side) returns (signal: Signal)
      modifies this
      ensures triggeredLevels == old(triggeredLevels) + {level}
      ensures signal == Signal(side, level, price)
      ensures currentPrice == old(currentPrice) && buyLevels == old(buyLevels) && sellLevels == old(sellLevels)
      ensures baseRange == old(baseRange) && baseDensity == old(baseDensity)
    {
      triggeredLevels := triggeredLevels + {level};
      signal := Signal(side, level, price);
    }
  }
}
