/** grid_planner_ETH.py: a one-shot ETH/USDT grid plan. A range comes from ATR
    around the current price or from the High/Low window, a total grid count from
    the target profit per grid, and the plan splits the levels at the current
    price and the balances evenly across each side. */
module PlannerEth {
  import opened GridCommon
  import Gemini

  const AtrPeriod: nat := 14
  const AtrFactor: real := 2.0
  const HistoricalLookbackDays: nat := 180
  const TargetProfitPerGridPct: real := 5.0
  const FeePct: real := 0.0

  datatype Range = Range(minPrice: real, maxPrice: real)

  datatype AtrRange = AtrRange(minPrice: real, maxPrice: real, latestAtr: real)

  /** `calculate_atr`: pandas_ta's latest ATR (None when missing or NaN), or
      nothing when there are fewer than `period + 1` bars. */
  function CalculateAtr(bars: seq<Bar>, period: nat, latestAtr: Option<real>): Option<real>
  {
    if |bars| < period + 1 then None else latestAtr
  }

  /** `suggest_range_atr`: `factor * atr` on either side of the current price,
      together with the ATR; nothing when the ATR or the price is missing. */
  function SuggestRangeAtr(bars: seq<Bar>, currentPrice: Option<real>, period: nat, factor: real, latestAtr: Option<real>): (r: Option<AtrRange>)
    ensures r.Some? <==> |bars| >= period + 1 && latestAtr.Some? && currentPrice.Some?
    ensures r.Some? ==>
      && r.value.latestAtr == latestAtr.value
      && r.value.maxPrice - currentPrice.value == factor * latestAtr.value
      && currentPrice.value - r.value.minPrice == factor * latestAtr.value
  {
    var atr := CalculateAtr(bars, period, latestAtr);
    if atr.None? || currentPrice.None? then None
    else
      var cp := currentPrice.value;
      Some(AtrRange(cp - factor * atr.value, cp + factor * atr.value, atr.value))
  }

  /** Current price 100, ATR 5, factor 2: the range is [90, 110]. */
  lemma AtrRangeExample(bars: seq<Bar>)
    requires |bars| >= AtrPeriod + 1
    ensures SuggestRangeAtr(bars, Some(100.0), AtrPeriod, 2.0, Some(5.0)) == Some(AtrRange(90.0, 110.0, 5.0))
  {
  }

  /** `suggest_range_historical`: the lookback is clamped to the bars available,
      so only an empty history yields nothing; otherwise the lowest Low and the
      highest High of the window. */
  function SuggestRangeHistorical(bars: seq<Bar>, lookbackDays: nat): (r: Option<Range>)
    requires lookbackDays > 0 || |bars| > 0
    ensures r.None? <==> |bars| == 0
    ensures r.Some? ==>
      var start := WindowStart(|bars|, lookbackDays);
      && (forall i :: start <= i < |bars| ==> r.value.minPrice <= bars[i].low && bars[i].high <= r.value.maxPrice)
      && (exists i :: start <= i < |bars| && r.value.minPrice == bars[i].low)
      && (exists i :: start <= i < |bars| && r.value.maxPrice == bars[i].high)
  {
    var days := if |bars| < lookbackDays then |bars| else lookbackDays;
    if |bars| < lookbackDays && days == 0 then None
    else
      var recent := TakeLast(bars, days);
      SuffixExtremes(bars, WindowStart(|bars|, days));
      Some(Range(MinLow(recent), MaxHigh(recent)))
  }

  /** Thirty bars whose lows bottom out at 1000 and whose highs top out at 1200,
      with a lookback of 30: the range is [1000, 1200]. */
  lemma HistoricalRangeExample(bars: seq<Bar>)
    requires |bars| == 30
    requires forall i :: 0 <= i < 30 ==> 1000.0 <= bars[i].low && bars[i].high <= 1200.0
    requires exists i :: 0 <= i < 30 && bars[i].low == 1000.0
    requires exists i :: 0 <= i < 30 && bars[i].high == 1200.0
    ensures SuggestRangeHistorical(bars, 30) == Some(Range(1000.0, 1200.0))
  {
    assert TakeLast(bars, 30) == bars;
    var lo := MinLow(bars);
    var hi := MaxHigh(bars);
    var a :| 0 <= a < 30 && lo == bars[a].low;
    var b :| 0 <= b < 30 && hi == bars[b].high;
    var i :| 0 <= i < 30 && bars[i].low == 1000.0;
    var j :| 0 <= j < 30 && bars[j].high == 1200.0;
    assert lo <= bars[i].low && bars[j].high <= hi;
    assert SuggestRangeHistorical(bars, 30) == Some(Range(lo, hi));
  }

  /** `suggest_total_grids`: nothing unless `0 < min < max` and the target is
      positive (a zero bound is falsy in Python); otherwise at least one grid,
      fitted to the approximate step `min * target / 100`. */
  function SuggestTotalGrids(minPrice: real, maxPrice: real, targetProfitPct: real, feePct: real): (r: Option<int>)
    ensures r.Some? <==> 0.0 < minPrice < maxPrice && targetProfitPct > 0.0
    ensures r.Some? ==>
      r.value >= 1 &&
      CountFitsStep(maxPrice - minPrice, minPrice * (targetProfitPct / 100.0), r.value)
  {
    if minPrice == 0.0 || maxPrice == 0.0 || minPrice <= 0.0 || minPrice >= maxPrice || targetProfitPct <= 0.0 then None
    else
      var step := minPrice * (targetProfitPct / 100.0);
      MulStrict(minPrice, targetProfitPct / 100.0);
      if step <= 0.0 then None
      else
        var range := maxPrice - minPrice;
        var n := (range / step).Floor - 1;
        SuggestedCountFits(range, step);
        Some(if 1 < n then n else 1)
  }

  /** This script's grid count and the gemini script's agree on every input. */
  lemma TotalGridsAgreeWithGemini(minPrice: real, maxPrice: real, targetProfitPct: real, feePct: real)
    ensures SuggestTotalGrids(minPrice, maxPrice, targetProfitPct, feePct)
         == Gemini.SuggestNumGrids(Some(minPrice), Some(maxPrice), targetProfitPct, feePct)
  {
    var r := SuggestTotalGrids(minPrice, maxPrice, targetProfitPct, feePct);
    var g := Gemini.SuggestNumGrids(Some(minPrice), Some(maxPrice), targetProfitPct, feePct);
    var step := minPrice * (targetProfitPct / 100.0);
    if targetProfitPct > 0.0 && minPrice < 0.0 {
      MulStrict(-minPrice, targetProfitPct / 100.0);
    }
    if targetProfitPct > 0.0 && minPrice > 0.0 {
      MulStrict(minPrice, targetProfitPct / 100.0);
    }
    if r.Some? {
      CountFitsStepUnique(maxPrice - minPrice, step, r.value, g.value);
    }
  }

  /** `calculate_grid_levels`: no levels for a zero bound, an empty range or a
      non-positive count; otherwise `numGrids` rising levels, each clamped into
      `[min, max]`. */
  function CalculateGridLevels(minPrice: real, maxPrice: real, numGrids: int): (r: seq<real>)
    ensures minPrice == 0.0 || maxPrice == 0.0 || minPrice >= maxPrice || numGrids <= 0 ==> r == []
    ensures !(minPrice == 0.0 || maxPrice == 0.0 || minPrice >= maxPrice || numGrids <= 0) ==>
      && |r| == numGrids
      && StrictlyIncreasing(r)
      && forall i :: 0 <= i < |r| ==> minPrice < r[i] < maxPrice
  {
    if minPrice == 0.0 || maxPrice == 0.0 || minPrice >= maxPrice || numGrids <= 0 then []
    else
      var step := (maxPrice - minPrice) / ((numGrids + 1) as real);
      var raw := Gemini.CalculateMonitoringGridLevels(minPrice, maxPrice, numGrids);
      var levels := seq(numGrids, i requires 0 <= i < numGrids =>
        var level := minPrice + ((i + 1) as real) * step;
        if maxPrice < (if minPrice < level then level else minPrice) then maxPrice
        else if minPrice < level then level else minPrice);
      assert forall i :: 0 <= i < numGrids ==> levels[i] == raw[i];
      levels
  }

  /** The clamp never bites: the levels are those of the gemini script. */
  lemma ClampIsNoOp(minPrice: real, maxPrice: real, numGrids: int)
    requires minPrice != 0.0 && maxPrice != 0.0
    ensures CalculateGridLevels(minPrice, maxPrice, numGrids) == Gemini.CalculateMonitoringGridLevels(minPrice, maxPrice, numGrids)
  {
    var r := CalculateGridLevels(minPrice, maxPrice, numGrids);
    var g := Gemini.CalculateMonitoringGridLevels(minPrice, maxPrice, numGrids);
    if minPrice < maxPrice && numGrids > 0 {
      var step := (maxPrice - minPrice) / ((numGrids + 1) as real);
      assert forall i :: 0 <= i < numGrids ==> g[i] == minPrice + ((i + 1) as real) * step;
      assert forall i :: 0 <= i < numGrids ==> r[i] == g[i];
    }
  }

  /** `[level for level in levels if level < current_price]`. */
  function BuyLevels(levels: seq<real>, currentPrice: real): (r: seq<real>)
    ensures forall i :: 0 <= i < |r| ==> r[i] in levels && r[i] < currentPrice
    decreases |levels|
  {
    if levels == [] then []
    else
      var last := levels[|levels| - 1];
      BuyLevels(levels[..|levels| - 1], currentPrice) + (if last < currentPrice then [last] else [])
  }

  /** `[level for level in levels if level >= current_price]`. */
  function SellLevels(levels: seq<real>, currentPrice: real): (r: seq<real>)
    ensures forall i :: 0 <= i < |r| ==> r[i] in levels && r[i] >= currentPrice
    decreases |levels|
  {
    if levels == [] then []
    else
      var last := levels[|levels| - 1];
      SellLevels(levels[..|levels| - 1], currentPrice) + (if last >= currentPrice then [last] else [])
  }

  lemma {:induction false} AllBelow(levels: seq<real>, currentPrice: real)
    requires forall i :: 0 <= i < |levels| ==> levels[i] < currentPrice
    ensures BuyLevels(levels, currentPrice) == levels && SellLevels(levels, currentPrice) == []
    decreases |levels|
  {
    if levels != [] {
      AllBelow(levels[..|levels| - 1], currentPrice);
    }
  }

  /** On rising levels the buy side is the prefix below the current price and
      the sell side the rest: together they are exactly the levels, in order. */
  lemma {:induction false} SidesPartitionLevels(levels: seq<real>, currentPrice: real)
    requires StrictlyIncreasing(levels)
    ensures BuyLevels(levels, currentPrice) + SellLevels(levels, currentPrice) == levels
    decreases |levels|
  {
    if levels != [] {
      var init := levels[..|levels| - 1];
      var last := levels[|levels| - 1];
      assert levels == init + [last];
      assert StrictlyIncreasing(init) by {
        forall i, j | 0 <= i < j < |init| ensures init[i] < init[j] {
          assert init[i] == levels[i] && init[j] == levels[j];
        }
      }
      if last < currentPrice {
        forall i | 0 <= i < |init| ensures init[i] < currentPrice {
          assert init[i] == levels[i];
        }
        AllBelow(init, currentPrice);
      } else {
        SidesPartitionLevels(init, currentPrice);
      }
    }
  }

  lemma {:induction false} SideCountsAddUp(levels: seq<real>, currentPrice: real)
    ensures |BuyLevels(levels, currentPrice)| + |SellLevels(levels, currentPrice)| == |levels|
    decreases |levels|
  {
    if levels != [] {
      SideCountsAddUp(levels[..|levels| - 1], currentPrice);
    }
  }

  datatype PlanEntry =
    | BuyEntry(price: real, usdtAmount: real, ethAmountEst: real)
    | SellEntry(price: real, ethAmount: real, usdtAmountEst: real)

  datatype GridPlanResult = GridPlanResult(plan: seq<PlanEntry>, numBuyGrids: nat, numSellGrids: nat)

  /** Lines 162-163: a balance split evenly over a side's levels, or 0 when the
      side has no level or the balance is not positive. */
  function PerGridShare(balance: real, numGrids: nat): (r: real)
    ensures r > 0.0 <==> numGrids > 0 && balance > 0.0
    ensures r > 0.0 ==> Sum(Repeat(r, numGrids)) == balance
    ensures r <= 0.0 ==> r == 0.0
  {
    if numGrids > 0 && balance > 0.0 then
      EvenSplitSums(balance, numGrids);
      balance / (numGrids as real)
    else 0.0
  }

  /** ETH that `usdt` buys at `price` (line 167). */
  function EthEstimate(usdt: real, price: real): real
    requires price != 0.0
  {
    usdt / price
  }

  /** USDT that selling `eth` at `price` receives (line 175). */
  function UsdtEstimate(eth: real, price: real): real
  {
    eth * price
  }

  /** The `for level in buy_levels` loop after all of `levels`. */
  function BuyEntries(levels: seq<real>, usdtShare: real): seq<PlanEntry>
    requires usdtShare > 0.0 ==> NonZero(levels)
    decreases |levels|
  {
    if levels == [] then []
    else
      var last := levels[|levels| - 1];
      BuyEntries(levels[..|levels| - 1], usdtShare)
        + (if usdtShare > 0.0 then [BuyEntry(last, usdtShare, EthEstimate(usdtShare, last))] else [])
  }

  /** The `for level in sell_levels` loop after all of `levels`. */
  function SellEntries(levels: seq<real>, ethShare: real): seq<PlanEntry>
    decreases |levels|
  {
    if levels == [] then []
    else
      var last := levels[|levels| - 1];
      SellEntries(levels[..|levels| - 1], ethShare)
        + (if ethShare > 0.0 then [SellEntry(last, ethShare, UsdtEstimate(ethShare, last))] else [])
  }

  ghost predicate NonZero(levels: seq<real>)
  {
    forall i :: 0 <= i < |levels| ==> levels[i] != 0.0
  }

  /** No level of the grid is zero when the range does not straddle zero. */
  predicate NoZeroLevel(minPrice: real, maxPrice: real)
  {
    minPrice >= 0.0 || maxPrice <= 0.0
  }

  /** The levels of a grid whose range does not straddle zero are non-zero. */
  lemma LevelsNonZero(minPrice: real, maxPrice: real, totalNumGrids: int)
    requires NoZeroLevel(minPrice, maxPrice)
    ensures NonZero(CalculateGridLevels(minPrice, maxPrice, totalNumGrids))
  {
  }

  /** Filtering keeps levels non-zero. */
  lemma BuyLevelsNonZero(levels: seq<real>, currentPrice: real)
    requires NonZero(levels)
    ensures NonZero(BuyLevels(levels, currentPrice))
  {
    var buys := BuyLevels(levels, currentPrice);
    forall i | 0 <= i < |buys| ensures buys[i] != 0.0 {
      var j :| 0 <= j < |levels| && levels[j] == buys[i];
    }
  }

  /** Lines 151-179 on given levels: split them at the current price and
      commit an even share of each balance to each level of its side. */
  function SplitPlan(levels: seq<real>, currentPrice: real, userEth: real, userUsdt: real): GridPlanResult
    requires NonZero(levels)
  {
    var buys := BuyLevels(levels, currentPrice);
    var sells := SellLevels(levels, currentPrice);
    BuyLevelsNonZero(levels, currentPrice);
    GridPlanResult(BuyEntries(buys, PerGridShare(userUsdt, |buys|)) + SellEntries(sells, PerGridShare(userEth, |sells|)), |buys|, |sells|)
  }

  /** `generate_grid_plan` as a value. */
  function GridPlan(minPrice: real, maxPrice: real, totalNumGrids: int, currentPrice: real, userEth: real, userUsdt: real): GridPlanResult
    requires NoZeroLevel(minPrice, maxPrice)
  {
    if minPrice == 0.0 || maxPrice == 0.0 || totalNumGrids == 0 || currentPrice == 0.0 then GridPlanResult([], 0, 0)
    else
      var levels := CalculateGridLevels(minPrice, maxPrice, totalNumGrids);
      if levels == [] then GridPlanResult([], 0, 0)
      else
        LevelsNonZero(minPrice, maxPrice, totalNumGrids);
        SplitPlan(levels, currentPrice, userEth, userUsdt)
  }

  /** The inputs on which the plan is not `([], 0, 0)`: all four truthy, a
      positive count and a non-empty range. */
  predicate ValidPlanInputs(minPrice: real, maxPrice: real, totalNumGrids: int, currentPrice: real)
  {
    minPrice != 0.0 && maxPrice != 0.0 && currentPrice != 0.0 && totalNumGrids > 0 && minPrice < maxPrice
  }

  /** Invalid inputs give `([], 0, 0)`; valid ones split all `total` levels
      between the two sides. */
  lemma PlanCounts(minPrice: real, maxPrice: real, totalNumGrids: int, currentPrice: real, userEth: real, userUsdt: real)
    requires NoZeroLevel(minPrice, maxPrice)
    ensures var p := GridPlan(minPrice, maxPrice, totalNumGrids, currentPrice, userEth, userUsdt);
      && (!ValidPlanInputs(minPrice, maxPrice, totalNumGrids, currentPrice) ==> p == GridPlanResult([], 0, 0))
      && (ValidPlanInputs(minPrice, maxPrice, totalNumGrids, currentPrice) ==> p.numBuyGrids + p.numSellGrids == totalNumGrids)
  {
    if ValidPlanInputs(minPrice, maxPrice, totalNumGrids, currentPrice) {
      LevelsNonZero(minPrice, maxPrice, totalNumGrids);
      SideCountsAddUp(CalculateGridLevels(minPrice, maxPrice, totalNumGrids), currentPrice);
    }
  }

  /** USDT committed to buy entries. */
  function UsdtSpent(plan: seq<PlanEntry>): real
    decreases |plan|
  {
    if plan == [] then 0.0
    else UsdtSpent(plan[..|plan| - 1]) + (if plan[|plan| - 1].BuyEntry? then plan[|plan| - 1].usdtAmount else 0.0)
  }

  /** ETH committed to sell entries. */
  function EthSold(plan: seq<PlanEntry>): real
    decreases |plan|
  {
    if plan == [] then 0.0
    else EthSold(plan[..|plan| - 1]) + (if plan[|plan| - 1].SellEntry? then plan[|plan| - 1].ethAmount else 0.0)
  }

  lemma {:induction false} TotalsOfConcat(a: seq<PlanEntry>, b: seq<PlanEntry>)
    ensures UsdtSpent(a + b) == UsdtSpent(a) + UsdtSpent(b)
    ensures EthSold(a + b) == EthSold(a) + EthSold(b)
    decreases |b|
  {
    if b == [] {
      assert a + b == a;
    } else {
      assert (a + b)[..|a + b| - 1] == a + b[..|b| - 1];
      assert (a + b)[|a + b| - 1] == b[|b| - 1];
      TotalsOfConcat(a, b[..|b| - 1]);
    }
  }

  /** The buy loop makes one entry per level when its share is positive and
      none otherwise. */
  lemma {:induction false} BuyEntriesShape(levels: seq<real>, usdtShare: real)
    requires usdtShare > 0.0 ==> NonZero(levels)
    ensures var e := BuyEntries(levels, usdtShare);
      && |e| == (if usdtShare > 0.0 then |levels| else 0)
      && (forall j :: 0 <= j < |e| ==> e[j].BuyEntry? && e[j].price == levels[j] && e[j].usdtAmount == usdtShare && EstimateConsistent(e[j]))
    decreases |levels|
  {
    if levels != [] {
      var init := levels[..|levels| - 1];
      BuyEntriesShape(init, usdtShare);
      if usdtShare > 0.0 {
        var e := BuyEntries(levels, usdtShare);
        forall j | 0 <= j < |e| ensures e[j].BuyEntry? && e[j].price == levels[j] && e[j].usdtAmount == usdtShare && EstimateConsistent(e[j]) {
          if j < |e| - 1 {
            assert e[j] == BuyEntries(init, usdtShare)[j];
            assert init[j] == levels[j];
          }
        }
      }
    }
  }

  /** Buy entries spend one share of USDT each and sell no ETH. */
  lemma {:induction false} BuyEntriesTotals(levels: seq<real>, usdtShare: real)
    requires usdtShare > 0.0 ==> NonZero(levels)
    ensures UsdtSpent(BuyEntries(levels, usdtShare)) == Sum(Repeat(usdtShare, |BuyEntries(levels, usdtShare)|))
    ensures EthSold(BuyEntries(levels, usdtShare)) == 0.0
    decreases |levels|
  {
    if levels != [] {
      var init := levels[..|levels| - 1];
      BuyEntriesTotals(init, usdtShare);
      var e0 := BuyEntries(init, usdtShare);
      var e := BuyEntries(levels, usdtShare);
      if usdtShare > 0.0 {
        var x := BuyEntry(levels[|levels| - 1], usdtShare, EthEstimate(usdtShare, levels[|levels| - 1]));
        assert e == e0 + [x];
        assert e[..|e| - 1] == e0 && e[|e| - 1] == x;
        assert UsdtSpent(e) == UsdtSpent(e0) + usdtShare;
        assert EthSold(e) == EthSold(e0);
        var r := Repeat(usdtShare, |e|);
        assert r[..|e0|] == Repeat(usdtShare, |e0|);
      } else {
        assert e == e0;
      }
    }
  }

  /** The sell loop makes one entry per level when its share is positive and
      none otherwise. */
  lemma {:induction false} SellEntriesShape(levels: seq<real>, ethShare: real)
    ensures var e := SellEntries(levels, ethShare);
      && |e| == (if ethShare > 0.0 then |levels| else 0)
      && (forall j :: 0 <= j < |e| ==> e[j].SellEntry? && e[j].price == levels[j] && e[j].ethAmount == ethShare && EstimateConsistent(e[j]))
    decreases |levels|
  {
    if levels != [] {
      var init := levels[..|levels| - 1];
      SellEntriesShape(init, ethShare);
      if ethShare > 0.0 {
        var e := SellEntries(levels, ethShare);
        forall j | 0 <= j < |e| ensures e[j].SellEntry? && e[j].price == levels[j] && e[j].ethAmount == ethShare && EstimateConsistent(e[j]) {
          if j < |e| - 1 {
            assert e[j] == SellEntries(init, ethShare)[j];
            assert init[j] == levels[j];
          }
        }
      }
    }
  }

  /** Sell entries sell one share of ETH each and spend no USDT. */
  lemma {:induction false} SellEntriesTotals(levels: seq<real>, ethShare: real)
    ensures EthSold(SellEntries(levels, ethShare)) == Sum(Repeat(ethShare, |SellEntries(levels, ethShare)|))
    ensures UsdtSpent(SellEntries(levels, ethShare)) == 0.0
    decreases |levels|
  {
    if levels != [] {
      var init := levels[..|levels| - 1];
      SellEntriesTotals(init, ethShare);
      var e0 := SellEntries(init, ethShare);
      var e := SellEntries(levels, ethShare);
      if ethShare > 0.0 {
        var x := SellEntry(levels[|levels| - 1], ethShare, UsdtEstimate(ethShare, levels[|levels| - 1]));
        assert e == e0 + [x];
        assert e[..|e| - 1] == e0 && e[|e| - 1] == x;
        assert EthSold(e) == EthSold(e0) + ethShare;
        assert UsdtSpent(e) == UsdtSpent(e0);
        var r := Repeat(ethShare, |e|);
        assert r[..|e0|] == Repeat(ethShare, |e0|);
      } else {
        assert e == e0;
      }
    }
  }

  /** On any levels, a side with a positive balance and at least one level
      spends exactly that balance, and a side with a non-positive balance
      spends nothing. */
  lemma SplitSpendsBalances(levels: seq<real>, currentPrice: real, userEth: real, userUsdt: real)
    requires NonZero(levels)
    ensures var p := SplitPlan(levels, currentPrice, userEth, userUsdt);
      && (userUsdt > 0.0 && p.numBuyGrids > 0 ==> UsdtSpent(p.plan) == userUsdt)
      && (userEth > 0.0 && p.numSellGrids > 0 ==> EthSold(p.plan) == userEth)
      && (userUsdt <= 0.0 ==> UsdtSpent(p.plan) == 0.0)
      && (userEth <= 0.0 ==> EthSold(p.plan) == 0.0)
  {
    var buys := BuyLevels(levels, currentPrice);
    var sells := SellLevels(levels, currentPrice);
    var usdtShare := PerGridShare(userUsdt, |buys|);
    var ethShare := PerGridShare(userEth, |sells|);
    BuyLevelsNonZero(levels, currentPrice);
    BuyEntriesShape(buys, usdtShare);
    BuyEntriesTotals(buys, usdtShare);
    SellEntriesShape(sells, ethShare);
    SellEntriesTotals(sells, ethShare);
    TotalsOfConcat(BuyEntries(buys, usdtShare), SellEntries(sells, ethShare));
  }

  /** The estimate the script prints beside an entry: the ETH a BUY order
      would get at its price, or the USDT a SELL order would receive. */
  predicate EstimateConsistent(e: PlanEntry)
  {
    match e
    case BuyEntry(price, usdtAmount, ethAmountEst) => price != 0.0 && ethAmountEst == EthEstimate(usdtAmount, price)
    case SellEntry(price, ethAmount, usdtAmountEst) => usdtAmountEst == UsdtEstimate(ethAmount, price)
  }

  ghost predicate EstimatesConsistent(plan: seq<PlanEntry>)
  {
    forall j :: 0 <= j < |plan| ==> EstimateConsistent(plan[j])
  }

  /** On any levels, every entry sits at one of them, on its side of the
      current price, carries that side's share and the estimate the script
      prints. */
  lemma SplitEntriesPriced(levels: seq<real>, currentPrice: real, userEth: real, userUsdt: real)
    requires NonZero(levels)
    ensures var p := SplitPlan(levels, currentPrice, userEth, userUsdt);
      && EstimatesConsistent(p.plan)
      && (forall j :: 0 <= j < |p.plan| ==> p.plan[j].price in levels)
      && (forall j :: 0 <= j < |p.plan| && p.plan[j].BuyEntry? ==>
            p.plan[j].price < currentPrice && p.plan[j].usdtAmount == PerGridShare(userUsdt, p.numBuyGrids))
      && (forall j :: 0 <= j < |p.plan| && p.plan[j].SellEntry? ==>
            p.plan[j].price >= currentPrice && p.plan[j].ethAmount == PerGridShare(userEth, p.numSellGrids))
  {
    var buys := BuyLevels(levels, currentPrice);
    var sells := SellLevels(levels, currentPrice);
    var usdtShare := PerGridShare(userUsdt, |buys|);
    var ethShare := PerGridShare(userEth, |sells|);
    BuyLevelsNonZero(levels, currentPrice);
    BuyEntriesShape(buys, usdtShare);
    SellEntriesShape(sells, ethShare);
    var b := BuyEntries(buys, usdtShare);
    var s := SellEntries(sells, ethShare);
    var plan := b + s;
    forall j | 0 <= j < |plan|
      ensures plan[j].price in levels && EstimateConsistent(plan[j])
      ensures plan[j].BuyEntry? ==> plan[j].price < currentPrice && plan[j].usdtAmount == usdtShare
      ensures plan[j].SellEntry? ==> plan[j].price >= currentPrice && plan[j].ethAmount == ethShare
    {
      if j < |b| {
        assert plan[j] == b[j];
      } else {
        assert plan[j] == s[j - |b|];
      }
    }
  }

  /** The two sides of rising levels rise too. */
  lemma SidesRise(levels: seq<real>, currentPrice: real)
    requires StrictlyIncreasing(levels)
    ensures StrictlyIncreasing(BuyLevels(levels, currentPrice))
    ensures StrictlyIncreasing(SellLevels(levels, currentPrice))
  {
    var buys := BuyLevels(levels, currentPrice);
    var sells := SellLevels(levels, currentPrice);
    SidesPartitionLevels(levels, currentPrice);
    PartsRise(buys, sells);
  }

  /** Both parts of a strictly increasing concatenation are strictly increasing. */
  lemma PartsRise(a: seq<real>, b: seq<real>)
    requires StrictlyIncreasing(a + b)
    ensures StrictlyIncreasing(a) && StrictlyIncreasing(b)
  {
    var w := a + b;
    forall i, j | 0 <= i < j < |a| ensures a[i] < a[j] {
      assert a[i] == w[i] && a[j] == w[j];
    }
    forall i, j | 0 <= i < j < |b| ensures b[i] < b[j] {
      assert b[i] == w[|a| + i] && b[j] == w[|a| + j];
    }
  }

  /** On rising levels the plan lists its BUY entries first and its prices
      rise strictly. */
  lemma SplitOrdered(levels: seq<real>, currentPrice: real, userEth: real, userUsdt: real)
    requires NonZero(levels) && StrictlyIncreasing(levels)
    ensures var p := SplitPlan(levels, currentPrice, userEth, userUsdt);
      && (forall j, k :: 0 <= j < k < |p.plan| ==> p.plan[j].price < p.plan[k].price)
      && (forall j, k :: 0 <= j < k < |p.plan| && p.plan[k].BuyEntry? ==> p.plan[j].BuyEntry?)
  {
    var buys := BuyLevels(levels, currentPrice);
    var sells := SellLevels(levels, currentPrice);
    var usdtShare := PerGridShare(userUsdt, |buys|);
    var ethShare := PerGridShare(userEth, |sells|);
    BuyLevelsNonZero(levels, currentPrice);
    SidesRise(levels, currentPrice);
    BuyEntriesShape(buys, usdtShare);
    SellEntriesShape(sells, ethShare);
    var b := BuyEntries(buys, usdtShare);
    var s := SellEntries(sells, ethShare);
    var plan := b + s;
    forall j, k | 0 <= j < k < |plan| ensures plan[j].price < plan[k].price {
      if k < |b| {
        assert plan[j] == b[j] && plan[k] == b[k];
      } else if j >= |b| {
        assert plan[j] == s[j - |b|] && plan[k] == s[k - |b|];
      } else {
        assert plan[j] == b[j] && plan[k] == s[k - |b|];
      }
    }
    forall j, k | 0 <= j < k < |plan| && plan[k].BuyEntry? ensures plan[j].BuyEntry? {
      if k < |b| {
        assert plan[j] == b[j];
      }
    }
  }

  /** Each side with a positive balance and at least one level spends exactly
      that balance; a side with a non-positive balance spends nothing. */
  lemma PlanSpendsBalances(minPrice: real, maxPrice: real, totalNumGrids: int, currentPrice: real, userEth: real, userUsdt: real)
    requires NoZeroLevel(minPrice, maxPrice)
    ensures var p := GridPlan(minPrice, maxPrice, totalNumGrids, currentPrice, userEth, userUsdt);
      && (userUsdt > 0.0 && p.numBuyGrids > 0 ==> UsdtSpent(p.plan) == userUsdt)
      && (userEth > 0.0 && p.numSellGrids > 0 ==> EthSold(p.plan) == userEth)
      && (userUsdt <= 0.0 ==> UsdtSpent(p.plan) == 0.0)
      && (userEth <= 0.0 ==> EthSold(p.plan) == 0.0)
  {
    if ValidPlanInputs(minPrice, maxPrice, totalNumGrids, currentPrice) {
      LevelsNonZero(minPrice, maxPrice, totalNumGrids);
      SplitSpendsBalances(CalculateGridLevels(minPrice, maxPrice, totalNumGrids), currentPrice, userEth, userUsdt);
    }
  }

  /** Every entry of the plan sits strictly inside the range, on its side of
      the current price, with that side's even share of the balance and the
      estimate the script prints. */
  lemma PlanEntriesPriced(minPrice: real, maxPrice: real, totalNumGrids: int, currentPrice: real, userEth: real, userUsdt: real)
    requires NoZeroLevel(minPrice, maxPrice)
    ensures var p := GridPlan(minPrice, maxPrice, totalNumGrids, currentPrice, userEth, userUsdt);
      && EstimatesConsistent(p.plan)
      && (forall j :: 0 <= j < |p.plan| ==> minPrice < p.plan[j].price < maxPrice)
      && (forall j :: 0 <= j < |p.plan| && p.plan[j].BuyEntry? ==>
            p.plan[j].price < currentPrice && p.plan[j].usdtAmount == PerGridShare(userUsdt, p.numBuyGrids))
      && (forall j :: 0 <= j < |p.plan| && p.plan[j].SellEntry? ==>
            p.plan[j].price >= currentPrice && p.plan[j].ethAmount == PerGridShare(userEth, p.numSellGrids))
  {
    if ValidPlanInputs(minPrice, maxPrice, totalNumGrids, currentPrice) {
      var levels := CalculateGridLevels(minPrice, maxPrice, totalNumGrids);
      LevelsNonZero(minPrice, maxPrice, totalNumGrids);
      SplitEntriesPriced(levels, currentPrice, userEth, userUsdt);
      var p := SplitPlan(levels, currentPrice, userEth, userUsdt);
      forall j | 0 <= j < |p.plan| ensures minPrice < p.plan[j].price < maxPrice {
        var k :| 0 <= k < |levels| && levels[k] == p.plan[j].price;
      }
    }
  }

  /** The plan lists its BUY entries first, and its prices rise strictly. */
  lemma PlanOrdered(minPrice: real, maxPrice: real, totalNumGrids: int, currentPrice: real, userEth: real, userUsdt: real)
    requires NoZeroLevel(minPrice, maxPrice)
    ensures var p := GridPlan(minPrice, maxPrice, totalNumGrids, currentPrice, userEth, userUsdt);
      && (forall j, k :: 0 <= j < k < |p.plan| ==> p.plan[j].price < p.plan[k].price)
      && (forall j, k :: 0 <= j < k < |p.plan| && p.plan[k].BuyEntry? ==> p.plan[j].BuyEntry?)
  {
    if ValidPlanInputs(minPrice, maxPrice, totalNumGrids, currentPrice) {
      LevelsNonZero(minPrice, maxPrice, totalNumGrids);
      SplitOrdered(CalculateGridLevels(minPrice, maxPrice, totalNumGrids), currentPrice, userEth, userUsdt);
    }
  }

  /** The `for level in buy_levels` loop of `generate_grid_plan`, appending to
      the plan built so far. */
  method AppendBuyEntries(plan0: seq<PlanEntry>, buyLevels: seq<real>, usdtPerBuyGrid: real) returns (plan: seq<PlanEntry>)
    requires usdtPerBuyGrid > 0.0 ==> NonZero(buyLevels)
    ensures plan == plan0 + BuyEntries(buyLevels, usdtPerBuyGrid)
  {
    plan := plan0;
    var i := 0;
    while i < |buyLevels|
      invariant 0 <= i <= |buyLevels|
      invariant usdtPerBuyGrid > 0.0 ==> NonZero(buyLevels[..i])
      invariant plan == plan0 + BuyEntries(buyLevels[..i], usdtPerBuyGrid)
    {
      var level := buyLevels[i];
      ghost var done := BuyEntries(buyLevels[..i], usdtPerBuyGrid);
      assert buyLevels[..i + 1][..i] == buyLevels[..i];
      if usdtPerBuyGrid > 0.0 {
        var ethToBuyEst := EthEstimate(usdtPerBuyGrid, level);
        var entry := BuyEntry(level, usdtPerBuyGrid, ethToBuyEst);
        assert (plan0 + done) + [entry] == plan0 + (done + [entry]);
        plan := plan + [entry];
      }
      i := i + 1;
    }
    assert buyLevels[..i] == buyLevels;
  }

  /** The `for level in sell_levels` loop of `generate_grid_plan`, appending to
      the plan built so far. */
  method AppendSellEntries(plan0: seq<PlanEntry>, sellLevels: seq<real>, ethPerSellGrid: real) returns (plan: seq<PlanEntry>)
    ensures plan == plan0 + SellEntries(sellLevels, ethPerSellGrid)
  {
    plan := plan0;
    var j := 0;
    while j < |sellLevels|
      invariant 0 <= j <= |sellLevels|
      invariant plan == plan0 + SellEntries(sellLevels[..j], ethPerSellGrid)
    {
      var level := sellLevels[j];
      ghost var done := SellEntries(sellLevels[..j], ethPerSellGrid);
      assert sellLevels[..j + 1][..j] == sellLevels[..j] && sellLevels[..j + 1][j] == level;
      if ethPerSellGrid > 0.0 {
        var usdtToReceiveEst := UsdtEstimate(ethPerSellGrid, level);
        var entry := SellEntry(level, ethPerSellGrid, usdtToReceiveEst);
        assert (plan0 + done) + [entry] == plan0 + (done + [entry]);
        plan := plan + [entry];
      }
      j := j + 1;
    }
    assert sellLevels[..j] == sellLevels;
  }

  /** `generate_grid_plan` as the script runs it: the levels, their split at the
      current price, the per-grid shares, then the two loops in turn. */
  method GenerateGridPlan(minPrice: real, maxPrice: real, totalNumGrids: int, currentPrice: real, userEth: real, userUsdt: real)
    returns (plan: seq<PlanEntry>, numBuyGrids: nat, numSellGrids: nat)
    requires NoZeroLevel(minPrice, maxPrice)
    ensures GridPlanResult(plan, numBuyGrids, numSellGrids) == GridPlan(minPrice, maxPrice, totalNumGrids, currentPrice, userEth, userUsdt)
  {
    if minPrice == 0.0 || maxPrice == 0.0 || totalNumGrids == 0 || currentPrice == 0.0 {
      return [], 0, 0;
    }
    var allLevels := CalculateGridLevels(minPrice, maxPrice, totalNumGrids);
    if allLevels == [] {
      return [], 0, 0;
    }
    LevelsNonZero(minPrice, maxPrice, totalNumGrids);
    BuyLevelsNonZero(allLevels, currentPrice);
    var buyLevels := BuyLevels(allLevels, currentPrice);
    var sellLevels := SellLevels(allLevels, currentPrice);
    numBuyGrids := |buyLevels|;
    numSellGrids := |sellLevels|;
    var usdtPerBuyGrid := PerGridShare(userUsdt, numBuyGrids);
    var ethPerSellGrid := PerGridShare(userEth, numSellGrids);
    plan := AppendBuyEntries([], buyLevels, usdtPerBuyGrid);
    ghost var buyPart := BuyEntries(buyLevels, usdtPerBuyGrid);
    assert [] + buyPart == buyPart;
    plan := AppendSellEntries(plan, sellLevels, ethPerSellGrid);
    ghost var sellPart := SellEntries(sellLevels, ethPerSellGrid);
    assert plan == buyPart + sellPart;
    assert SplitPlan(allLevels, currentPrice, userEth, userUsdt) == GridPlanResult(buyPart + sellPart, numBuyGrids, numSellGrids);
  }
}
