/** grid_trading_trae.py: an ATR-sized grid built once at start-up, and a
    polling loop that alerts on buy and sell levels against one list of flags
    indexed by position. */
module Trae {
  import opened GridCommon

  const NumGrids: int := 10
  const PriceRangePercent: real := 5.0
  const AtrFactor: real := 3.0
  const TargetProfitPct: real := 1.5
  const MaxGrids: int := 20

  /** The parameter dictionary: `min_price` and `max_price` are absent unless
      an ATR was available. */
  datatype Params = Params(priceRange: real, numGrids: int, minPrice: Option<real>, maxPrice: Option<real>)

  /** Python truthiness of the ATR value: present and non-zero. */
  predicate Truthy(atr: Option<real>)
  {
    atr.Some? && atr.value != 0.0
  }

  /** Line 123: how many levels of the target profit fit in the band. */
  function GridCountQuotient(priceRange: real, currentPrice: real): real
    requires currentPrice != 0.0
  {
    priceRange / (currentPrice * TargetProfitPct / 100.0)
  }

  /** `suggest_parameters` with the latest ATR as input (None when the history
      or the ATR is unavailable): a 5% range and 10 levels by default; with an
      ATR, a band of three ATRs on each side of the price and as many levels as
      1.5% steps fit in it, at most 20. */
  method SuggestParameters(currentPrice: real, atr: Option<real>) returns (params: Params)
    requires Truthy(atr) ==> currentPrice != 0.0
    ensures params.priceRange == currentPrice * PriceRangePercent / 100.0
    ensures !Truthy(atr) ==> params.numGrids == NumGrids && params.minPrice.None? && params.maxPrice.None?
    ensures Truthy(atr) ==>
      && params.minPrice == Some(currentPrice - AtrFactor * atr.value)
      && params.maxPrice == Some(currentPrice + AtrFactor * atr.value)
      && params.numGrids == Min(Trunc(GridCountQuotient(2.0 * AtrFactor * atr.value, currentPrice)), MaxGrids)
      && params.numGrids <= MaxGrids
      && (currentPrice > 0.0 && atr.value > 0.0 ==> params.numGrids >= 0)
  {
    params := Params(currentPrice * PriceRangePercent / 100.0, NumGrids, None, None);
    if Truthy(atr) {
      params := params.(minPrice := Some(currentPrice - AtrFactor * atr.value),
                        maxPrice := Some(currentPrice + AtrFactor * atr.value));
    }
    if params.minPrice.Some? && params.maxPrice.Some? {
      var priceRange := params.maxPrice.value - params.minPrice.value;
      assert priceRange == 2.0 * AtrFactor * atr.value;
      var fit := Trunc(GridCountQuotient(priceRange, currentPrice));
      if currentPrice > 0.0 && atr.value > 0.0 {
        PositiveQuotient(priceRange, currentPrice);
      }
      params := params.(numGrids := Min(fit, MaxGrids));
    }
  }

  /** Python's `min` of two integers. */
  function Min(a: int, b: int): (m: int)
    ensures m <= a && m <= b && (m == a || m == b)
  {
    if a < b then a else b
  }

  lemma PositiveQuotient(priceRange: real, currentPrice: real)
    requires priceRange > 0.0 && currentPrice > 0.0
    ensures GridCountQuotient(priceRange, currentPrice) > 0.0
  {
  }

  /** With a small ATR the band holds no whole 1.5% step and the suggested grid
      has no levels: at 100000 an ATR of 100 gives a 600 band against a 1500
      step. */
  lemma ZeroGridsExample()
    ensures Trunc(GridCountQuotient(2.0 * AtrFactor * 100.0, 100000.0)) == 0
  {
    assert GridCountQuotient(600.0, 100000.0) == 0.4;
  }

  /** The grid dictionary: the levels in both orders and one flag per level. */
  datatype Grid = Grid(buyLevels: seq<real>, sellLevels: seq<real>, triggered: seq<bool>)

  function Bounds(params: Params, currentPrice: real): (real, real)
  {
    (if params.minPrice.Some? then params.minPrice.value else currentPrice * (1.0 - PriceRangePercent / 100.0),
     if params.maxPrice.Some? then params.maxPrice.value else currentPrice * (1.0 + PriceRangePercent / 100.0))
  }

  /** The step of line 165, for `n + 1` intervals. */
  function GridStep(lo: real, hi: real, n: int): real
    requires n != -1
  {
    (hi - lo) / ((n + 1) as real)
  }

  /** A ladder of `n` levels `step` apart whose `n + 1` intervals span
      `[lo, hi]` stays strictly inside that interval. */
  lemma LadderInside(lo: real, hi: real, n: nat)
    requires lo < hi
    ensures forall i :: 0 <= i < n ==> lo < Ladder(lo, GridStep(lo, hi, n), n)[i] < hi
  {
    var step := GridStep(lo, hi, n);
    assert ((n + 1) as real) * step == hi - lo;
    assert step > 0.0;
    LadderRises(lo, step, n);
    assert (n as real) * step < ((n + 1) as real) * step;
  }

  /** `generate_grid`: `num_grids` levels evenly spaced strictly inside the
      band (none when the band is empty or inverted), ascending for buying and
      descending for selling, and `num_grids` cleared flags. A count below one
      gives an empty `range`: no levels and no flags. A count of -1 with a
      proper band divides by zero at line 165; callers must avoid it. */
  function GenerateGrid(params: Params, currentPrice: real): (g: Grid)
    requires Bounds(params, currentPrice).1 <= Bounds(params, currentPrice).0 || params.numGrids != -1
    ensures var (lo, hi) := Bounds(params, currentPrice);
      && |g.buyLevels| == (if hi > lo && params.numGrids > 0 then params.numGrids else 0)
      && (hi > lo && params.numGrids > 0 ==> g.buyLevels == Ladder(lo, GridStep(lo, hi, params.numGrids), params.numGrids))
      && StrictlyIncreasing(g.buyLevels)
      && (forall i :: 0 <= i < |g.buyLevels| ==> lo < g.buyLevels[i] < hi)
      && g.sellLevels == Reverse(g.buyLevels)
      && |g.triggered| == (if params.numGrids > 0 then params.numGrids else 0)
      && (forall i :: 0 <= i < |g.triggered| ==> !g.triggered[i])
  {
    var (lo, hi) := Bounds(params, currentPrice);
    var n: nat := if params.numGrids > 0 then params.numGrids else 0;
    if hi > lo && n > 0 then
      var levels := Ladder(lo, GridStep(lo, hi, n), n);
      LadderInside(lo, hi, n);
      LadderRises(lo, GridStep(lo, hi, n), n);
      Grid(levels, Reverse(levels), seq(n, _ => false))
    else
      Grid([], [], seq(n, _ => false))
  }

  /** The example of the source's documentation: a band of [100, 200] with four
      levels gives 120, 140, 160 and 180. */
  lemma GenerateGridExample()
    ensures GenerateGrid(Params(0.0, 4, Some(100.0), Some(200.0)), 150.0).buyLevels == [120.0, 140.0, 160.0, 180.0]
  {
    assert GridStep(100.0, 200.0, 4) == 20.0;
  }

  // ---------------------------------------------------------------------------
  // The alert loop (lines 251-267)

  /** An alert for flag `index`, raised by the level at that position. */
  datatype Alert = Alert(side: Side, index: nat, level: real)

  predicate Reached(side: Side, price: real, level: real)
  {
    match side
    case Buy => price <= level
    case Sell => price >= level
  }

  datatype ScanResult = ScanResult(flags: seq<bool>, alerts: seq<Alert>)

  /** One `for i, level in enumerate(...)` loop after its first `n` levels. */
  function ScanFlags(levels: seq<real>, side: Side, price: real, flags: seq<bool>, n: nat): (r: ScanResult)
    requires n <= |levels| <= |flags|
    ensures |r.flags| == |flags|
  {
    if n == 0 then ScanResult(flags, [])
    else
      var prev := ScanFlags(levels, side, price, flags, n - 1);
      var i := n - 1;
      if Reached(side, price, levels[i]) && !prev.flags[i] then
        ScanResult(prev.flags[i := true], prev.alerts + [Alert(side, i, levels[i])])
      else prev
  }

  /** A scan sets exactly the flags of the reached levels and keeps every flag
      already set; it alerts once for each flag it sets, in index order, with
      that position's level and the scan's side. */
  lemma {:induction false} ScanFlagsFacts(levels: seq<real>, side: Side, price: real, flags: seq<bool>, n: nat)
    requires n <= |levels| <= |flags|
    ensures var r := ScanFlags(levels, side, price, flags, n);
      && (forall i :: 0 <= i < |flags| ==> r.flags[i] == (flags[i] || (i < n && Reached(side, price, levels[i]))))
      && (forall j :: 0 <= j < |r.alerts| ==>
            && r.alerts[j].index < n
            && !flags[r.alerts[j].index]
            && r.alerts[j] == Alert(side, r.alerts[j].index, levels[r.alerts[j].index])
            && Reached(side, price, r.alerts[j].level))
      && (forall j, j' :: 0 <= j < j' < |r.alerts| ==> r.alerts[j].index < r.alerts[j'].index)
      && (forall i :: 0 <= i < n && !flags[i] && Reached(side, price, levels[i]) ==>
            exists j :: 0 <= j < |r.alerts| && r.alerts[j].index == i)
  {
    if n > 0 {
      ScanFlagsFacts(levels, side, price, flags, n - 1);
      var prev := ScanFlags(levels, side, price, flags, n - 1);
      var r := ScanFlags(levels, side, price, flags, n);
      var i := n - 1;
      if Reached(side, price, levels[i]) && !prev.flags[i] {
        assert r.alerts[|r.alerts| - 1].index == i;
        forall k | 0 <= k < n && !flags[k] && Reached(side, price, levels[k])
          ensures exists j :: 0 <= j < |r.alerts| && r.alerts[j].index == k
        {
          if k < i {
            var j :| 0 <= j < |prev.alerts| && prev.alerts[j].index == k;
            assert r.alerts[j] == prev.alerts[j];
          }
        }
      }
    }
  }

  datatype StepResult = StepResult(flags: seq<bool>, alerts: seq<Alert>)

  /** What the length of the flag list must cover: every position of both lists. */
  predicate FlagsCover(buyLevels: seq<real>, sellLevels: seq<real>, flags: seq<bool>)
  {
    |buyLevels| <= |flags| && |sellLevels| <= |flags|
  }

  /** One pass of the loop: a failed fetch changes nothing; otherwise the buy
      scan and then the sell scan over the shared flags. */
  function Step(buyLevels: seq<real>, sellLevels: seq<real>, price: Option<real>, flags: seq<bool>): (r: StepResult)
    requires FlagsCover(buyLevels, sellLevels, flags)
    ensures |r.flags| == |flags|
    ensures price.None? ==> r == StepResult(flags, [])
  {
    if price.None? then StepResult(flags, [])
    else
      var b := ScanFlags(buyLevels, Buy, price.value, flags, |buyLevels|);
      var s := ScanFlags(sellLevels, Sell, price.value, b.flags, |sellLevels|);
      StepResult(s.flags, b.alerts + s.alerts)
  }

  /** Alerts that go with a change of the flags from `before` to `after`: no
      flag is cleared, every alert is for a flag that was clear and is now set,
      and no flag alerts twice. */
  ghost predicate OncePerFlag(alerts: seq<Alert>, before: seq<bool>, after: seq<bool>)
  {
    && |before| == |after|
    && (forall i :: 0 <= i < |before| && before[i] ==> after[i])
    && (forall j :: 0 <= j < |alerts| ==> alerts[j].index < |before| && !before[alerts[j].index] && after[alerts[j].index])
    && (forall j, j' :: 0 <= j < j' < |alerts| ==> alerts[j].index != alerts[j'].index)
  }

  /** A flag left clear by a pass at `price`: neither of its levels was reached. */
  ghost predicate ClearOnlyIfUnreached(buyLevels: seq<real>, sellLevels: seq<real>, price: real, after: seq<bool>)
  {
    forall i :: 0 <= i < |after| && !after[i] ==>
      (i < |buyLevels| ==> !Reached(Buy, price, buyLevels[i])) &&
      (i < |sellLevels| ==> !Reached(Sell, price, sellLevels[i]))
  }

  /** One pass alerts only for flags that were clear, sets every flag it alerts
      for, never clears one, and alerts at most once per flag; a flag stays
      clear only when neither its buy nor its sell level was reached. */
  lemma StepFacts(buyLevels: seq<real>, sellLevels: seq<real>, price: Option<real>, flags: seq<bool>)
    requires FlagsCover(buyLevels, sellLevels, flags)
    ensures OncePerFlag(Step(buyLevels, sellLevels, price, flags).alerts, flags, Step(buyLevels, sellLevels, price, flags).flags)
    ensures price.Some? ==> ClearOnlyIfUnreached(buyLevels, sellLevels, price.value, Step(buyLevels, sellLevels, price, flags).flags)
  {
    if price.Some? {
      var p := price.value;
      var b := ScanFlags(buyLevels, Buy, p, flags, |buyLevels|);
      var s := ScanFlags(sellLevels, Sell, p, b.flags, |sellLevels|);
      ScanFlagsFacts(buyLevels, Buy, p, flags, |buyLevels|);
      ScanFlagsFacts(sellLevels, Sell, p, b.flags, |sellLevels|);
      assert OncePerFlag(b.alerts, flags, b.flags);
      assert OncePerFlag(s.alerts, b.flags, s.flags);
      ChainOnce(b.alerts, s.alerts, flags, b.flags, s.flags);
    }
  }

  /** Two passes in a row, the second starting from the flags the first left,
      still alert at most once per flag and only for flags clear at the start. */
  lemma ChainOnce(a: seq<Alert>, b: seq<Alert>, f0: seq<bool>, f1: seq<bool>, f2: seq<bool>)
    requires OncePerFlag(a, f0, f1) && OncePerFlag(b, f1, f2)
    ensures OncePerFlag(a + b, f0, f2)
  {
    var all := a + b;
    var n := |a|;
    forall j | 0 <= j < |all|
      ensures all[j].index < |f0| && !f0[all[j].index] && f2[all[j].index]
    {
      if j < n { assert all[j] == a[j]; } else { assert all[j] == b[j - n]; }
    }
    forall j, j' | 0 <= j < j' < |all| ensures all[j].index != all[j'].index {
      if j' < n {
        assert all[j] == a[j] && all[j'] == a[j'];
      } else if j < n {
        assert all[j] == a[j] && all[j'] == b[j' - n];
        assert f1[all[j].index] && !f1[all[j'].index];
      } else {
        assert all[j] == b[j - n] && all[j'] == b[j' - n];
      }
    }
  }

  /** Flag 2 is shared by buy level 3 and sell level 1 of the ladder 1, 2, 3: at
      2.5 the buy alert at 3 sets it, so the reached sell level 1 stays silent
      and only the sell level 2 alerts. */
  lemma SharedFlagExample()
    ensures Step([1.0, 2.0, 3.0], [3.0, 2.0, 1.0], Some(2.5), [false, false, false])
      == StepResult([false, true, true], [Alert(Buy, 2, 3.0), Alert(Sell, 1, 2.0)])
  {
    var buy := [1.0, 2.0, 3.0];
    var sell := [3.0, 2.0, 1.0];
    var flags := [false, false, false];
    assert ScanFlags(buy, Buy, 2.5, flags, 2) == ScanResult(flags, []);
    var afterBuy := [false, false, true];
    assert ScanFlags(buy, Buy, 2.5, flags, 3) == ScanResult(afterBuy, [Alert(Buy, 2, 3.0)]);
    assert ScanFlags(sell, Sell, 2.5, afterBuy, 1) == ScanResult(afterBuy, []);
    assert ScanFlags(sell, Sell, 2.5, afterBuy, 2) == ScanResult([false, true, true], [Alert(Sell, 1, 2.0)]);
  }

  /** The polling loop over a sequence of fetched prices. */
  function Run(buyLevels: seq<real>, sellLevels: seq<real>, prices: seq<Option<real>>, flags: seq<bool>): (r: StepResult)
    requires FlagsCover(buyLevels, sellLevels, flags)
    ensures |r.flags| == |flags|
    decreases |prices|
  {
    if prices == [] then StepResult(flags, [])
    else
      var first := Step(buyLevels, sellLevels, prices[0], flags);
      var rest := Run(buyLevels, sellLevels, prices[1..], first.flags);
      StepResult(rest.flags, first.alerts + rest.alerts)
  }

  /** Flags are never reset, so over a whole run each index alerts at most once,
      only if it was clear at the start, and ends set. */
  lemma {:induction false} EachIndexAlertsOnce(buyLevels: seq<real>, sellLevels: seq<real>, prices: seq<Option<real>>, flags: seq<bool>)
    requires FlagsCover(buyLevels, sellLevels, flags)
    ensures OncePerFlag(Run(buyLevels, sellLevels, prices, flags).alerts, flags, Run(buyLevels, sellLevels, prices, flags).flags)
    decreases |prices|
  {
    if prices != [] {
      var first := Step(buyLevels, sellLevels, prices[0], flags);
      StepFacts(buyLevels, sellLevels, prices[0], flags);
      EachIndexAlertsOnce(buyLevels, sellLevels, prices[1..], first.flags);
      var rest := Run(buyLevels, sellLevels, prices[1..], first.flags);
      ChainOnce(first.alerts, rest.alerts, flags, first.flags, rest.flags);
    }
  }

  // ---------------------------------------------------------------------------
  // The grid held by `main`

  /** The grid of `main`: fixed level lists and the flag list it sets in place. */
  class GridMonitor {
    const buyLevels: seq<real>
    const sellLevels: seq<real>
    const triggered: array<bool>

    ghost predicate Valid()
      reads this
    {
      |buyLevels| <= triggered.Length && |sellLevels| <= triggered.Length
    }

    /** Lines 245-246: the grid generated for the start-up price. */
    constructor (params: Params, currentPrice: real)
      requires Bounds(params, currentPrice).1 <= Bounds(params, currentPrice).0 || params.numGrids != -1
      ensures Valid()
      ensures var g := GenerateGrid(params, currentPrice);
        buyLevels == g.buyLevels && sellLevels == g.sellLevels && triggered[..] == g.triggered
      ensures fresh(triggered)
    {
      var g := GenerateGrid(params, currentPrice);
      buyLevels := g.buyLevels;
      sellLevels := g.sellLevels;
      triggered := new bool[|g.triggered|](_ => false);
      new;
      assert triggered[..] == g.triggered;
    }

    /** One pass of the `while True` loop with the fetched price. */
    method Tick(price: Option<real>) returns (alerts: seq<Alert>)
      requires Valid()
      modifies triggered
      ensures StepResult(triggered[..], alerts) == Step(buyLevels, sellLevels, price, old(triggered[..]))
    {
      if price.None? {
        return [];
      }
      var p := price.value;
      ghost var flags0 := triggered[..];
      alerts := [];
      var i := 0;
      while i < |buyLevels|
        invariant 0 <= i <= |buyLevels|
        invariant ScanResult(triggered[..], alerts) == ScanFlags(buyLevels, Buy, p, flags0, i)
      {
        var level := buyLevels[i];
        if p <= level && !triggered[i] {
          alerts := alerts + [Alert(Buy, i, level)];
          triggered[i] := true;
        }
        i := i + 1;
      }
      ghost var afterBuy := ScanResult(triggered[..], alerts);
      var k := 0;
      while k < |sellLevels|
        invariant 0 <= k <= |sellLevels|
        invariant triggered[..] == ScanFlags(sellLevels, Sell, p, afterBuy.flags, k).flags
        invariant alerts == afterBuy.alerts + ScanFlags(sellLevels, Sell, p, afterBuy.flags, k).alerts
      {
        var level := sellLevels[k];
        if p >= level && !triggered[k] {
          alerts := alerts + [Alert(Sell, k, level)];
          triggered[k] := true;
        }
        k := k + 1;
      }
    }
  }
}
