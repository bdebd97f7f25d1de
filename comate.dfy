/** grid_trading_comate.py: a fixed price ladder between an assumed 30-day low
    and high, and a polling loop that alerts on the first buy price at or
    above the current price and on the first sell price at or below it. */
module Comate {
  import opened GridCommon

  const HistoricalLow: real := 76000.0
  const HistoricalHigh: real := 95000.0
  const GridPercentage: real := 0.02
  /** Line 23: the distance between two prices of the ladder. */
  const GridDensity: real := (HistoricalHigh - HistoricalLow) * GridPercentage

  /** `k * density` above `low`, for `k` in `range(n)`. */
  function Rungs(low: real, density: real, n: nat): (r: seq<real>)
    ensures |r| == n
    ensures forall k :: 0 <= k < n ==> r[k] == low + (k as real) * density
  {
    seq(n, k => low + (k as real) * density)
  }

  /** Appending the rung with real index `c` (the index `n` converted). */
  lemma RungsSnoc(low: real, density: real, n: nat, c: real)
    requires c == n as real
    ensures Rungs(low, density, n + 1) == Rungs(low, density, n) + [low + c * density]
  {
    var r := Rungs(low, density, n + 1);
    assert r[n] == low + c * density;
    assert r == r[..n] + [r[n]];
    assert r[..n] == Rungs(low, density, n);
  }

  /** One more rung on both ladders: the next buy price and the next sell
      candidate, which is one density above it; `c` is the rung's index as a
      real. */
  lemma NextRung(low: real, density: real, m: nat, c: real)
    requires c == m as real
    ensures Rungs(low, density, m + 1) == Rungs(low, density, m) + [low + c * density]
    ensures Rungs(low + density, density, m + 1) == Rungs(low + density, density, m) + [low + c * density + density]
    ensures low + c * density + density == low + (c + 1.0) * density
  {
    RungsSnoc(low, density, m, c);
    RungsSnoc(low + density, density, m, c);
  }

  /** How many rungs from `low` upwards stay at or below `high`. */
  function RungCount(low: real, high: real, density: real): (n: nat)
    requires density > 0.0
  {
    if low > high then 0 else ((high - low) / density).Floor + 1
  }

  /** Exactly the first `RungCount` rungs are at or below `high`. */
  lemma RungCountIsMaximal(low: real, high: real, density: real, k: nat)
    requires density > 0.0
    ensures low + (k as real) * density <= high <==> k < RungCount(low, high, density)
  {
    var n := RungCount(low, high, density);
    if low <= high {
      var f := ((high - low) / density).Floor;
      FloorQuotient(high - low, density);
      if low + (k as real) * density <= high {
        if k > f {
          MulMono((f + 1) as real, k as real, density);
        }
      } else {
        if k <= f {
          MulMono(k as real, f as real, density);
        }
      }
    }
  }

  /** `RungCountIsMaximal` with the rung's index already converted to a real. */
  lemma RungCountIsMaximalAt(low: real, high: real, density: real, k: nat, c: real)
    requires density > 0.0 && c == k as real
    ensures low + c * density <= high <==> k < RungCount(low, high, density)
  {
    RungCountIsMaximal(low, high, density, k);
  }

  /** `[p for p in prices if p <= bound]`. */
  function AtMost(prices: seq<real>, bound: real): (r: seq<real>)
    ensures forall x :: x in r ==> x in prices && x <= bound
    ensures forall x :: x in prices && x <= bound ==> x in r
  {
    if prices == [] then []
    else
      var init := prices[..|prices| - 1];
      var last := prices[|prices| - 1];
      assert prices == init + [last];
      AtMost(init, bound) + (if last <= bound then [last] else [])
  }

  /** Keeping the candidates one density above each rung that stay at or
      below `high` drops exactly the last one, so the sell prices are the buy
      prices without the first. */
  lemma {:induction false} SellsAreShiftedBuys(low: real, high: real, density: real, m: nat)
    requires density > 0.0 && m <= RungCount(low, high, density)
    ensures AtMost(Rungs(low + density, density, m), high)
      == Rungs(low + density, density, if m < RungCount(low, high, density) || m == 0 then m else m - 1)
  {
    var n := RungCount(low, high, density);
    if m > 0 {
      var cands := Rungs(low + density, density, m);
      assert cands[..m - 1] == Rungs(low + density, density, m - 1);
      SellsAreShiftedBuys(low, high, density, m - 1);
      var last := cands[m - 1];
      assert last == low + (m as real) * density;
      RungCountIsMaximal(low, high, density, m);
      if m < n {
        assert Rungs(low + density, density, m) == Rungs(low + density, density, m - 1) + [last];
      } else {
        assert m - 1 < n;
      }
    }
  }

  /** Shifting the rungs up by one density gives the rungs from the second on. */
  lemma ShiftedRungs(low: real, density: real, n: nat)
    requires n > 0
    ensures Rungs(low + density, density, n - 1) == Rungs(low, density, n)[1..]
  {
    forall k | 0 <= k < n - 1
      ensures Rungs(low + density, density, n - 1)[k] == Rungs(low, density, n)[1..][k]
    {
      assert ((k + 1) as real) * density == (k as real) * density + density;
    }
  }

  /** Lines 58-69: the buy prices from `low` one density apart while they do
      not exceed `high`, each with a sell candidate one density higher; the
      candidates above `high` are then removed, which leaves the buy prices
      without the first. */
  method BuildLadders(low: real, high: real, density: real) returns (buyPrices: seq<real>, sellPrices: seq<real>)
    requires density > 0.0
    ensures |buyPrices| == RungCount(low, high, density)
    ensures buyPrices == Rungs(low, density, |buyPrices|)
    ensures forall k :: 0 <= k < |buyPrices| ==> buyPrices[k] <= high
    ensures sellPrices == if buyPrices == [] then [] else buyPrices[1..]
  {
    buyPrices := [];
    var candidates := [];
    var price := low;
    ghost var n := RungCount(low, high, density);
    ghost var count := 0.0;
    while price <= high
      invariant |buyPrices| <= n
      invariant count == |buyPrices| as real
      invariant price == low + count * density
      invariant buyPrices == Rungs(low, density, |buyPrices|)
      invariant candidates == Rungs(low + density, density, |buyPrices|)
      decreases n - |buyPrices|
    {
      RungCountIsMaximalAt(low, high, density, |buyPrices|, count);
      NextRung(low, density, |buyPrices|, count);
      buyPrices := buyPrices + [price];
      candidates := candidates + [price + density];
      price := price + density;
      count := count + 1.0;
    }
    LadderComplete(low, high, density, |buyPrices|, count);
    sellPrices := AtMost(candidates, high);
  }

  /** When the loop stops after `m` rungs, it has laid all of them, each at
      or below `high`, and the filtered candidates are the rungs without the
      first. */
  lemma LadderComplete(low: real, high: real, density: real, m: nat, count: real)
    requires density > 0.0 && m <= RungCount(low, high, density)
    requires count == m as real && !(low + count * density <= high)
    ensures m == RungCount(low, high, density)
    ensures forall k :: 0 <= k < m ==> Rungs(low, density, m)[k] <= high
    ensures AtMost(Rungs(low + density, density, m), high) == if m == 0 then [] else Rungs(low, density, m)[1..]
  {
    RungCountIsMaximalAt(low, high, density, m, count);
    forall k | 0 <= k < m ensures Rungs(low, density, m)[k] <= high {
      RungCountIsMaximal(low, high, density, k);
    }
    SellsAreShiftedBuys(low, high, density, m);
    if m > 0 {
      ShiftedRungs(low, density, m);
    }
  }

  /** With the configured low and high the density is 380, giving 51 buy
      prices from 76000 to 95000. */
  lemma ConfiguredLadder()
    ensures GridDensity == 380.0
    ensures RungCount(HistoricalLow, HistoricalHigh, GridDensity) == 51
    ensures Rungs(HistoricalLow, GridDensity, 51)[50] == HistoricalHigh
  {
    assert (HistoricalHigh - HistoricalLow) / 380.0 == 50.0;
  }

  // ---------------------------------------------------------------------------
  // One tick (lines 72-90)

  predicate Reached(side: Side, price: real, level: real)
  {
    match side
    case Buy => price <= level
    case Sell => price >= level
  }

  /** The index at which a `for ... if ...: break` loop over `levels[from..]`
      stops: the first level the price has reached, if any. */
  function FirstHit(levels: seq<real>, side: Side, price: real, from: nat): (r: Option<nat>)
    requires from <= |levels|
    ensures r.None? <==> forall i :: from <= i < |levels| ==> !Reached(side, price, levels[i])
    ensures r.Some? ==>
      && from <= r.value < |levels| && Reached(side, price, levels[r.value])
      && forall i :: from <= i < r.value ==> !Reached(side, price, levels[i])
    decreases |levels| - from
  {
    if from == |levels| then None
    else if Reached(side, price, levels[from]) then Some(from)
    else FirstHit(levels, side, price, from + 1)
  }

  /** One pass of the `while True` loop: no alert after a failed fetch;
      otherwise the index of the buy alert and of the sell alert sent, if any. */
  method CheckPrice(buyPrices: seq<real>, sellPrices: seq<real>, current: Option<real>) returns (buyHit: Option<nat>, sellHit: Option<nat>)
    ensures current.None? ==> buyHit.None? && sellHit.None?
    ensures current.Some? ==> buyHit == FirstHit(buyPrices, Buy, current.value, 0)
    ensures current.Some? ==> sellHit == FirstHit(sellPrices, Sell, current.value, 0)
  {
    if current.None? {
      return None, None;
    }
    var p := current.value;
    buyHit := None;
    var i := 0;
    while i < |buyPrices|
      invariant 0 <= i <= |buyPrices|
      invariant forall j :: 0 <= j < i ==> !Reached(Buy, p, buyPrices[j])
    {
      if p <= buyPrices[i] {
        buyHit := Some(i);
        break;
      }
      i := i + 1;
    }
    sellHit := None;
    var k := 0;
    while k < |sellPrices|
      invariant 0 <= k <= |sellPrices|
      invariant forall j :: 0 <= j < k ==> !Reached(Sell, p, sellPrices[j])
    {
      if p >= sellPrices[k] {
        sellHit := Some(k);
        break;
      }
      k := k + 1;
    }
    FirstHitUnique(buyPrices, Buy, p, buyHit);
    FirstHitUnique(sellPrices, Sell, p, sellHit);
  }

  /** The first reached index is the only index with no earlier reached one. */
  lemma FirstHitUnique(levels: seq<real>, side: Side, price: real, hit: Option<nat>)
    requires hit.None? ==> forall i :: 0 <= i < |levels| ==> !Reached(side, price, levels[i])
    requires hit.Some? ==>
      && hit.value < |levels| && Reached(side, price, levels[hit.value])
      && forall i :: 0 <= i < hit.value ==> !Reached(side, price, levels[i])
    ensures hit == FirstHit(levels, side, price, 0)
  {
  }

  /** On a rising ladder the buy alert is for the lowest buy price at or above
      the current price. */
  lemma BuyAlertIsNearestAbove(levels: seq<real>, price: real)
    requires StrictlyIncreasing(levels)
    requires FirstHit(levels, Buy, price, 0).Some?
    ensures var k := FirstHit(levels, Buy, price, 0).value;
      forall i :: 0 <= i < |levels| && price <= levels[i] ==> levels[k] <= levels[i]
  {
  }

  /** On a rising ladder the sell alert, whenever there is one, is for the lowest
      sell price, however far the price has risen above it. */
  lemma SellAlertIsAlwaysTheLowest(levels: seq<real>, price: real)
    requires StrictlyIncreasing(levels) && |levels| > 0
    ensures FirstHit(levels, Sell, price, 0) == if price >= levels[0] then Some(0) else None
  {
    if price < levels[0] {
      assert forall i :: 0 <= i < |levels| ==> levels[0] <= levels[i];
    }
  }
}
