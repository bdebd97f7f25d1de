/** grid_trading_chatgpt.py: a one-shot grid that places `grid_count` limit
    buys climbing from half an ATR band below the price and as many limit
    sells descending from half the band above it. */
module ChatGpt {
  import opened GridCommon

  const GridFactor: real := 0.5
  const GridCount: nat := 10
  const OrderAmount: real := 0.001

  /** What `calculate_grid_parameters` returns. */
  datatype GridParameters = GridParameters(currentPrice: real, gridSpacing: real, priceRange: real)

  /** `calculate_grid_parameters` with the average ATR and the last price as
      inputs: the spacing is half an ATR and the band ten ATRs, so the band is
      twenty spacings wide. */
  function CalculateGridParameters(averageAtr: real, currentPrice: real): (g: GridParameters)
    ensures g.currentPrice == currentPrice
    ensures g.gridSpacing == GridFactor * averageAtr
    ensures g.priceRange == 10.0 * averageAtr
    ensures g.priceRange == 20.0 * g.gridSpacing
  {
    GridParameters(currentPrice, averageAtr * GridFactor, 10.0 * averageAtr)
  }

  /** A limit order request as sent to the exchange. */
  datatype Order = Order(side: Side, price: real, amount: real)

  /** The price of the `k`-th buy (from 0): `k` spacings above the bottom of
      the band. */
  function BuyPrice(g: GridParameters, k: nat): real
  {
    g.currentPrice - g.priceRange / 2.0 + (k as real) * g.gridSpacing
  }

  /** The price of the `k`-th sell: `k` spacings below the top of the band. */
  function SellPrice(g: GridParameters, k: nat): real
  {
    g.currentPrice + g.priceRange / 2.0 - (k as real) * g.gridSpacing
  }

  /** The `k`-th buy and the `k`-th sell lie symmetrically about the price. */
  lemma PairsAreSymmetric(g: GridParameters, k: nat)
    ensures BuyPrice(g, k) + SellPrice(g, k) == 2.0 * g.currentPrice
    ensures g.currentPrice - BuyPrice(g, k) == SellPrice(g, k) - g.currentPrice
  {
  }

  /** With a positive spacing the buys climb and the sells descend, one spacing
      per order. */
  lemma LaddersMove(g: GridParameters, j: nat, k: nat)
    requires g.gridSpacing > 0.0 && j < k
    ensures BuyPrice(g, j) < BuyPrice(g, k)
    ensures SellPrice(g, k) < SellPrice(g, j)
    ensures BuyPrice(g, j + 1) - BuyPrice(g, j) == g.gridSpacing
  {
    MulMono(j as real, k as real, g.gridSpacing);
    assert (k as real) * g.gridSpacing - (j as real) * g.gridSpacing == ((k - j) as real) * g.gridSpacing;
    MulStrict((k - j) as real, g.gridSpacing);
    assert ((j + 1) as real) * g.gridSpacing == (j as real) * g.gridSpacing + g.gridSpacing;
  }

  /** With the configured factor and count and a positive ATR, the highest buy
      is still half an ATR below the price: every buy is below the price and
      every sell above it. */
  lemma BuysBelowSellsAbove(averageAtr: real, currentPrice: real, k: nat)
    requires averageAtr > 0.0 && k < GridCount
    ensures var g := CalculateGridParameters(averageAtr, currentPrice);
      BuyPrice(g, k) < currentPrice < SellPrice(g, k)
  {
    var g := CalculateGridParameters(averageAtr, currentPrice);
    MulMono(k as real, (GridCount - 1) as real, g.gridSpacing);
    assert BuyPrice(g, GridCount - 1) == currentPrice - 0.5 * averageAtr;
    PairsAreSymmetric(g, k);
  }

  /** `grid_trading`: `grid_count` rounds, each placing a buy and then a sell
      of `order_amount`, the buy price rising and the sell price falling by
      one spacing per round; the result is the log of order requests. */
  method GridTrading(averageAtr: real, currentPrice: real) returns (orders: seq<Order>)
    ensures var g := CalculateGridParameters(averageAtr, currentPrice);
      && |orders| == 2 * GridCount
      && (forall k :: 0 <= k < GridCount ==> orders[2 * k] == Order(Buy, BuyPrice(g, k), OrderAmount))
      && (forall k :: 0 <= k < GridCount ==> orders[2 * k + 1] == Order(Sell, SellPrice(g, k), OrderAmount))
  {
    var g := CalculateGridParameters(averageAtr, currentPrice);
    var buyPrice := g.currentPrice - g.priceRange / 2.0;
    var sellPrice := g.currentPrice + g.priceRange / 2.0;
    orders := [];
    for i := 0 to GridCount
      invariant |orders| == 2 * i
      invariant buyPrice == BuyPrice(g, i) && sellPrice == SellPrice(g, i)
      invariant forall k :: 0 <= k < i ==> orders[2 * k] == Order(Buy, BuyPrice(g, k), OrderAmount)
      invariant forall k :: 0 <= k < i ==> orders[2 * k + 1] == Order(Sell, SellPrice(g, k), OrderAmount)
    {
      orders := orders + [Order(Buy, buyPrice, OrderAmount)];
      orders := orders + [Order(Sell, sellPrice, OrderAmount)];
      assert ((i + 1) as real) * g.gridSpacing == (i as real) * g.gridSpacing + g.gridSpacing;
      buyPrice := buyPrice + g.gridSpacing;
      sellPrice := sellPrice - g.gridSpacing;
    }
  }
}
