/**
 * `estimate_slippage` of models/slippage_model.py over exact reals:
 * slippage = factor * min(depth / (q / 1000), 1) * |ask - bid| * (q / 1000).
 * The quantity is a divisor, so a zero quantity is outside the function's
 * domain (the source raises ZeroDivisionError there).
 */
module SlippageModel {

  const DefaultMarketDepth: real := 10.0
  const DefaultSlippageFactor: real := 0.0005

  function Abs(x: real): (r: real)
    ensures 0.0 <= r && (r == x || r == -x)
  {
    if x < 0.0 then -x else x
  }

  function Min(a: real, b: real): (r: real)
    ensures r <= a && r <= b && (r == a || r == b)
  {
    if b < a then b else a
  }

  /** `min(market_depth / (quantity_usd / 1000), 1)`. */
  function LiquidityFactor(quantityUsd: real, marketDepth: real): (r: real)
    requires quantityUsd != 0.0
    ensures r <= 1.0
  {
    Min(marketDepth / (quantityUsd / 1000.0), 1.0)
  }

  function EstimateSlippage(quantityUsd: real, avgAsk: real, avgBid: real,
                            marketDepth: real, slippageFactor: real): real
    requires quantityUsd != 0.0
  {
    var spread := Abs(avgAsk - avgBid);
    slippageFactor * LiquidityFactor(quantityUsd, marketDepth) * spread * (quantityUsd / 1000.0)
  }

  /** Swapping the ask and bid averages does not change the estimate. */
  lemma SlippageSymmetric(quantityUsd: real, avgAsk: real, avgBid: real,
                          marketDepth: real, slippageFactor: real)
    requires quantityUsd != 0.0
    ensures EstimateSlippage(quantityUsd, avgAsk, avgBid, marketDepth, slippageFactor)
            == EstimateSlippage(quantityUsd, avgBid, avgAsk, marketDepth, slippageFactor)
  {
  }

  /** For a positive quantity the liquidity factor times q/1000 is min(depth, q/1000). */
  lemma LiquidityTimesSize(quantityUsd: real, marketDepth: real)
    requires 0.0 < quantityUsd && 0.0 <= marketDepth
    ensures LiquidityFactor(quantityUsd, marketDepth) * (quantityUsd / 1000.0)
            == Min(marketDepth, quantityUsd / 1000.0)
  {
  }

  /** Closed form for a positive quantity and a non-negative depth. */
  lemma SlippageClosedForm(quantityUsd: real, avgAsk: real, avgBid: real,
                           marketDepth: real, slippageFactor: real)
    requires 0.0 < quantityUsd && 0.0 <= marketDepth
    ensures EstimateSlippage(quantityUsd, avgAsk, avgBid, marketDepth, slippageFactor)
            == slippageFactor * Abs(avgAsk - avgBid) * Min(marketDepth, quantityUsd / 1000.0)
  {
  }

  /** With a positive quantity and non-negative depth and factor the estimate is non-negative. */
  lemma SlippageNonNegative(quantityUsd: real, avgAsk: real, avgBid: real,
                            marketDepth: real, slippageFactor: real)
    requires 0.0 < quantityUsd && 0.0 <= marketDepth && 0.0 <= slippageFactor
    ensures 0.0 <= EstimateSlippage(quantityUsd, avgAsk, avgBid, marketDepth, slippageFactor)
  {
  }

  /** Equal ask and bid averages mean no spread and so no slippage. */
  lemma SlippageZeroWithoutSpread(quantityUsd: real, price: real,
                                  marketDepth: real, slippageFactor: real)
    requires quantityUsd != 0.0
    ensures EstimateSlippage(quantityUsd, price, price, marketDepth, slippageFactor) == 0.0
  {
  }

  /**
   * The estimate never exceeds factor * spread * depth, and it equals that
   * bound once the quantity reaches 1000 * depth: it stops growing.
   */
  lemma SlippageBoundedByDepth(quantityUsd: real, avgAsk: real, avgBid: real,
                               marketDepth: real, slippageFactor: real)
    requires 0.0 < quantityUsd && 0.0 <= marketDepth && 0.0 <= slippageFactor
    ensures EstimateSlippage(quantityUsd, avgAsk, avgBid, marketDepth, slippageFactor)
            <= slippageFactor * Abs(avgAsk - avgBid) * marketDepth
    ensures 1000.0 * marketDepth <= quantityUsd ==>
              EstimateSlippage(quantityUsd, avgAsk, avgBid, marketDepth, slippageFactor)
              == slippageFactor * Abs(avgAsk - avgBid) * marketDepth
  {
  }

  /**
   * For non-negative depth and factor the estimate never falls as the
   * quantity grows.
   */
  lemma SlippageMonotoneInQuantity(q1: real, q2: real, avgAsk: real, avgBid: real,
                                   marketDepth: real, slippageFactor: real)
    requires 0.0 < q1 <= q2 && 0.0 <= marketDepth && 0.0 <= slippageFactor
    ensures EstimateSlippage(q1, avgAsk, avgBid, marketDepth, slippageFactor)
            <= EstimateSlippage(q2, avgAsk, avgBid, marketDepth, slippageFactor)
  {
    SlippageClosedForm(q1, avgAsk, avgBid, marketDepth, slippageFactor);
    SlippageClosedForm(q2, avgAsk, avgBid, marketDepth, slippageFactor);
    var k := slippageFactor * Abs(avgAsk - avgBid);
    assert 0.0 <= k;
    var m1, m2 := Min(marketDepth, q1 / 1000.0), Min(marketDepth, q2 / 1000.0);
    assert m1 <= m2;
    assert k * m1 <= k * m2;
  }

  /** The estimate is linear in the slippage factor. */
  lemma SlippageLinearInFactor(quantityUsd: real, avgAsk: real, avgBid: real,
                               marketDepth: real, slippageFactor: real, c: real)
    requires quantityUsd != 0.0
    ensures EstimateSlippage(quantityUsd, avgAsk, avgBid, marketDepth, c * slippageFactor)
            == c * EstimateSlippage(quantityUsd, avgAsk, avgBid, marketDepth, slippageFactor)
  {
  }

  /**
   * Quoting both prices in a unit c > 0 times larger scales the estimate by c:
   * the spread scales and the liquidity factor does not depend on prices.
   */
  lemma SlippageScalesWithPrices(quantityUsd: real, avgAsk: real, avgBid: real,
                                 marketDepth: real, slippageFactor: real, c: real)
    requires quantityUsd != 0.0 && 0.0 <= c
    ensures EstimateSlippage(quantityUsd, c * avgAsk, c * avgBid, marketDepth, slippageFactor)
            == c * EstimateSlippage(quantityUsd, avgAsk, avgBid, marketDepth, slippageFactor)
  {
    assert Abs(c * avgAsk - c * avgBid) == c * Abs(avgAsk - avgBid) by {
      assert c * avgAsk - c * avgBid == c * (avgAsk - avgBid);
    }
  }
}
