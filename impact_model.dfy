/**
 * `estimate_market_impact` of models/impact_model.py over exact reals:
 * impact = lambda * (q / volume)^2 * volatility * q. The volume is a divisor,
 * so a zero volume is outside the function's domain.
 */
module ImpactModel {

  const DefaultVolume: real := 1000000.0
  const DefaultLambda: real := 0.01

  function EstimateMarketImpact(quantityUsd: real, volatility: real, volume: real,
                                lambdaParam: real): real
    requires volume != 0.0
  {
    var impact := lambdaParam * ((quantityUsd / volume) * (quantityUsd / volume)) * volatility;
    impact * quantityUsd
  }

  function Cube(x: real): real
  {
    x * x * x
  }

  /** impact = lambda * q^3 * volatility / volume^2, the division written as two by volume. */
  lemma ImpactClosedForm(quantityUsd: real, volatility: real, volume: real, lambdaParam: real)
    requires volume != 0.0
    ensures EstimateMarketImpact(quantityUsd, volatility, volume, lambdaParam)
            == lambdaParam * Cube(quantityUsd) * volatility / volume / volume
  {
    var q, v := quantityUsd, volume;
    var r := q / v;
    var k := lambdaParam * volatility * q;
    assert r * v == q;
    var a := k * r;
    assert a * v == k * q;
    Quotient(a, k * q, v);
    var b := a * r;
    assert b * v * v == (k * q) * q by {
      assert b * v == (k * q) * r;
      assert (k * q) * r * v == (k * q) * q;
    }
    Quotient(b * v, (k * q) * q, v);
    Quotient(b, (k * q) * q / v, v);
    assert EstimateMarketImpact(q, volatility, v, lambdaParam) == b;
    assert lambdaParam * Cube(q) * volatility == (k * q) * q;
  }

  /** The only solution of y * w == x is x / w. */
  lemma Quotient(y: real, x: real, w: real)
    requires w != 0.0 && y * w == x
    ensures y == x / w
  {
  }

  /** Non-negative inputs give a non-negative impact. */
  lemma ImpactNonNegative(quantityUsd: real, volatility: real, volume: real, lambdaParam: real)
    requires volume != 0.0 && 0.0 <= quantityUsd && 0.0 <= volatility && 0.0 <= lambdaParam
    ensures 0.0 <= EstimateMarketImpact(quantityUsd, volatility, volume, lambdaParam)
  {
  }

  /** No quantity or no volatility means no impact. */
  lemma ImpactZero(quantityUsd: real, volatility: real, volume: real, lambdaParam: real)
    requires volume != 0.0 && (quantityUsd == 0.0 || volatility == 0.0)
    ensures EstimateMarketImpact(quantityUsd, volatility, volume, lambdaParam) == 0.0
  {
  }

  /** The impact is linear in volatility. */
  lemma ImpactLinearInVolatility(quantityUsd: real, volatility: real, c: real, volume: real,
                                 lambdaParam: real)
    requires volume != 0.0
    ensures EstimateMarketImpact(quantityUsd, c * volatility, volume, lambdaParam)
            == c * EstimateMarketImpact(quantityUsd, volatility, volume, lambdaParam)
  {
  }

  /** Doubling the quantity multiplies the impact by eight. */
  lemma ImpactDoublingQuantity(quantityUsd: real, volatility: real, volume: real, lambdaParam: real)
    requires volume != 0.0
    ensures EstimateMarketImpact(2.0 * quantityUsd, volatility, volume, lambdaParam)
            == 8.0 * EstimateMarketImpact(quantityUsd, volatility, volume, lambdaParam)
  {
  }

  /** For non-negative inputs the impact grows with the quantity and with volatility. */
  lemma ImpactMonotone(q1: real, q2: real, vol1: real, vol2: real, volume: real, lambdaParam: real)
    requires volume != 0.0 && 0.0 <= q1 <= q2 && 0.0 <= vol1 <= vol2 && 0.0 <= lambdaParam
    ensures EstimateMarketImpact(q1, vol1, volume, lambdaParam)
            <= EstimateMarketImpact(q2, vol1, volume, lambdaParam)
    ensures EstimateMarketImpact(q1, vol1, volume, lambdaParam)
            <= EstimateMarketImpact(q1, vol2, volume, lambdaParam)
  {
  }
}
