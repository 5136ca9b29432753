/**
 * One refresh of app.py: read the client's snapshot, and when it holds a book
 * compute slippage, impact and fees from the two side averages, classify the
 * order, record the latency and append one row to the history buffer.
 * The classifier is a parameter giving P(maker); clock readings are
 * parameters; the Streamlit widgets are the tick's inputs.
 */
module App {

  import opened Optional
  import opened OkxWs
  import FeeModel
  import SlippageModel
  import ImpactModel
  import Latency
  import HistoryBuffer
  import Deque

  /** The four choices of the "Fee Tier" select box. */
  const UiTiers: seq<string> := ["Regular", "VIP 1", "VIP 2", "VIP 3"]

  /** `UI_TO_INTERNAL_TIER[fee_tier]`; None is the KeyError an unlisted name raises. */
  function InternalTier(uiTier: string): Option<string>
  {
    if uiTier == "Regular" then Some("Tier 1")
    else if uiTier == "VIP 1" || uiTier == "VIP 2" || uiTier == "VIP 3" then Some(uiTier)
    else None
  }

  /** `fee_tier.startswith("VIP")`. */
  predicate IsVip(uiTier: string)
  {
    |uiTier| >= 3 && uiTier[..3] == "VIP"
  }

  /**
   * Every select-box choice maps: "Regular" to "Tier 1", the VIP names to
   * themselves, and exactly the VIP names are flagged as VIP.
   */
  lemma TierMapping(uiTier: string)
    requires uiTier in UiTiers
    ensures InternalTier(uiTier).Some?
    ensures IsVip(uiTier) <==> uiTier != "Regular"
    ensures InternalTier(uiTier).value == if IsVip(uiTier) then uiTier else FeeModel.DefaultTier
  {
    assert uiTier == UiTiers[0] || uiTier == UiTiers[1] || uiTier == UiTiers[2] || uiTier == UiTiers[3];
    if uiTier == "Regular" {
      assert uiTier[..3] == "Reg";
    }
  }

  function SumPrices(levels: seq<Level>): real
  {
    if levels == [] then 0.0 else SumPrices(levels[..|levels| - 1]) + levels[|levels| - 1].price
  }

  /** `np.mean([float(a[0]) for a in side]) if side else 0`. */
  function MeanPrice(levels: seq<Level>): real
  {
    if |levels| == 0 then 0.0 else SumPrices(levels) / (|levels| as real)
  }

  /** Prices all within [lo, hi] sum to between |levels| * lo and |levels| * hi. */
  lemma {:induction false} SumPricesBounds(levels: seq<Level>, lo: real, hi: real)
    requires forall i :: 0 <= i < |levels| ==> lo <= levels[i].price <= hi
    ensures (|levels| as real) * lo <= SumPrices(levels) <= (|levels| as real) * hi
  {
    if levels != [] {
      var init := levels[..|levels| - 1];
      assert forall i :: 0 <= i < |init| ==> init[i] == levels[i];
      SumPricesBounds(init, lo, hi);
      assert (|levels| as real) * lo == (|init| as real) * lo + lo;
      assert (|levels| as real) * hi == (|init| as real) * hi + hi;
    }
  }

  /** The mean of a non-empty side lies between its lowest and highest price. */
  lemma MeanPriceBounds(levels: seq<Level>, lo: real, hi: real)
    requires |levels| > 0
    requires forall i :: 0 <= i < |levels| ==> lo <= levels[i].price <= hi
    ensures lo <= MeanPrice(levels) <= hi
  {
    SumPricesBounds(levels, lo, hi);
    var n := |levels| as real;
    var s := SumPrices(levels);
    assert n * lo <= s <= n * hi;
    DivBounds(s, n, lo, hi);
  }

  lemma DivBounds(s: real, n: real, lo: real, hi: real)
    requires 0.0 < n && n * lo <= s <= n * hi
    ensures lo <= s / n <= hi
  {
  }

  /** A side whose levels all have one price has that price as its mean. */
  lemma MeanOfConstantSide(levels: seq<Level>, p: real)
    requires |levels| > 0
    requires forall i :: 0 <= i < |levels| ==> levels[i].price == p
    ensures MeanPrice(levels) == p
  {
    MeanPriceBounds(levels, p, p);
  }

  /** `latest_data and "asks" in latest_data and "bids" in latest_data`. */
  predicate HasBook(snapshot: Snapshot)
  {
    |snapshot| > 0 && "asks" in snapshot && "bids" in snapshot
  }

  /** The label rule of `predict_maker_taker`: "Maker" iff P(maker) > 0.5. */
  function RoleLabel(pMaker: real): string
  {
    if pMaker > 0.5 then "Maker" else "Taker"
  }

  /** `latest_data.get("timestamp", time.strftime("%H:%M:%S"))`. */
  function TimestampOf(snapshot: Snapshot, wallClock: string): string
    requires WellTyped(snapshot)
  {
    if "timestamp" in snapshot then snapshot["timestamp"].text else wallClock
  }

  /**
   * The row a tick with a book appends, given the fee table before the tick
   * and the latency it records.
   */
  function TickRecord(snapshot: Snapshot, quantityUsd: real, volatility: real, uiTier: string,
                      isMaker: bool, predictMaker: (real, real, real) -> real,
                      tiers: map<string, FeeModel.Rates>, latency: real, wallClock: string)
    : HistoryBuffer.MetricsRecord
    requires HasBook(snapshot) && WellTyped(snapshot) && uiTier in UiTiers
    requires quantityUsd != 0.0 && FeeModel.DefaultTier in tiers
  {
    TierMapping(uiTier);
    var avgAsk := MeanPrice(snapshot["asks"].levels);
    var avgBid := MeanPrice(snapshot["bids"].levels);
    var spread := SlippageModel.Abs(avgAsk - avgBid);
    var slippage := SlippageModel.EstimateSlippage(quantityUsd, avgAsk, avgBid,
                      SlippageModel.DefaultMarketDepth, SlippageModel.DefaultSlippageFactor);
    var impact := ImpactModel.EstimateMarketImpact(quantityUsd, volatility,
                    ImpactModel.DefaultVolume, ImpactModel.DefaultLambda);
    var fee := FeeModel.FeeCharged(tiers, quantityUsd, InternalTier(uiTier).value, isMaker, IsVip(uiTier));
    HistoryBuffer.MetricsRecord(TimestampOf(snapshot, wallClock), slippage, impact, fee,
                                slippage + impact + fee, latency,
                                RoleLabel(predictMaker(quantityUsd, volatility, spread)))
  }

  datatype TickOutcome = AwaitingData | Recorded(record: HistoryBuffer.MetricsRecord)

  /**
   * One refresh. `predictMaker` is the classifier's P(maker) for
   * (quantity, volatility, spread); `processingStart` and `recordedAt` are the
   * clock readings of app.py:79 and inside `record_latency`; `wallClock` is
   * the `%H:%M:%S` fallback timestamp.
   */
  method Tick(snapshot: Snapshot, quantityUsd: real, volatility: real, uiTier: string,
              isMaker: bool, predictMaker: (real, real, real) -> real,
              fees: FeeModel.FeeSchedule, tracker: Latency.LatencyTracker,
              buffer: HistoryBuffer.MetricsBuffer,
              processingStart: real, recordedAt: real, wallClock: string)
    returns (outcome: TickOutcome)
    requires WellTyped(snapshot)
    requires uiTier in UiTiers
    requires 10.0 <= quantityUsd <= 10000.0 && 0.0 <= volatility <= 1.0
    requires fees.Valid() && buffer.Valid()
    modifies fees, tracker, buffer
    ensures fees.Valid() && buffer.Valid()
    ensures !HasBook(snapshot) ==>
              && outcome == AwaitingData
              && fees.tiers == old(fees.tiers)
              && tracker.records == old(tracker.records)
              && buffer.added == old(buffer.added)
    ensures HasBook(snapshot) ==>
              && outcome == Recorded(TickRecord(snapshot, quantityUsd, volatility, uiTier, isMaker,
                                                predictMaker, old(fees.tiers),
                                                recordedAt - processingStart, wallClock))
              && fees.tiers == FeeModel.TableAfter(old(fees.tiers), InternalTier(uiTier).value, IsVip(uiTier))
              && tracker.records == old(tracker.records) + [recordedAt - processingStart]
              && buffer.added == old(buffer.added) + [outcome.record]
              && buffer.Contents() == Deque.Append(old(buffer.Contents()), outcome.record, buffer.maxlen)
  {
    if !(|snapshot| > 0 && "asks" in snapshot && "bids" in snapshot) {
      return AwaitingData;
    }
    ghost var tiers0, records0 := fees.tiers, tracker.records;
    var asks := snapshot["asks"].levels;
    var bids := snapshot["bids"].levels;
    var avgAsk := MeanPrice(asks);
    var avgBid := MeanPrice(bids);
    var spread := SlippageModel.Abs(avgAsk - avgBid);

    var slippage := SlippageModel.EstimateSlippage(quantityUsd, avgAsk, avgBid,
                      SlippageModel.DefaultMarketDepth, SlippageModel.DefaultSlippageFactor);
    var impact := ImpactModel.EstimateMarketImpact(quantityUsd, volatility,
                    ImpactModel.DefaultVolume, ImpactModel.DefaultLambda);
    TierMapping(uiTier);
    var fee := fees.CalculateFees(quantityUsd, InternalTier(uiTier).value, isMaker, IsVip(uiTier));
    var netCost := slippage + impact + fee;
    var role := RoleLabel(predictMaker(quantityUsd, volatility, spread));

    var _ := tracker.RecordLatency(processingStart, recordedAt);
    ghost var records1 := tracker.records;
    assert records1 == records0 + [recordedAt - processingStart];
    var latest := tracker.GetLatestLatency();
    var recentLatency := if latest.Some? then latest.value else 0.0;

    var timestamp := TimestampOf(snapshot, wallClock);
    var row := HistoryBuffer.MetricsRecord(timestamp, slippage, impact, fee, netCost, recentLatency, role);
    ghost var expected := TickRecord(snapshot, quantityUsd, volatility, uiTier, isMaker, predictMaker, tiers0,
                                     recordedAt - processingStart, wallClock);
    assert row.fee == expected.fee;
    assert row == expected;
    buffer.Add(timestamp, slippage, impact, fee, netCost, recentLatency, role);
    assert tracker.records == records1;
    outcome := Recorded(row);
  }

  /**
   * The costs in the appended row: the slippage is factor * spread *
   * min(depth, q / 1000) for the spread between the two side means, the net
   * cost is the sum of the three costs, and the latency is the recorded sample.
   */
  lemma TickRecordCosts(snapshot: Snapshot, quantityUsd: real, volatility: real, uiTier: string,
                        isMaker: bool, predictMaker: (real, real, real) -> real,
                        tiers: map<string, FeeModel.Rates>, latency: real, wallClock: string)
    requires HasBook(snapshot) && WellTyped(snapshot) && uiTier in UiTiers
    requires 0.0 < quantityUsd && FeeModel.DefaultTier in tiers
    ensures var r := TickRecord(snapshot, quantityUsd, volatility, uiTier, isMaker, predictMaker,
                                tiers, latency, wallClock);
            var spread := SlippageModel.Abs(MeanPrice(snapshot["asks"].levels)
                                            - MeanPrice(snapshot["bids"].levels));
            && r.netCost == r.slippage + r.impact + r.fee
            && r.latency == latency
            && r.slippage == SlippageModel.DefaultSlippageFactor * spread
                             * SlippageModel.Min(SlippageModel.DefaultMarketDepth, quantityUsd / 1000.0)
  {
    SlippageModel.SlippageClosedForm(quantityUsd, MeanPrice(snapshot["asks"].levels),
      MeanPrice(snapshot["bids"].levels), SlippageModel.DefaultMarketDepth, SlippageModel.DefaultSlippageFactor);
  }

  /**
   * The fee and the role in the appended row: "Regular" is charged as
   * "Tier 1" without discount, the VIP names at their own tier with the
   * discount, and the role is "Maker" exactly when the classifier, given the
   * spread between the side means, puts P(maker) above 0.5.
   */
  lemma TickRecordCharges(snapshot: Snapshot, quantityUsd: real, volatility: real, uiTier: string,
                          isMaker: bool, predictMaker: (real, real, real) -> real,
                          tiers: map<string, FeeModel.Rates>, latency: real, wallClock: string)
    requires HasBook(snapshot) && WellTyped(snapshot) && uiTier in UiTiers
    requires 0.0 < quantityUsd && FeeModel.DefaultTier in tiers
    ensures var r := TickRecord(snapshot, quantityUsd, volatility, uiTier, isMaker, predictMaker,
                                tiers, latency, wallClock);
            && (uiTier == "Regular" ==>
                  r.fee == FeeModel.FeeCharged(tiers, quantityUsd, FeeModel.DefaultTier, isMaker, false))
            && (uiTier != "Regular" ==>
                  r.fee == FeeModel.FeeCharged(tiers, quantityUsd, uiTier, isMaker, true))
            && (r.makerTakerRole == "Maker" || r.makerTakerRole == "Taker")
            && (r.makerTakerRole == "Maker" <==>
                  predictMaker(quantityUsd, volatility,
                               SlippageModel.Abs(MeanPrice(snapshot["asks"].levels)
                                                 - MeanPrice(snapshot["bids"].levels))) > 0.5)
  {
    TierMapping(uiTier);
  }

  /** A tick before any books frame was stored finds no book and records nothing. */
  lemma NoBookBeforeFirstFrame()
    ensures !HasBook(LatestOf([]))
  {
  }

  /** After a stored books frame the snapshot passes the tick's guard. */
  lemma BookAfterStoredFrame(h: seq<StoredBook>)
    requires h != []
    ensures HasBook(LatestOf(h)) && WellTyped(LatestOf(h))
    ensures LatestOf(h)["asks"].levels == h[|h| - 1].update.asks
    ensures LatestOf(h)["bids"].levels == h[|h| - 1].update.bids
    ensures TimestampOf(LatestOf(h), "") == h[|h| - 1].update.ts
  {
  }

  /**
   * A buffer of capacity 3 fed five records keeps the last three, oldest
   * first.
   */
  lemma CapacityThreeKeepsLastThree(r1: HistoryBuffer.MetricsRecord, r2: HistoryBuffer.MetricsRecord,
                                    r3: HistoryBuffer.MetricsRecord, r4: HistoryBuffer.MetricsRecord,
                                    r5: HistoryBuffer.MetricsRecord)
    ensures Deque.AppendAll([], [r1, r2, r3, r4, r5], 3) == [r3, r4, r5]
  {
    Deque.FreshDequeHoldsLastAppends([r1, r2, r3, r4, r5], 3);
  }
}
