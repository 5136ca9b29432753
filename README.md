# Crypto trade cost simulator — verified model

This project is a Dafny model of the core of a real-time trade-cost
simulator. The simulator listens to a venue's BTC-USDT order-book channel
over a websocket. On every dashboard refresh it estimates the cost of a
market order from the latest book:

- slippage, from the spread between the ask and bid averages, damped by a
  liquidity factor;
- market impact, with a simplified Almgren-Chriss formula;
- exchange fees, from a maker/taker fee-tier table with a VIP discount.

It also labels the order as maker or taker with a classifier, records a
processing latency, and appends one row of metrics to a bounded history.

Each core file is modelled in the form its source takes:

- `fee_model.dfy` (module `FeeModel`): the shared fee table is a class
  `FeeSchedule` whose `CalculateFees` method writes the VIP discount back into
  the table, as the source does. Pure functions `TableAfter`, `ChargedRate`
  and `FeeCharged` specify each call. Lemmas show that repeated VIP calls
  compound the discount. `DiscountedFee` gives the evidently intended fee.
- `slippage_model.dfy` and `impact_model.dfy` (modules `SlippageModel`,
  `ImpactModel`): pure functions over exact reals. Lemmas prove each one's
  closed form and sign, that slippage grows with the quantity, is linear in
  its factor and scales with both prices by any factor c >= 0, and that
  impact grows with the quantity and is linear in volatility.
- `latency.dfy` (module `Latency`): the process-wide sample list is a class
  `LatencyTracker` with `RecordLatency` and `GetLatestLatency`.
- `deque.dfy` (module `Deque`): the semantics of
  `collections.deque(maxlen=m).append`. It gives an operational definition
  (`Append`) and a reference definition ("the last m of everything
  appended", `LastN`), and proves the two agree.
- `history_buffer.dfy` (module `HistoryBuffer`): `MetricsBuffer` keeps seven
  parallel bounded deques. Its invariant is that they line up row by row with
  the last `maxlen` records added.
- `okx_ws.dfy` (module `OkxWs`): the websocket client is a class
  `MarketDataClient` holding `latest_data`, `recent_asks` and `recent_bids`.
  `OnMessage` handles one frame that has already been decoded from JSON.
  `GetLatestData` returns the snapshot copy. `ReconnectDelays` computes the
  sleeps of the reconnect loop.
- `app.dfy` (module `App`): one refresh of the dashboard (`Tick`). The
  select-box values are its inputs, the classifier's P(maker) is a function
  parameter, and clock readings are parameters.

`optional.dfy` holds the `Option` datatype. It models Python's `None`, and a
missing dictionary key is `None`.

The model keeps these behaviours of the code:

- The fee table is mutated in place, so VIP discounts compound. They are not
  applied once per call.
- The reconnect delay doubles up to 60 s and is never reset after a
  successful connection.
- The slippage and impact formulas have no guard against a zero quantity or
  a zero volume.
- `get_latest_latency` returns `None` when the list is empty, not 0.
- The latency list is unbounded.

## Model

| member | source | states |
|---|---|---|
| FeeModel.InitialTiersWellFormed | models/fee_model.py:4-11 | the initial table has a "Tier 1" entry, and in every tier 0 <= maker rate < taker rate |
| FeeModel.TableAfterWellFormed | models/fee_model.py:28-34 | a call, VIP or not, keeps the table well formed (fallback present, maker below taker) |
| FeeModel.FeeSchedule.constructor | models/fee_model.py:4-11 | the shared table starts as the six tiers with their maker/taker rates |
| FeeModel.FeeSchedule.CalculateFees | models/fee_model.py:13-42 | the table afterwards is the old table with the selected entry discounted by 0.90 when VIP (unchanged otherwise), and the fee is quantity times the rate read from the updated entry |
| FeeModel.UnknownTierUsesDefault | models/fee_model.py:28-40 | an unknown tier name behaves exactly like "Tier 1", VIP or not: the same fee and the same table afterwards; without VIP that fee is quantity times the Tier 1 rate |
| FeeModel.NonVipCallIsPlainLookup | models/fee_model.py:28-40 | a non-VIP call leaves the table unchanged and charges quantity times the selected entry's maker or taker rate |
| FeeModel.VipCallScalesSelectedEntry | models/fee_model.py:31-34 | a VIP call scales both rates of the selected entry by 0.90 and leaves every other entry unchanged |
| FeeModel.FeeSchedule.ApplyVipDiscount | models/fee_model.py:31-34 | the two in-place writes replace the selected entry by its 0.90 discount and change nothing else in the table |
| FeeModel.InPlaceUpdateIsDiscount | models/fee_model.py:33-34 | scaling the maker rate and then the taker rate one after the other discounts the whole entry |
| FeeModel.UnknownVipTierMutatesDefault | models/fee_model.py:28-34 | a VIP call that names an unknown tier discounts the shared "Tier 1" entry |
| FeeModel.FeeNonNegativeAndLinear | models/fee_model.py:37-40 | on a well-formed table the fee is non-negative for a non-negative quantity, additive in the quantity and scales with it |
| FeeModel.VipCallCompoundsOnAnyTable | models/fee_model.py:28-40 | on any table with a "Tier 1" entry, a VIP call repeated after an identical VIP call is charged 0.90 times the first call's fee |
| FeeModel.VipCallsCompound | models/fee_model.py:31-40 | on the initial table, (1000, "VIP 1", maker, VIP) costs 0.36 the first time and 0.90 * 0.36 on the identical second call |
| FeeModel.DiscountedFee | models/fee_model.py:28-40 | the fee computed without writing to the table equals the as-written fee of a single call on the same table |
| FeeModel.DiscountedFeeIsRepeatable | models/fee_model.py:31-40 | the corrected VIP fee on the initial table is always quantity * 0.90 * base rate; for (1000, "VIP 1", maker) it is 0.36 however often it is asked |
| SlippageModel.LiquidityFactor | models/slippage_model.py:20 | the liquidity factor never exceeds 1 |
| SlippageModel.SlippageSymmetric | models/slippage_model.py:17-23 | swapping the ask and bid averages does not change the estimate |
| SlippageModel.LiquidityTimesSize | models/slippage_model.py:20-23 | for a positive quantity, the liquidity factor times q/1000 is min(depth, q/1000) |
| SlippageModel.SlippageClosedForm | models/slippage_model.py:1-25 | for q > 0 and depth >= 0, slippage = factor * abs(ask - bid) * min(depth, q/1000) |
| SlippageModel.SlippageNonNegative | models/slippage_model.py:1-25 | with a positive quantity and non-negative depth and factor, the estimate is non-negative |
| SlippageModel.SlippageZeroWithoutSpread | models/slippage_model.py:17-23 | equal ask and bid averages give zero slippage |
| SlippageModel.SlippageMonotoneInQuantity | models/slippage_model.py:17-23 | for non-negative depth and factor, the estimate never falls as a positive quantity grows |
| SlippageModel.SlippageLinearInFactor | models/slippage_model.py:23 | the estimate is linear in the slippage factor |
| SlippageModel.SlippageScalesWithPrices | models/slippage_model.py:17-23 | scaling both average prices by c >= 0 scales the estimate by c |
| SlippageModel.SlippageBoundedByDepth | models/slippage_model.py:20-23 | slippage never exceeds factor * spread * depth, and equals that cap once q >= 1000 * depth |
| ImpactModel.ImpactClosedForm | models/impact_model.py:22-25 | impact = lambda * q^3 * volatility / volume / volume |
| ImpactModel.ImpactNonNegative | models/impact_model.py:22-25 | non-negative quantity, volatility and lambda give a non-negative impact |
| ImpactModel.ImpactZero | models/impact_model.py:22-25 | zero quantity or zero volatility gives zero impact |
| ImpactModel.ImpactLinearInVolatility | models/impact_model.py:22-25 | scaling volatility by c scales the impact by c |
| ImpactModel.ImpactDoublingQuantity | models/impact_model.py:22-25 | doubling the quantity multiplies the impact by eight |
| ImpactModel.ImpactMonotone | models/impact_model.py:22-25 | for non-negative inputs the impact grows with the quantity and with volatility |
| Latency.LatencyTracker.constructor | utils/latency.py:4 | the sample list starts empty |
| Latency.LatencyTracker.RecordLatency | utils/latency.py:7-16 | returns now - start and appends exactly that sample to the list |
| Latency.LatencyTracker.GetLatestLatency | utils/latency.py:19-26 | returns the last sample, or None exactly when there is none, and changes nothing |
| Latency.LatestAfterRecord | utils/latency.py:14-25 | after a sample is recorded, it is the latest sample |
| Latency.RecordAllAppends | utils/latency.py:14 | recording samples one at a time appends them in order and keeps every earlier sample |
| Deque.Append | utils/history_buffer.py:13-19 | a deque below its bound grows by one; a full one keeps its length at the bound |
| Deque.AppendAll | utils/history_buffer.py:13-19 | appending any number of elements never exceeds the bound |
| Deque.AppendBelowBound | utils/history_buffer.py:13-19 | below the bound, append adds at the tail and evicts nothing |
| Deque.AppendWhenFull | utils/history_buffer.py:13-19 | on a full deque, append evicts exactly the oldest element and puts the new one last |
| Deque.AppendIsLastN | utils/history_buffer.py:13-19 | append equals "the last maxlen elements of s + [x]" |
| Deque.AppendKeepsWindow | utils/history_buffer.py:13-19 | appending to the window of a history gives the window of the extended history |
| Deque.AppendAllKeepsWindow | utils/history_buffer.py:13-19 | after any sequence of appends, a deque holds the last maxlen elements of everything appended |
| Deque.FreshDequeHoldsLastAppends | utils/history_buffer.py:3-19 | a fresh deque fed k elements holds the last min(k, maxlen) of them, oldest first |
| HistoryBuffer.RowsAfterAppend | utils/history_buffer.py:12-19 | appending one field to each of the seven aligned deques appends the whole record to the rows, including when the oldest row is evicted |
| HistoryBuffer.MetricsBuffer.constructor | utils/history_buffer.py:3-10 | seven empty deques sharing one bound |
| HistoryBuffer.MetricsBuffer.Add | utils/history_buffer.py:12-19 | each deque receives its own argument with deque semantics, the rows stay aligned, and the buffer holds the last maxlen records ever added |
| OkxWs.ParseLevels | wsclient/okx_ws.py:44-45 | the conversion succeeds exactly when every level's first two elements are numbers, and it keeps the count and the two values of each level |
| OkxWs.StoredIff | wsclient/okx_ws.py:37-54 | a frame is stored exactly when it is a books frame with a data[0] whose levels all convert, and the stored update carries data[0]'s timestamp and converted levels |
| OkxWs.BookSnapshotWellTyped | wsclient/okx_ws.py:49-54 | the stored snapshot has exactly the keys timestamp, asks, bids and timestamp_unix, with values of the kinds the consumer reads |
| OkxWs.HistoryAppend | wsclient/okx_ws.py:47-48 | a new stored book extends the asks and bids histories by exactly its sides |
| OkxWs.MarketDataClient.constructor | wsclient/okx_ws.py:11-13 | `latest_data` starts as {} and the two deques start empty |
| OkxWs.MarketDataClient.OnMessage | wsclient/okx_ws.py:31-59 | an acknowledgement or a raised exception returns with nothing changed and no sample; a stored books frame replaces `latest_data` wholesale and appends to both bounded deques; every frame that falls through records one sample `recordedAt - elapsed` |
| OkxWs.MarketDataClient.GetLatestData | wsclient/okx_ws.py:91-93 | returns `latest_data` without changing it: {} before any stored frame, otherwise the last stored frame's snapshot, well typed |
| OkxWs.RecentDequesBounded | wsclient/okx_ws.py:12-13 | the two retained deques always have equal length, at most 100 |
| OkxWs.MarketDataClient.MalformedThenValid | wsclient/okx_ws.py:31-59 | on the client, a malformed frame followed by a books frame that converts leaves that frame's snapshot in `latest_data`, stores one book more and records exactly one latency sample |
| OkxWs.ClientSampleIsStartTime | wsclient/okx_ws.py:58-59 | the sample `on_message` records is a clock reading no earlier than the frame's start, not a duration |
| OkxWs.BackoffClosedForm | wsclient/okx_ws.py:70-85 | the i-th reconnect delay is min(2^i, 60) |
| OkxWs.BackoffSequence | wsclient/okx_ws.py:70-85 | the delays run 1, 2, 4, 8, 16, 32 and then stay at 60 |
| OkxWs.ReconnectDelays | wsclient/okx_ws.py:69-85 | the loop sleeps once per pass, and pass i sleeps min(2^i, 60) whatever the pass's outcome |
| App.TierMapping | app.py:31-36 | every select-box tier maps: "Regular" to "Tier 1", the VIP names to themselves, and exactly the VIP names count as VIP |
| App.SumPricesBounds | app.py:59-60 | prices all within [lo, hi] sum to between n * lo and n * hi |
| App.MeanPriceBounds | app.py:59-60 | the mean price of a non-empty side lies between its lowest and highest price |
| App.MeanOfConstantSide | app.py:59-60 | a side whose levels all have one price has that price as its mean |
| App.Tick | app.py:53-92 | with no book, nothing changes; with a book, one call to the fee table, one latency sample and exactly one row appended to the buffer, where the row is the `TickRecord` whose contents the next two rows state |
| App.TickRecordCosts | app.py:59-76 | in the appended row, slippage = factor * spread of the side means * min(depth, q/1000), net cost = slippage + impact + fee, and latency is the recorded sample |
| App.TickRecordCharges | app.py:31-76 | in the appended row (tier mapping at lines 31-36, fee call at 74, role at 76), "Regular" is charged at Tier 1 without discount and the VIP names at their own tier with the discount; the role is "Maker" or "Taker", and "Maker" exactly when the classifier, given the same spread, puts P(maker) above 0.5 |
| App.NoBookBeforeFirstFrame | app.py:55 | before any books frame is stored, the refresh finds no book |
| App.BookAfterStoredFrame | app.py:55-84 | after a stored frame the snapshot passes the guard, and the refresh reads that frame's asks, bids and timestamp |
| App.CapacityThreeKeepsLastThree | utils/history_buffer.py:3-19 | a buffer of capacity 3 fed five records keeps the last three, oldest first |

## Left out

- The history buffer is rebuilt from scratch on every refresh (app.py:29), so
  in the running dashboard it never holds more than one row. `Tick` takes a
  buffer that outlives the call instead; the rebuild is not modelled.
- `latest_data.copy()` (wsclient/okx_ws.py:93) is a shallow copy: the level
  lists inside it are the same list objects that were appended to
  `recent_asks` and `recent_bids` (wsclient/okx_ws.py:47-52). The model copies
  by value, so that sharing is not modelled. No caller changes those lists,
  so no behaviour is lost.

- Streamlit presentation is not modelled: the layout, warnings, metrics, line
  chart and CSV download of app.py. The data-age warning (app.py:63-66) only
  displays text.
- Websocket plumbing is not modelled: connecting, the subscribe message in
  `on_open`, `on_error` and `on_close`, and the ping settings. A failed or
  closed connection is one `AttemptEnd` value of `ReconnectDelays`, and the
  loop is modelled over a finite prefix of its passes.
- Threads and the lock are left out. Every operation runs sequentially, so
  code that runs under `with lock:` is atomic anyway. Samples that the client
  thread and a refresh interleave in the shared latency list are not
  modelled.
- `json.loads` and dictionary access on a frame are not modelled. A frame
  comes already classified (`Frame`). `Malformed` covers text that is not
  JSON and frames where a key the code indexes is missing:
  `data["arg"]["channel"]` once `arg` is present, `data["data"][0]`, `ts`,
  `asks` or `bids` (wsclient/okx_ws.py:41-45). These frames take the
  exception path. A frame without an `arg` key that is not a subscribe
  acknowledgement, such as `{}` or an error event, fails the `"arg" in data`
  test of line 41, so nothing is indexed. It is `OtherFrame`, leaves
  `latest_data` as it was and records a latency sample.
- The `print` logging in every function is left out.
- `time.time()`, `time.sleep` and `time.strftime` are left out. Clock
  readings and the fallback wall-clock string are parameters, and the sleeps
  are returned as a sequence.
- The maker/taker classifier (`predict_maker_taker`, `load_model`,
  train_model.py) is left out. The logistic model and its arrays are foreign
  code, so the model takes its P(maker) as a function parameter and models
  only the 0.5 threshold. The `FileNotFoundError` of `load_model` is not
  modelled.
- ui/dashboard.py is not part of this model.
- Floating point is modelled as exact reals, and display rounding is left
  out.
- The source's `ZeroDivisionError` is not modelled as an error path.
  `SlippageModel.EstimateSlippage` requires a non-zero quantity and
  `ImpactModel.EstimateMarketImpact` a non-zero volume. Every refresh stays
  inside both domains, because quantity is at least 10 and volume is the
  constant 1e6.
- App.Tick: requires the select-box domains (a tier from the four names,
  quantity 10 to 10000, volatility 0 to 1), because the widgets cannot
  produce other values. It does not model the `KeyError` of an unlisted tier
  name; `InternalTier` returns `None` for that case.
- OkxWs.MarketDataClient.OnMessage: a books frame's `ts` is taken as text,
  and other JSON types in that field are not distinguished.

## Findings

| source | as written | input that shows it | evidently intended | confidence | as-written member | corrected member |
|---|---|---|---|---|---|---|
| models/fee_model.py:28-34 | the VIP discount is multiplied into the shared `FEE_TIERS` entry, so every VIP call lowers the rate for all later calls | `calculate_fees(1000, "VIP 1", is_maker=True, is_vip=True)` twice on a fresh table: 0.36, then 0.324 | a 10% discount on the tier's rate for that call only, leaving the table alone | not executed | FeeModel.VipCallsCompound | FeeModel.DiscountedFeeIsRepeatable |
| wsclient/okx_ws.py:58-59 | the measured duration `latency` is passed to `record_latency`, which treats its argument as a start time and stores `time.time() - latency` | a frame handled from clock 1000.0 to 1000.5, recorded at 1000.5, stores 1000.0 instead of 0.5 | record the duration, i.e. `record_latency(start_time)`, which stores end - start | not executed | OkxWs.ClientSampleIsStartTime | Latency.LatencyTracker.RecordLatency |
