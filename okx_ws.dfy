/**
 * The order-book client of wsclient/okx_ws.py with the socket and the thread
 * taken away. Frames arrive already decoded from JSON (`Frame`); the lock is
 * sequential execution; `time.time()` readings are parameters. What remains:
 * the handling of one frame (`on_message`), the wholesale replacement of
 * `latest_data`, the two bounded `recent_asks`/`recent_bids` deques, the copy
 * `get_latest_data` returns, and the reconnect delays of `run_ws`.
 */
module OkxWs {

  import opened Optional
  import Deque
  import Latency

  /** `deque(maxlen=100)` for `recent_asks` and `recent_bids`. */
  const RecentCapacity: nat := 100
  /** The longest reconnect delay, in seconds. */
  const MaxBackoff: nat := 60

  /** One element of a price level as `float(...)` sees it: a number or text it rejects. */
  datatype Token = Numeric(value: real) | NonNumeric

  /** One level of the venue's book: `[priceStr, sizeStr, ...]`. */
  type RawLevel = seq<Token>

  /** A converted level: `[float(p[0]), float(p[1])]`. */
  datatype Level = Level(price: real, size: real)

  /** `data[i]` of a books frame: `ts`, `asks` and `bids`. */
  datatype BookData = BookData(ts: string, asks: seq<RawLevel>, bids: seq<RawLevel>)

  /**
   * A frame after `json.loads`:
   * SubscribeAck: `event == "subscribe"` (matched first, so an acknowledgement
   *   is this case even though it also names the books channel);
   * BooksUpdate: a frame that is not an acknowledgement and has
   *   `arg.channel == "books"`, with its `data` list;
   * OtherFrame: any other well-formed frame;
   * Malformed: text that is not JSON, or a frame whose field access raises.
   */
  datatype Frame = SubscribeAck | BooksUpdate(data: seq<BookData>) | OtherFrame | Malformed

  /** A value of the `latest_data` dictionary. */
  datatype Field = Text(text: string) | Levels(levels: seq<Level>) | Number(number: real)

  /** The `latest_data` dictionary. */
  type Snapshot = map<string, Field>

  /** Both leading elements convert to numbers; the rest of the level is ignored. */
  predicate LevelParses(p: RawLevel)
  {
    |p| >= 2 && p[0].Numeric? && p[1].Numeric?
  }

  /** `[[float(p[0]), float(p[1])] for p in levels]`, None when a conversion raises. */
  function ParseLevels(levels: seq<RawLevel>): (r: Option<seq<Level>>)
    ensures r.Some? <==> forall i :: 0 <= i < |levels| ==> LevelParses(levels[i])
    ensures r.Some? ==> |r.value| == |levels|
    ensures r.Some? ==> forall i :: 0 <= i < |levels| ==>
                          r.value[i] == Level(levels[i][0].value, levels[i][1].value)
  {
    if levels == [] then Some([])
    else if !LevelParses(levels[0]) then None
    else match ParseLevels(levels[1..])
      case None => None
      case Some(rest) => Some([Level(levels[0][0].value, levels[0][1].value)] + rest)
  }

  /** The parsed content of a books frame. */
  datatype Update = Update(ts: string, asks: seq<Level>, bids: seq<Level>)

  /** What handling a frame does to the client's state. */
  datatype Effect =
    | NoEffect      // returned early: an acknowledgement, or an exception was caught
    | Store(update: Update)
    | SampleOnly    // fell through both branches: only the latency sample is taken

  /** The branch `on_message` takes for a frame. */
  function Dispatch(f: Frame): Effect
  {
    match f
    case SubscribeAck => NoEffect
    case Malformed => NoEffect
    case OtherFrame => SampleOnly
    case BooksUpdate(data) =>
      if |data| == 0 then NoEffect
      else
        match (ParseLevels(data[0].asks), ParseLevels(data[0].bids))
        case (Some(asks), Some(bids)) => Store(Update(data[0].ts, asks, bids))
        case _ => NoEffect
  }

  /** The dictionary a stored books frame leaves in `latest_data`. */
  function BookSnapshot(u: Update, receivedAt: real): Snapshot
  {
    map["timestamp" := Text(u.ts), "asks" := Levels(u.asks), "bids" := Levels(u.bids),
        "timestamp_unix" := Number(receivedAt)]
  }

  /** Every key the consumer reads holds a value of the kind it expects. */
  predicate WellTyped(s: Snapshot)
  {
    && ("timestamp" in s ==> s["timestamp"].Text?)
    && ("asks" in s ==> s["asks"].Levels?)
    && ("bids" in s ==> s["bids"].Levels?)
  }

  /** A books frame is stored exactly when data[0] exists and every level of both sides converts. */
  lemma StoredIff(f: Frame)
    ensures Dispatch(f).Store? <==>
              && f.BooksUpdate? && |f.data| > 0
              && (forall i :: 0 <= i < |f.data[0].asks| ==> LevelParses(f.data[0].asks[i]))
              && (forall i :: 0 <= i < |f.data[0].bids| ==> LevelParses(f.data[0].bids[i]))
    ensures Dispatch(f).Store? ==>
              && Dispatch(f).update.ts == f.data[0].ts
              && |Dispatch(f).update.asks| == |f.data[0].asks|
              && |Dispatch(f).update.bids| == |f.data[0].bids|
              && (forall i :: 0 <= i < |f.data[0].asks| ==>
                    Dispatch(f).update.asks[i] == Level(f.data[0].asks[i][0].value, f.data[0].asks[i][1].value))
              && (forall i :: 0 <= i < |f.data[0].bids| ==>
                    Dispatch(f).update.bids[i] == Level(f.data[0].bids[i][0].value, f.data[0].bids[i][1].value))
  {
  }

  /** A stored frame's snapshot is well typed and carries the frame's own values. */
  lemma BookSnapshotWellTyped(u: Update, receivedAt: real)
    ensures WellTyped(BookSnapshot(u, receivedAt))
    ensures BookSnapshot(u, receivedAt)["asks"] == Levels(u.asks)
    ensures BookSnapshot(u, receivedAt)["bids"] == Levels(u.bids)
    ensures BookSnapshot(u, receivedAt).Keys == {"timestamp", "asks", "bids", "timestamp_unix"}
  {
  }

  /** A stored frame together with the clock reading taken when it was stored. */
  datatype StoredBook = StoredBook(update: Update, receivedAt: real)

  /** `latest_data` after the stored books `h`: the last one's snapshot, or `{}`. */
  function LatestOf(h: seq<StoredBook>): Snapshot
  {
    if h == [] then map[] else BookSnapshot(h[|h| - 1].update, h[|h| - 1].receivedAt)
  }

  function AsksOf(h: seq<StoredBook>): seq<seq<Level>>
  {
    seq(|h|, i requires 0 <= i < |h| => h[i].update.asks)
  }

  function BidsOf(h: seq<StoredBook>): seq<seq<Level>>
  {
    seq(|h|, i requires 0 <= i < |h| => h[i].update.bids)
  }

  /** A new stored book moves the window of asks (or bids) along by exactly one. */
  lemma HistoryAppend(h: seq<StoredBook>, b: StoredBook)
    ensures AsksOf(h + [b]) == AsksOf(h) + [b.update.asks]
    ensures BidsOf(h + [b]) == BidsOf(h) + [b.update.bids]
  {
  }

  /** The shared state of the module: `latest_data`, `recent_asks`, `recent_bids`. */
  class MarketDataClient {
    var latestData: Snapshot
    var recentAsks: seq<seq<Level>>
    var recentBids: seq<seq<Level>>
    /** The shared latency recorder `on_message` appends to. */
    const latency: Latency.LatencyTracker

    /** Every books frame stored so far, oldest first. */
    ghost var stored: seq<StoredBook>

    /**
     * `latest_data` is the last stored frame's snapshot (or `{}`), and the two
     * deques hold the asks and bids of the last 100 stored frames.
     */
    ghost predicate Valid()
      reads this
    {
      && latestData == LatestOf(stored)
      && recentAsks == Deque.LastN(AsksOf(stored), RecentCapacity)
      && recentBids == Deque.LastN(BidsOf(stored), RecentCapacity)
    }

    constructor (latency: Latency.LatencyTracker)
      ensures Valid()
      ensures this.latency == latency
      ensures stored == [] && latestData == map[] && recentAsks == [] && recentBids == []
    {
      this.latency := latency;
      latestData := map[];
      recentAsks := [];
      recentBids := [];
      stored := [];
    }

    /**
     * `on_message(ws, message)`. `receivedAt` is the clock reading stored as
     * `timestamp_unix`; `elapsed` is the duration computed after the update and
     * `recordedAt` the clock reading inside `record_latency(elapsed)`.
     */
    method OnMessage(frame: Frame, receivedAt: real, elapsed: real, recordedAt: real)
      requires Valid()
      modifies this, latency
      ensures Valid()
      ensures Dispatch(frame).NoEffect? ==>
                && stored == old(stored) && latestData == old(latestData)
                && recentAsks == old(recentAsks) && recentBids == old(recentBids)
                && latency.records == old(latency.records)
      ensures Dispatch(frame).SampleOnly? ==>
                && stored == old(stored) && latestData == old(latestData)
                && recentAsks == old(recentAsks) && recentBids == old(recentBids)
                && latency.records == old(latency.records) + [recordedAt - elapsed]
      ensures Dispatch(frame).Store? ==>
                && stored == old(stored) + [StoredBook(Dispatch(frame).update, receivedAt)]
                && latestData == BookSnapshot(Dispatch(frame).update, receivedAt)
                && recentAsks == Deque.Append(old(recentAsks), Dispatch(frame).update.asks, RecentCapacity)
                && recentBids == Deque.Append(old(recentBids), Dispatch(frame).update.bids, RecentCapacity)
                && latency.records == old(latency.records) + [recordedAt - elapsed]
    {
      match frame {
        case SubscribeAck =>
          return;
        case Malformed =>
          return;
        case OtherFrame =>
        case BooksUpdate(data) =>
          if |data| == 0 {
            return;
          }
          var asks := ParseLevels(data[0].asks);
          var bids := ParseLevels(data[0].bids);
          if asks.None? || bids.None? {
            return;
          }
          var u := Update(data[0].ts, asks.value, bids.value);
          var b := StoredBook(u, receivedAt);
          Deque.AppendKeepsWindow(AsksOf(stored), u.asks, RecentCapacity);
          Deque.AppendKeepsWindow(BidsOf(stored), u.bids, RecentCapacity);
          HistoryAppend(stored, b);
          recentAsks := Deque.Append(recentAsks, u.asks, RecentCapacity);
          recentBids := Deque.Append(recentBids, u.bids, RecentCapacity);
          latestData := BookSnapshot(u, receivedAt);
          stored := stored + [b];
      }
      var _ := latency.RecordLatency(elapsed, recordedAt);
    }

    /**
     * A malformed frame followed by a books frame that converts: the malformed
     * one changes nothing and takes no sample, so afterwards the snapshot is
     * the second frame's, one book more is stored, and one sample was taken.
     */
    method MalformedThenValid(f: Frame, t1: real, e1: real, r1: real, t2: real, e2: real, r2: real)
      requires Valid() && Dispatch(f).Store?
      modifies this, latency
      ensures Valid()
      ensures latestData == BookSnapshot(Dispatch(f).update, t2)
      ensures stored == old(stored) + [StoredBook(Dispatch(f).update, t2)]
      ensures latency.records == old(latency.records) + [r2 - e2]
    {
      OnMessage(Malformed, t1, e1, r1);
      OnMessage(f, t2, e2, r2);
    }

    /** `get_latest_data()`: a copy of `latest_data`, which stays as it is. */
    method GetLatestData() returns (snapshot: Snapshot)
      requires Valid()
      ensures snapshot == latestData
      ensures stored == [] ==> snapshot == map[]
      ensures stored != [] ==>
                snapshot == BookSnapshot(stored[|stored| - 1].update, stored[|stored| - 1].receivedAt)
      ensures WellTyped(snapshot)
    {
      snapshot := latestData;
      if stored != [] {
        BookSnapshotWellTyped(stored[|stored| - 1].update, stored[|stored| - 1].receivedAt);
      }
    }
  }

  /** The retained deques never exceed 100 entries and always have equal length. */
  lemma RecentDequesBounded(h: seq<StoredBook>)
    ensures |Deque.LastN(AsksOf(h), RecentCapacity)| == |Deque.LastN(BidsOf(h), RecentCapacity)|
    ensures |Deque.LastN(AsksOf(h), RecentCapacity)| <= RecentCapacity
  {
  }

  /**
   * As written, `on_message` hands the measured duration to `record_latency`,
   * which subtracts its argument from the clock, so the sample is a clock
   * reading no earlier than the frame's start rather than a duration: a frame
   * handled from 1000.0 to 1000.5 and recorded at 1000.5 stores 1000.0, not 0.5.
   */
  lemma ClientSampleIsStartTime(startTime: real, endTime: real, recordedAt: real)
    requires startTime <= endTime <= recordedAt
    ensures var sample := recordedAt - (endTime - startTime);
            && startTime <= sample
            && (recordedAt == endTime ==> sample == startTime)
    ensures var sample := 1000.5 - (1000.5 - 1000.0);
            sample == 1000.0 && sample != 1000.5 - 1000.0
  {
  }

  // ---- run_ws: reconnect delays ----

  /** How one pass of the `run_ws` loop ended; the loop does not look at it. */
  datatype AttemptEnd = ClosedAfterOpen | FailedToConnect

  /** `backoff = min(backoff * 2, 60)`. */
  function NextBackoff(b: nat): nat
  {
    if b * 2 <= MaxBackoff then b * 2 else MaxBackoff
  }

  /** The delay after the i-th pass (from 0), as the loop computes it. */
  function BackoffAt(i: nat): (b: nat)
  {
    if i == 0 then 1 else NextBackoff(BackoffAt(i - 1))
  }

  function Pow2(n: nat): (r: nat)
    ensures 1 <= r
  {
    if n == 0 then 1 else 2 * Pow2(n - 1)
  }

  /** Closed form: the i-th delay is min(2^i, 60). */
  lemma {:induction false} BackoffClosedForm(i: nat)
    ensures BackoffAt(i) == if Pow2(i) <= MaxBackoff then Pow2(i) else MaxBackoff
  {
    if i > 0 {
      BackoffClosedForm(i - 1);
      if Pow2(i - 1) > MaxBackoff {
        assert Pow2(i) > MaxBackoff;
      }
    }
  }

  /** The delays run 1, 2, 4, 8, 16, 32 and then stay at 60. */
  lemma {:induction false} BackoffSequence(i: nat)
    ensures BackoffAt(0) == 1 && BackoffAt(1) == 2 && BackoffAt(2) == 4 && BackoffAt(3) == 8
    ensures BackoffAt(4) == 16 && BackoffAt(5) == 32
    ensures 6 <= i ==> BackoffAt(i) == MaxBackoff
  {
    assert BackoffAt(5) == 32;
    if 6 <= i {
      if i > 6 {
        BackoffSequence(i - 1);
      }
    }
  }

  /**
   * The sleeps of the first |attempts| passes of `run_ws`'s `while True` loop.
   * Because `backoff` is never reset, the delays do not depend on how each
   * pass ended.
   */
  method ReconnectDelays(attempts: seq<AttemptEnd>) returns (sleeps: seq<nat>)
    ensures |sleeps| == |attempts|
    ensures forall i :: 0 <= i < |sleeps| ==>
              sleeps[i] == if Pow2(i) <= MaxBackoff then Pow2(i) else MaxBackoff
  {
    var backoff := 1;
    sleeps := [];
    var k := 0;
    while k < |attempts|
      invariant 0 <= k <= |attempts|
      invariant |sleeps| == k
      invariant backoff == BackoffAt(k)
      invariant forall i :: 0 <= i < k ==>
                  sleeps[i] == if Pow2(i) <= MaxBackoff then Pow2(i) else MaxBackoff
    {
      BackoffClosedForm(k);
      sleeps := sleeps + [backoff];
      backoff := NextBackoff(backoff);
      k := k + 1;
    }
  }
}
