/**
 * The latency recorder of utils/latency.py: a process-wide list of samples
 * that only grows, and an accessor for the most recent one. The clock reading
 * `time.time()` is a parameter `now`.
 */
module Latency {

  import opened Optional

  /** The most recent sample, or None when there is none. */
  function Latest(records: seq<real>): Option<real>
  {
    if records == [] then None else Some(records[|records| - 1])
  }

  /** The global `latency_records` list and its two operations. */
  class LatencyTracker {
    var records: seq<real>

    constructor ()
      ensures records == []
    {
      records := [];
    }

    /** `record_latency(start_time)`, with `now` the clock reading taken inside it. */
    method RecordLatency(startTime: real, now: real) returns (latency: real)
      modifies this
      ensures latency == now - startTime
      ensures records == old(records) + [latency]
    {
      latency := now - startTime;
      records := records + [latency];
    }

    /** `get_latest_latency()`: reads the list and leaves it as it is. */
    method GetLatestLatency() returns (r: Option<real>)
      ensures r == Latest(records)
      ensures r.None? <==> |records| == 0
    {
      if |records| > 0 {
        r := Some(records[|records| - 1]);
      } else {
        r := None;
      }
    }
  }

  /** After a sample is appended, the latest sample is that one. */
  lemma LatestAfterRecord(records: seq<real>, sample: real)
    ensures Latest(records + [sample]) == Some(sample)
  {
  }

  /**
   * `latency_records` after one `LatencyTracker.RecordLatency` call per sample,
   * in order: each call appends its sample, as that method's postcondition
   * states. `RecordAllAppends` shows that every earlier sample stays in place
   * and the list grows by exactly the number of calls.
   */
  function RecordAll(records: seq<real>, samples: seq<real>): (r: seq<real>)
    decreases |samples|
  {
    if samples == [] then records else RecordAll(records + [samples[0]], samples[1..])
  }

  lemma {:induction false} RecordAllAppends(records: seq<real>, samples: seq<real>)
    ensures RecordAll(records, samples) == records + samples
    ensures |RecordAll(records, samples)| == |records| + |samples|
    decreases |samples|
  {
    if samples != [] {
      RecordAllAppends(records + [samples[0]], samples[1..]);
      assert records + [samples[0]] + samples[1..] == records + samples;
    }
  }
}
