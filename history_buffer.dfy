/**
 * `MetricsBuffer` of utils/history_buffer.py: seven parallel deques, all with
 * the same `maxlen`, that `add` appends to together. The model keeps the seven
 * fields as sequences and a ghost record of everything ever added; its object
 * invariant says the fields line up, row by row, with the last `maxlen`
 * records added.
 */
module HistoryBuffer {

  import Deque

  /** One row across the seven deques. */
  datatype MetricsRecord = MetricsRecord(
    timestamp: string,
    slippage: real,
    impact: real,
    fee: real,
    netCost: real,
    latency: real,
    makerTakerRole: string)

  /** Reads the seven parallel sequences as rows. */
  function Rows(timestamps: seq<string>, slippages: seq<real>, impacts: seq<real>, fees: seq<real>,
                netCosts: seq<real>, latencies: seq<real>, roles: seq<string>): seq<MetricsRecord>
    requires |slippages| == |impacts| == |fees| == |netCosts| == |latencies| == |roles| == |timestamps|
  {
    seq(|timestamps|, i requires 0 <= i < |timestamps| =>
      MetricsRecord(timestamps[i], slippages[i], impacts[i], fees[i], netCosts[i], latencies[i], roles[i]))
  }

  /**
   * Appending one field of `rec` to each of the seven aligned deques is the
   * same as appending `rec` to their rows: the deques stay aligned index by
   * index, including when the oldest row is evicted.
   */
  lemma RowsAfterAppend(timestamps: seq<string>, slippages: seq<real>, impacts: seq<real>,
                        fees: seq<real>, netCosts: seq<real>, latencies: seq<real>,
                        roles: seq<string>, rec: MetricsRecord, maxlen: nat)
    requires |slippages| == |impacts| == |fees| == |netCosts| == |latencies| == |roles| == |timestamps|
    requires |timestamps| <= maxlen
    ensures Rows(Deque.Append(timestamps, rec.timestamp, maxlen), Deque.Append(slippages, rec.slippage, maxlen),
                 Deque.Append(impacts, rec.impact, maxlen), Deque.Append(fees, rec.fee, maxlen),
                 Deque.Append(netCosts, rec.netCost, maxlen), Deque.Append(latencies, rec.latency, maxlen),
                 Deque.Append(roles, rec.makerTakerRole, maxlen))
            == Deque.Append(Rows(timestamps, slippages, impacts, fees, netCosts, latencies, roles), rec, maxlen)
  {
  }

  class MetricsBuffer {
    const maxlen: nat
    var timestamps: seq<string>
    var slippages: seq<real>
    var impacts: seq<real>
    var fees: seq<real>
    var netCosts: seq<real>
    var latencies: seq<real>
    var makerTakerRoles: seq<string>

    /** Every record ever passed to `add`, oldest first. */
    ghost var added: seq<MetricsRecord>

    ghost predicate Aligned()
      reads this
    {
      |slippages| == |impacts| == |fees| == |netCosts| == |latencies| == |makerTakerRoles| == |timestamps|
    }

    /** The records the buffer holds, read row by row. */
    ghost function Contents(): seq<MetricsRecord>
      reads this
      requires Aligned()
    {
      Rows(timestamps, slippages, impacts, fees, netCosts, latencies, makerTakerRoles)
    }

    /** Equal lengths, at most `maxlen`, and the rows are the last `maxlen` records added. */
    ghost predicate Valid()
      reads this
    {
      && Aligned()
      && |timestamps| <= maxlen
      && Contents() == Deque.LastN(added, maxlen)
    }

    constructor (maxlen: nat)
      ensures Valid()
      ensures this.maxlen == maxlen && added == []
      ensures timestamps == [] && slippages == [] && impacts == [] && fees == []
      ensures netCosts == [] && latencies == [] && makerTakerRoles == []
    {
      this.maxlen := maxlen;
      timestamps, slippages, impacts, fees := [], [], [], [];
      netCosts, latencies, makerTakerRoles := [], [], [];
      added := [];
    }

    /** `add(...)`: each argument goes to the tail of its own deque. */
    method Add(timestamp: string, slippage: real, impact: real, fee: real, netCost: real,
               latency: real, makerTakerRole: string)
      requires Valid()
      modifies this
      ensures Valid()
      ensures added == old(added) + [MetricsRecord(timestamp, slippage, impact, fee, netCost,
                                                   latency, makerTakerRole)]
      ensures Contents() == Deque.Append(old(Contents()), added[|added| - 1], maxlen)
      ensures timestamps == Deque.Append(old(timestamps), timestamp, maxlen)
      ensures slippages == Deque.Append(old(slippages), slippage, maxlen)
      ensures impacts == Deque.Append(old(impacts), impact, maxlen)
      ensures fees == Deque.Append(old(fees), fee, maxlen)
      ensures netCosts == Deque.Append(old(netCosts), netCost, maxlen)
      ensures latencies == Deque.Append(old(latencies), latency, maxlen)
      ensures makerTakerRoles == Deque.Append(old(makerTakerRoles), makerTakerRole, maxlen)
    {
      var rec := MetricsRecord(timestamp, slippage, impact, fee, netCost, latency, makerTakerRole);
      RowsAfterAppend(timestamps, slippages, impacts, fees, netCosts, latencies, makerTakerRoles, rec, maxlen);
      timestamps := Deque.Append(timestamps, timestamp, maxlen);
      slippages := Deque.Append(slippages, slippage, maxlen);
      impacts := Deque.Append(impacts, impact, maxlen);
      fees := Deque.Append(fees, fee, maxlen);
      netCosts := Deque.Append(netCosts, netCost, maxlen);
      latencies := Deque.Append(latencies, latency, maxlen);
      makerTakerRoles := Deque.Append(makerTakerRoles, makerTakerRole, maxlen);
      Deque.AppendKeepsWindow(added, rec, maxlen);
      added := added + [rec];
    }
  }
}
