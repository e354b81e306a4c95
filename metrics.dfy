/**
 * The metrics registry the poller writes: one optional upstream `u64` gauge
 * and a gauge vector of downstream `u64` slots labelled by node id. Labels
 * other than `node_id`, registration and the text encoding are not modelled.
 */
module Metrics {

  import opened Wrappers
  import opened Rpc

  /**
   * The registry's observable state: the upstream gauge's value (`None` when
   * the gauge is not registered) and one value per labelled downstream gauge.
   */
  datatype Gauges = Gauges(upstream: Option<u64>, downstream: map<string, u64>)

  /**
   * The downstream gauges after a round: every id observed with a slot is set
   * to it, every id observed without one is removed, the rest are kept.
   */
  function ApplyDownstream(before: map<string, u64>, observed: map<string, Option<u64>>): (after: map<string, u64>)
    ensures forall id :: id in observed && observed[id].Some? ==> id in after && after[id] == observed[id].value
    ensures forall id :: id in observed && observed[id].None? ==> id !in after
    ensures forall id :: id !in observed ==>
      (id in after <==> id in before) && (id in after ==> after[id] == before[id])
  {
    (before - observed.Keys) + map id | id in observed && observed[id].Some? :: observed[id].value
  }

  /** The upstream gauge after a round: overwritten when both the slot and the gauge exist. */
  function ApplyUpstream(gauge: Option<u64>, slot: Option<u64>): (after: Option<u64>)
    ensures after.Some? == gauge.Some?
    ensures gauge.Some? && slot.Some? ==> after == slot
    ensures slot.None? ==> after == gauge
  {
    if gauge.Some? && slot.Some? then slot else gauge
  }

  class Registry {
    /** `metrics.upstream_slot`: `None` when upstream tracking is disabled. */
    var upstream: Option<u64>
    /** `metrics.downstream_slots`, indexed by the `node_id` label. */
    var downstream: map<string, u64>

    function State(): Gauges
      reads this
    {
      Gauges(upstream, downstream)
    }

    /** `Metrics::new`: an upstream gauge (at 0) exactly when upstream tracking is on, no downstream series. */
    constructor (upstreamEnabled: bool)
      ensures upstream == (if upstreamEnabled then Some(0) else None)
      ensures downstream == map[]
    {
      upstream := if upstreamEnabled then Some(0) else None;
      downstream := map[];
    }

    /** `gauge.set(slot)` on the registered upstream gauge. */
    method SetUpstream(slot: u64)
      requires upstream.Some?
      modifies this
      ensures upstream == Some(slot) && downstream == old(downstream)
    {
      upstream := Some(slot);
    }

    /** `with_label_values(&[id]).set(slot)`: creates the series when absent. */
    method SetDownstream(id: string, slot: u64)
      modifies this
      ensures downstream == old(downstream)[id := slot] && upstream == old(upstream)
    {
      downstream := downstream[id := slot];
    }

    /** `remove_label_values(&[id])`: reports whether a series was removed; absent is not a change. */
    method RemoveDownstream(id: string) returns (removed: bool)
      modifies this
      ensures removed == (id in old(downstream))
      ensures downstream == old(downstream) - {id} && upstream == old(upstream)
    {
      removed := id in downstream;
      downstream := downstream - {id};
    }
  }
}
