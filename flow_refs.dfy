/** The meter's list of references to the flows that use it, and the sums
    of the flows' counters taken over that list (meter_entry.c,
    meter_entry_del_flow_ref and alta_meter_entry_count). */
module FlowRefs {
  import opened MeterTypes

  /** No flow is referenced twice. */
  predicate NoDup(refs: seq<FlowId>)
    decreases |refs|
  {
    refs == [] || (NoDup(refs[..|refs| - 1]) && refs[|refs| - 1] !in refs[..|refs| - 1])
  }

  /** The list with every reference to `fe` unlinked, the others kept in
      order: one pass of the deleting loop over the whole list. */
  function RemoveAll(refs: seq<FlowId>, fe: FlowId): (r: seq<FlowId>)
    ensures fe !in r
    ensures |r| <= |refs|
    decreases |refs|
  {
    if refs == [] then []
    else
      var n := |refs| - 1;
      RemoveAll(refs[..n], fe) + (if refs[n] == fe then [] else [refs[n]])
  }

  /** Deleting a flow keeps every other flow referenced and references no
      new one. */
  lemma {:induction false} RemoveAllKeepsOthers(refs: seq<FlowId>, fe: FlowId)
    ensures forall g :: g != fe ==> (g in RemoveAll(refs, fe) <==> g in refs)
    decreases |refs|
  {
    if refs != [] {
      var n := |refs| - 1;
      assert refs == refs[..n] + [refs[n]];
      RemoveAllKeepsOthers(refs[..n], fe);
    }
  }

  /** Deleting a flow from a duplicate-free list unlinks exactly one node
      when the flow is present, and none when it is absent, in which case
      the list is unchanged; the list stays duplicate-free. */
  lemma RemoveAllOnce(refs: seq<FlowId>, fe: FlowId)
    requires NoDup(refs)
    ensures |RemoveAll(refs, fe)| == |refs| - (if fe in refs then 1 else 0)
    ensures fe !in refs ==> RemoveAll(refs, fe) == refs
    ensures NoDup(RemoveAll(refs, fe))
  {
    RemoveAllCount(refs, fe);
    RemoveAllKeepsNoDup(refs, fe);
  }

  lemma {:induction false} RemoveAllCount(refs: seq<FlowId>, fe: FlowId)
    requires NoDup(refs)
    ensures |RemoveAll(refs, fe)| == |refs| - (if fe in refs then 1 else 0)
    ensures fe !in refs ==> RemoveAll(refs, fe) == refs
    decreases |refs|
  {
    if refs != [] {
      var n := |refs| - 1;
      var front := refs[..n];
      assert refs == front + [refs[n]];
      RemoveAllCount(front, fe);
      if refs[n] == fe {
        assert fe !in front;
      }
    }
  }

  lemma {:induction false} RemoveAllKeepsNoDup(refs: seq<FlowId>, fe: FlowId)
    requires NoDup(refs)
    ensures NoDup(RemoveAll(refs, fe))
    decreases |refs|
  {
    if refs != [] {
      var n := |refs| - 1;
      var front := refs[..n];
      RemoveAllKeepsNoDup(front, fe);
      var rest := RemoveAll(front, fe);
      if refs[n] != fe {
        RemoveAllKeepsOthers(front, fe);
        assert refs[n] !in rest;
        assert (rest + [refs[n]])[..|rest|] == rest;
      } else {
        assert RemoveAll(refs, fe) == rest + [] == rest;
      }
    }
  }

  /** Deleting a flow that is not referenced leaves the list as it is,
      duplicates or not. */
  lemma {:induction false} RemoveAbsent(refs: seq<FlowId>, fe: FlowId)
    requires fe !in refs
    ensures RemoveAll(refs, fe) == refs
    decreases |refs|
  {
    if refs != [] {
      var n := |refs| - 1;
      assert refs == refs[..n] + [refs[n]];
      RemoveAbsent(refs[..n], fe);
    }
  }

  /** Deleting is idempotent: a second delete of the same flow changes
      nothing. */
  lemma RemoveAllIdempotent(refs: seq<FlowId>, fe: FlowId)
    ensures RemoveAll(RemoveAll(refs, fe), fe) == RemoveAll(refs, fe)
  {
    RemoveAbsent(RemoveAll(refs, fe), fe);
  }

  /** Adding a new flow and deleting it again restores the list. */
  lemma AddThenRemove(refs: seq<FlowId>, fe: FlowId)
    requires fe !in refs
    ensures RemoveAll(refs + [fe], fe) == refs
  {
    assert (refs + [fe])[..|refs|] == refs;
    RemoveAbsent(refs, fe);
  }

  /** Visiting node `i` of the deleting walk keeps it or unlinks it
      according to whether it refers to `fe`. */
  lemma RemoveAllStep(refs: seq<FlowId>, i: nat, fe: FlowId)
    requires i < |refs|
    ensures RemoveAll(refs[..i + 1], fe)
              == RemoveAll(refs[..i], fe) + (if refs[i] == fe then [] else [refs[i]])
  {
    assert refs[..i + 1][..i] == refs[..i];
  }

  /** The list during the walk: the kept part of the visited nodes followed
      by the unvisited ones, with the next node right after the kept part.
      Unlinking that node, or stepping past it, gives the same shape one
      node further on. */
  lemma SpliceNext(kept: seq<FlowId>, rest: seq<FlowId>, cur: seq<FlowId>)
    requires rest != [] && cur == kept + rest
    ensures |kept| < |cur| && cur[|kept|] == rest[0]
    ensures cur[..|kept|] + cur[|kept| + 1..] == kept + rest[1..]
    ensures cur == (kept + [rest[0]]) + rest[1..]
  {
    assert cur[..|kept|] == kept;
    assert cur[|kept| + 1..] == rest[1..];
  }

  /** The sum of `counts` over the referenced flows. */
  function Total(refs: seq<FlowId>, counts: map<FlowId, nat>): nat
    requires forall g :: g in refs ==> g in counts
    decreases |refs|
  {
    if refs == [] then 0
    else
      var n := |refs| - 1;
      Total(refs[..n], counts) + counts[refs[n]]
  }

  /** Per-flow packet counts. */
  function PacketCounts(flows: map<FlowId, FlowCounters>): (m: map<FlowId, nat>)
    ensures m.Keys == flows.Keys
    ensures forall g :: g in flows ==> m[g] == flows[g].packetCount
  {
    map g | g in flows :: flows[g].packetCount
  }

  /** Per-flow byte counts. */
  function ByteCounts(flows: map<FlowId, FlowCounters>): (m: map<FlowId, nat>)
    ensures m.Keys == flows.Keys
    ensures forall g :: g in flows ==> m[g] == flows[g].byteCount
  {
    map g | g in flows :: flows[g].byteCount
  }

  /** Adding a new flow to the list adds its counters to the total. */
  lemma TotalAppend(refs: seq<FlowId>, counts: map<FlowId, nat>, fe: FlowId)
    requires forall g :: g in refs ==> g in counts
    requires fe in counts
    ensures Total(refs + [fe], counts) == Total(refs, counts) + counts[fe]
  {
    assert (refs + [fe])[..|refs|] == refs;
  }

  /** Deleting a flow from a duplicate-free list takes exactly its counters
      out of the aggregate, and nothing when it is not referenced. */
  lemma {:induction false} TotalAfterRemove(refs: seq<FlowId>, counts: map<FlowId, nat>, fe: FlowId)
    requires NoDup(refs)
    requires forall g :: g in refs ==> g in counts
    ensures forall g :: g in RemoveAll(refs, fe) ==> g in counts
    ensures Total(RemoveAll(refs, fe), counts) + (if fe in refs then counts[fe] else 0) == Total(refs, counts)
    decreases |refs|
  {
    RemoveAllKeepsOthers(refs, fe);
    if refs != [] {
      var n := |refs| - 1;
      var front := refs[..n];
      assert refs == front + [refs[n]];
      assert NoDup(front);
      RemoveAllKeepsOthers(front, fe);
      TotalAfterRemove(front, counts, fe);
      var rest := RemoveAll(front, fe);
      if refs[n] != fe {
        TotalAppend(rest, counts, refs[n]);
      } else {
        assert refs[n] !in front;
        assert RemoveAll(refs, fe) == rest + [] == rest;
        assert Total(refs, counts) == Total(front, counts) + counts[fe];
      }
    }
  }
}
