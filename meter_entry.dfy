/** A meter entry of the datapath's meter table (meter_entry.c): its
    configuration, its statistics with one token bucket per band, and the
    list of flows that refer to it. The clock is a parameter (`now`, in
    milliseconds); each charge or refill of a band is taken as one atomic
    step. */
module MeterEntries {
  import opened MeterTypes
  import opened TokenBucket
  import opened BandSelection
  import opened FlowRefs
  import opened MeterDuration

  class MeterEntry {
    // configuration, fixed at creation
    const meterId: nat
    const flags: Flags
    const bands: seq<Band>
    // per-band stats; the array itself is fixed, its elements change
    const bandStats: array<BandStats>
    const created: nat
    var modifyTime: nat
    // aggregate stats
    var packetInCount: nat
    var byteInCount: nat
    var flowCount: nat
    var durationSec: nat
    var durationNsec: nat
    // flows that refer to this meter, in insertion order
    var flowRefs: seq<FlowId>

    /** One stats slot per band; the reference count is the length of the
        reference list, which holds every flow at most once. */
    ghost predicate Valid()
      reads this
    {
      bandStats.Length == |bands| && flowCount == |flowRefs| && NoDup(flowRefs)
    }

    /** meter_entry_create: copies the band configuration; every band starts
        with an empty bucket, zero counters and its fill time at `now`. */
    constructor (meterId: nat, flags: Flags, bands: seq<Band>, now: nat)
      ensures Valid() && fresh(bandStats)
      ensures this.meterId == meterId && this.flags == flags && this.bands == bands
      ensures created == now && modifyTime == now
      ensures forall k :: 0 <= k < bandStats.Length ==> bandStats[k] == BandStats(0, 0, 0, now)
      ensures packetInCount == 0 && byteInCount == 0 && flowCount == 0 && flowRefs == []
      ensures durationSec == 0 && durationNsec == 0
    {
      var stats := new BandStats[|bands|];
      for i := 0 to |bands|
        invariant forall k :: 0 <= k < i ==> stats[k] == BandStats(0, 0, 0, now)
      {
        stats[i] := BandStats(0, 0, 0, now);
      }
      this.meterId := meterId;
      this.flags := flags;
      this.bands := bands;
      bandStats := stats;
      created := now;
      modifyTime := now;
      packetInCount, byteInCount, flowCount := 0, 0, 0;
      durationSec, durationNsec := 0, 0;
      flowRefs := [];
    }

    /** meter_entry_update: the age since creation, in seconds and the
        nanoseconds beyond them (with the unit corrected, see DurationOf). */
    method Update(now: nat)
      requires now >= created
      modifies this`durationSec, this`durationNsec
      ensures durationSec == DurationOf(now - created).sec
      ensures durationNsec == DurationOf(now - created).nsec
    {
      durationSec := (now - created) / 1000;
      durationNsec := ((now - created) % 1000) * 1_000_000;
    }

    /** alta_meter_entry_count: the aggregate counters become the sums of
        the referring flows' counters, and every band's counters are set to
        those same sums. */
    method AggregateCounts(flows: map<FlowId, FlowCounters>)
      requires Valid()
      requires forall g :: g in flowRefs ==> g in flows
      modifies this`packetInCount, this`byteInCount, bandStats
      ensures Valid()
      ensures packetInCount == Total(flowRefs, PacketCounts(flows))
      ensures byteInCount == Total(flowRefs, ByteCounts(flows))
      ensures forall k :: 0 <= k < bandStats.Length ==>
                bandStats[k] == old(bandStats[k]).(packetBandCount := packetInCount, byteBandCount := byteInCount)
    {
      packetInCount, byteInCount := 0, 0;
      var i := 0;
      while i < |flowRefs|
        modifies this`packetInCount, this`byteInCount
        invariant 0 <= i <= |flowRefs|
        invariant packetInCount == Total(flowRefs[..i], PacketCounts(flows))
        invariant byteInCount == Total(flowRefs[..i], ByteCounts(flows))
      {
        var fe := flowRefs[i];
        assert flowRefs[..i + 1] == flowRefs[..i] + [fe];
        TotalAppend(flowRefs[..i], PacketCounts(flows), fe);
        TotalAppend(flowRefs[..i], ByteCounts(flows), fe);
        packetInCount := packetInCount + flows[fe].packetCount;
        byteInCount := byteInCount + flows[fe].byteCount;
        i := i + 1;
      }
      assert flowRefs[..i] == flowRefs;
      for b := 0 to bandStats.Length
        modifies bandStats
        invariant forall k :: 0 <= k < b ==>
                    bandStats[k] == old(bandStats[k]).(packetBandCount := packetInCount, byteBandCount := byteInCount)
        invariant forall k :: b <= k < bandStats.Length ==> bandStats[k] == old(bandStats[k])
      {
        bandStats[b] := bandStats[b].(packetBandCount := packetInCount, byteBandCount := byteInCount);
      }
    }

    /** consume_tokens: charges band `i`'s bucket for a packet of `size`
        bytes and says whether the packet stayed within the band's rate. */
    method ConsumeTokens(i: nat, size: nat) returns (ok: bool)
      requires i < bandStats.Length
      modifies bandStats
      ensures ok == Charge(flags, size, old(bandStats[i].tokens)).passed
      ensures bandStats[i] == AfterCharge(flags, size, old(bandStats[i]))
      ensures forall k :: 0 <= k < bandStats.Length && k != i ==> bandStats[k] == old(bandStats[k])
    {
      var s := bandStats[i];
      ok := false;
      if HasFlag(flags, OFPMF_KBPS) {
        var pktSize := size * 8;
        if s.tokens >= pktSize {
          bandStats[i] := s.(tokens := s.tokens - pktSize);
          ok := true;
        } else {
          bandStats[i] := s.(tokens := 0);
        }
      } else if HasFlag(flags, OFPMF_PKTPS) {
        if s.tokens >= 1 {
          bandStats[i] := s.(tokens := s.tokens - 1);
          ok := true;
        } else {
          bandStats[i] := s.(tokens := 0);
        }
      }
    }

    /** choose_band: charges every band once, in order, and returns the
        failing band of highest positive rate (the first on ties), or -1. */
    method ChooseBand(size: nat) returns (b: int)
      requires Valid()
      modifies bandStats
      ensures b == SelectBand(Rates(bands), Failed(flags, size, old(bandStats[..])))
      ensures forall k :: 0 <= k < bandStats.Length ==> bandStats[k] == AfterCharge(flags, size, old(bandStats[k]))
    {
      ghost var before := bandStats[..];
      ghost var rates := Rates(bands);
      ghost var failed := Failed(flags, size, before);
      b := -1;
      var tmpRate := 0;
      var n, i := bandStats.Length, 0;
      while i < n
        invariant 0 <= i <= n == |rates| == |failed|
        invariant b == SelectBand(rates[..i], failed[..i])
        invariant tmpRate == if b == -1 then 0 else rates[b]
        invariant forall k :: 0 <= k < i ==> bandStats[k] == AfterCharge(flags, size, before[k])
        invariant forall k :: i <= k < n ==> bandStats[k] == before[k]
      {
        SelectBandStep(rates, failed, i);
        var ok := ConsumeTokens(i, size);
        assert ok == !failed[i] && rates[i] == bands[i].rate;
        if !ok && bands[i].rate > tmpRate {
          tmpRate := bands[i].rate;
          b := i;
        }
        assert b == SelectBand(rates[..i + 1], failed[..i + 1]);
        i := i + 1;
      }
      assert rates[..i] == rates && failed[..i] == failed;
    }

    /** meter_entry_apply: counts the packet, picks the band to apply, and
        applies it: a drop band destroys the packet (the handle becomes
        None), a DSCP-remark band adds its precedence increment to the IP
        precedence modulo 8, an experimenter band does nothing; the chosen
        band counts the packet. */
    method Apply(pkt: Packet) returns (out: Option<Packet>)
      requires Valid()
      modifies this`packetInCount, this`byteInCount, bandStats
      ensures Valid()
      ensures packetInCount == old(packetInCount) + 1
      ensures byteInCount == old(byteInCount) + pkt.size
      ensures var b := SelectBand(Rates(bands), Failed(flags, pkt.size, old(bandStats[..])));
              && out == (if b == -1 then Some(pkt) else BandEffect(bands[b], pkt))
              && forall k :: 0 <= k < bandStats.Length ==>
                   bandStats[k] == (var c := AfterCharge(flags, pkt.size, old(bandStats[k]));
                                    if k == b then c.(packetBandCount := c.packetBandCount + 1,
                                                      byteBandCount := c.byteBandCount + pkt.size)
                                    else c)
    {
      packetInCount := packetInCount + 1;
      byteInCount := byteInCount + pkt.size;
      var b := ChooseBand(pkt.size);
      out := Some(pkt);
      if b != -1 {
        match bands[b] {
          case Drop(_, _) =>
            out := None;
          case DscpRemark(_, _, prec) =>
            var newTos := RemarkTos(pkt.tos, prec);
            out := Some(pkt.(tos := newTos));
          case Experimenter(_, _, _) =>
        }
        var s := bandStats[b];
        bandStats[b] := s.(byteBandCount := s.byteBandCount + pkt.size, packetBandCount := s.packetBandCount + 1);
      }
    }

    /** has_flow_ref: whether the flow is in the reference list. */
    method HasFlowRef(fe: FlowId) returns (found: bool)
      ensures found <==> fe in flowRefs
    {
      var i := 0;
      while i < |flowRefs|
        invariant 0 <= i <= |flowRefs|
        invariant fe !in flowRefs[..i]
      {
        if flowRefs[i] == fe {
          return true;
        }
        assert flowRefs[..i + 1] == flowRefs[..i] + [flowRefs[i]];
        i := i + 1;
      }
      assert flowRefs[..i] == flowRefs;
      return false;
    }

    /** meter_entry_add_flow_ref: links a flow at the end of the list and
        counts it, unless it is already referenced. */
    method AddFlowRef(fe: FlowId)
      requires Valid()
      modifies this`flowRefs, this`flowCount
      ensures Valid()
      ensures flowRefs == if fe in old(flowRefs) then old(flowRefs) else old(flowRefs) + [fe]
      ensures flowCount == old(flowCount) + (if fe in old(flowRefs) then 0 else 1)
    {
      var present := HasFlowRef(fe);
      if !present {
        assert (flowRefs + [fe])[..|flowRefs|] == flowRefs;
        flowRefs := flowRefs + [fe];
        flowCount := flowCount + 1;
      }
    }

    /** meter_entry_del_flow_ref: unlinks the flow's reference; on a
        duplicate-free list that is one node when the flow is present and
        none otherwise. */
    method DelFlowRef(fe: FlowId)
      requires Valid()
      modifies this`flowRefs, this`flowCount
      ensures Valid()
      ensures flowRefs == RemoveAll(old(flowRefs), fe)
      ensures flowCount == old(flowCount) - (if fe in old(flowRefs) then 1 else 0)
    {
      RemoveAllOnce(flowRefs, fe);
      UnlinkAll(fe);
    }

    /** The walk of meter_entry_del_flow_ref over the whole list: every node
        that refers to the flow is unlinked and uncounted. */
    method UnlinkAll(fe: FlowId)
      requires flowCount == |flowRefs|
      modifies this`flowRefs, this`flowCount
      ensures flowRefs == RemoveAll(old(flowRefs), fe)
      ensures flowCount == |flowRefs|
    {
      var refs := flowRefs;
      var pos := 0;  // position of node `i` in the list being edited
      var i := 0;
      assert refs[..0] == [] && refs[0..] == refs;
      while i < |refs|
        invariant 0 <= i <= |refs|
        invariant pos == |RemoveAll(refs[..i], fe)|
        invariant flowRefs == RemoveAll(refs[..i], fe) + refs[i..]
        invariant flowCount == |flowRefs|
      {
        pos := Visit(refs, i, pos, fe);
        i := i + 1;
      }
      assert refs[..i] == refs && refs[i..] == [];
    }

    /** Visits node `i` of the walk, at `pos` in the list being edited:
        unlinks and uncounts it when it refers to `fe`. Returns where the
        next node now sits. */
    method Visit(ghost refs: seq<FlowId>, i: nat, pos: nat, fe: FlowId) returns (next: nat)
      requires i < |refs| && pos == |RemoveAll(refs[..i], fe)|
      requires flowRefs == RemoveAll(refs[..i], fe) + refs[i..]
      requires flowCount == |flowRefs|
      modifies this`flowRefs, this`flowCount
      ensures next == |RemoveAll(refs[..i + 1], fe)|
      ensures flowRefs == RemoveAll(refs[..i + 1], fe) + refs[i + 1..]
      ensures flowCount == |flowRefs|
    {
      ghost var kept, rest := RemoveAll(refs[..i], fe), refs[i..];
      assert rest[0] == refs[i] && rest[1..] == refs[i + 1..];
      RemoveAllStep(refs, i, fe);
      SpliceNext(kept, rest, flowRefs);
      if flowRefs[pos] == fe {
        flowRefs := flowRefs[..pos] + flowRefs[pos + 1..];
        flowCount := flowCount - 1;
        next := pos;
        assert refs[i] == fe && RemoveAll(refs[..i + 1], fe) == kept;
        assert flowRefs == kept + rest[1..];
      } else {
        next := pos + 1;
        assert RemoveAll(refs[..i + 1], fe) == kept + [refs[i]];
        assert flowRefs == (kept + [refs[i]]) + rest[1..];
      }
    }

    /** refill_bucket: for every band, adds the tokens earned since its last
        fill (see Refilled). */
    method RefillBucket(now: nat)
      requires Valid()
      requires forall k :: 0 <= k < bandStats.Length ==> bandStats[k].lastFill <= now
      modifies bandStats
      ensures forall k :: 0 <= k < bandStats.Length ==> bandStats[k] == Refilled(flags, bands[k], old(bandStats[k]), now)
    {
      for i := 0 to bandStats.Length
        invariant forall k :: 0 <= k < i ==> bandStats[k] == Refilled(flags, bands[k], old(bandStats[k]), now)
        invariant forall k :: i <= k < bandStats.Length ==> bandStats[k] == old(bandStats[k])
      {
        RefillBand(i, now);
      }
    }

    /** The body of refill_bucket's loop for band `i`. */
    method RefillBand(i: nat, now: nat)
      requires Valid()
      requires i < bandStats.Length && bandStats[i].lastFill <= now
      modifies bandStats
      ensures bandStats[i] == Refilled(flags, bands[i], old(bandStats[i]), now)
      ensures forall k :: 0 <= k < bandStats.Length && k != i ==> bandStats[k] == old(bandStats[k])
    {
      var s := bandStats[i];
      var band := bands[i];
      var tokens := (now - s.lastFill) * (if HasFlag(flags, OFPMF_PKTPS) then band.rate else KbpsScale(band.rate));
      tokens := tokens / 1000;
      assert tokens == RefillIncrement(flags, band.rate, now - s.lastFill);
      if tokens == 0 {
        return;
      }
      tokens := tokens + s.tokens;
      var filled := tokens;
      if !HasFlag(flags, OFPMF_BURST) {
        if HasFlag(flags, OFPMF_KBPS) {
          if s.tokens >= 1 { filled := Min(tokens, KbpsScale(band.rate)); }
        } else {
          if s.tokens >= 1 { filled := Min(tokens, band.rate); }
        }
      } else {
        if HasFlag(flags, OFPMF_KBPS) {
          if s.tokens >= 1 { filled := Min(tokens, KbpsScale(band.burstSize)); }
        } else {
          if s.tokens >= 1 { filled := Min(tokens, band.burstSize); }
        }
      }
      assert filled == if s.tokens >= 1 then Min(tokens, RefillCap(flags, band)) else tokens;
      bandStats[i] := s.(tokens := filled, lastFill := now);
    }
  }

  /** A meter with one drop band of 10 packets/s and no burst mode, created
      at time 0 and refilled one second later, sees eleven packets arrive at
      that same instant: the first ten pass, the eleventh is dropped. */
  method DropBandScenario() returns (passed: seq<bool>)
    ensures passed == [true, true, true, true, true, true, true, true, true, true, false]
  {
    var m := new MeterEntry(1, OFPMF_PKTPS, [Drop(10, 0)], 0);
    m.RefillBucket(1000);
    assert m.bandStats[0].tokens == 10;
    passed := [];
    var j := 0;
    while j < 11
      invariant 0 <= j <= 11
      invariant m.Valid() && m.bands == [Drop(10, 0)] && m.flags == OFPMF_PKTPS
      invariant m.bandStats[0].tokens == if j <= 10 then 10 - j else 0
      invariant |passed| == j && forall k :: 0 <= k < j ==> passed[k] == (k < 10)
    {
      ghost var t := m.bandStats[0].tokens;
      assert Failed(OFPMF_PKTPS, 64, m.bandStats[..]) == [t == 0];
      assert Rates(m.bands) == [10];
      var out := m.Apply(Packet(64, 0));
      passed := passed + [out.Some?];
      j := j + 1;
    }
  }
}
