# Meter entry of an OpenFlow 1.3 software switch, in Dafny

This project models the meter entry of the switch's user-space datapath
(`brcm_switch/udatapath/meter_entry.c`). A meter entry is a per-meter
token-bucket rate limiter, following the meter-mod message of OpenFlow
1.3 (section A.3.4.4 of the OpenFlow Switch Specification 1.3). It holds:

- the meter's configuration: its id, its flags and its ordered bands;
- one token bucket and one pair of counters per band;
- the meter's aggregate counters;
- the list of flows that refer to the meter.

Each packet is charged to every band's bucket. Among the bands whose
bucket ran short, the one with the highest rate acts on the packet:
- a drop band destroys it;
- a DSCP-remark band adds its `prec_level` to the IP precedence, modulo 8 (so 7 plus 1 wraps to 0);
- an experimenter band leaves it alone.

Buckets are refilled from the elapsed time. The flag constants are those
of OpenFlow 1.3: `OFPMF_KBPS` = 1, `OFPMF_PKTPS` = 2, `OFPMF_BURST` = 4,
`OFPMF_STATS` = 8.

Files and modules:

- `meter_types.dfy` (`MeterTypes`): the flags, `Band` (Drop,
  DscpRemark, Experimenter, each with its rate and burst size),
  `BandStats` (band counters, tokens, last fill time), `Packet` (size and
  ToS byte), `FlowCounters`.
- `token_bucket.dfy` (`TokenBucket`): charging a bucket for one packet
  (`Charge`), and the refill arithmetic: increment, cap and the per-band
  refill `Refilled`.
- `band_selection.dfy` (`BandSelection`): which band acts (`IsChoice`,
  `SelectBand`), the DSCP rewrite (`RemarkTos`) and each band kind's
  effect (`BandEffect`).
- `flow_refs.dfy` (`FlowRefs`): the reference list as a sequence, what
  deletion does to it (`RemoveAll`), and the counter sums (`Total`).
- `meter_duration.dfy` (`MeterDuration`): the meter's age in seconds and
  nanoseconds.
- `meter_entry.dfy` (`MeterEntries`): the class `MeterEntry`. Its
  configuration is constant. The per-band stats are an `array<BandStats>`.
  The reference list is a `seq<FlowId>` field. Each modelled function
  of `meter_entry.c` is a method of the class, proved against the
  functions above.

The clock is a parameter `now`, in milliseconds. The source reads it
with `time_now_msec`, whose definition is not part of this model. The
model assumes that this clock never runs backwards, so the methods
require that `now` is not earlier than the band's last fill or the
meter's creation time. The source itself subtracts these times with no
such check. The model treats each charge and each refill of one band as
one atomic step. For the refill that is the model's own choice, not the
source's, as "## Left out" explains.

The code differs from the usual description of a token bucket in two
places. The model follows the code both times:

- The refill caps the bucket only when it held at least one token before
  the refill. An empty bucket receives the whole increment, uncapped,
  and may end above its cap. Charges lower the tokens but never clip
  them to the cap, so the bucket may stay above the cap until the next
  refill of the non-empty bucket clips it. So "tokens never
  exceed the cap" holds only from a state where tokens are at most the
  cap (`TokenBucket.CapKept`). `TokenBucket.EmptyRefillExceedsCap` shows a
  packets-per-second band of rate 10 that holds 20 tokens after two idle
  seconds. In the two burst-mode branches, the empty case carries a
  commented-out cap: at the rate in the kb/s branch (line 445), and at
  the rate × 1000 in the packets/s branch (line 457). Neither uses the
  burst size. The two non-burst branches (lines 416 and 429) have none.
- The ×1024 refill multiplier is chosen by testing `OFPMF_PKTPS`. The
  cap and the packet cost test `OFPMF_KBPS` instead. With neither flag
  set, `Charge` always fails and leaves the tokens unchanged. Every band
  of positive rate then counts as exceeded.

## Model

| member | source | states |
|---|---|---|
| `MeterEntries.MeterEntry.constructor` | brcm_switch/udatapath/meter_entry.c:67-152 | the configuration is copied; every band starts with 0 tokens, zero counters and its last fill at `now`; the aggregate counters, the flow count and the duration are 0; the reference list is empty |
| `MeterEntries.MeterEntry.Update` | brcm_switch/udatapath/meter_entry.c:154-158 | duration_sec and duration_nsec become the age since creation, whole seconds plus the nanoseconds beyond them (unit corrected, see Findings) |
| `MeterDuration.DurationOf` | brcm_switch/udatapath/meter_entry.c:156-157 | the sub-second part is below 10^9 ns, and seconds × 10^9 + nanoseconds equals the elapsed milliseconds × 10^6 |
| `MeterDuration.DurationAsWritten` | brcm_switch/udatapath/meter_entry.c:156-157 | the split as the source computes it: the same seconds as `DurationOf`, and a sub-second part exactly a thousand times smaller than the nanoseconds `DurationOf` reports |
| `MeterDuration.DurationAsWrittenIsMicroseconds` | brcm_switch/udatapath/meter_entry.c:157 | as written, seconds × 10^9 + duration_nsec equals the age in nanoseconds iff the age is a whole number of seconds |
| `MeterEntries.MeterEntry.AggregateCounts` | brcm_switch/udatapath/meter_entry.c:160-186 | packet_in_count and byte_in_count become the sums of the referring flows' packet and byte counts, and every band's packet_band_count and byte_band_count are set to those sums; nothing else changes |
| `FlowRefs.TotalAppend` | brcm_switch/udatapath/meter_entry.c:171-178 | one more referring flow adds exactly its counters to the sum |
| `FlowRefs.TotalAfterRemove` | brcm_switch/udatapath/meter_entry.c:166-178 | after a flow's reference is deleted, the aggregated sum drops by exactly that flow's counters, and by nothing when it was not referenced |
| `TokenBucket.Charge` | brcm_switch/udatapath/meter_entry.c:232-270 | tokens never increase; the charge succeeds iff a unit flag is set and tokens ≥ cost, where the cost is 8 × size in kb/s mode and 1 otherwise; on success tokens drop by exactly the cost; on failure a metered bucket is emptied; with neither flag the tokens are unchanged and the charge fails |
| `MeterEntries.MeterEntry.ConsumeTokens` | brcm_switch/udatapath/meter_entry.c:232-270 | the result and band i's new tokens are those of `Charge`; the band's counters, its fill time and every other band are unchanged |
| `TokenBucket.RunPassesWhileTokensLast` | brcm_switch/udatapath/meter_entry.c:239-265 | of packets charged back to back to a metered bucket, packet k passes exactly when (k + 1) × cost ≤ the starting tokens |
| `BandSelection.SelectBand` | brcm_switch/udatapath/meter_entry.c:276-288 | the scan returns a failing band of positive rate that no failing band beats and no earlier failing band ties, or -1 when every failing band has rate 0 |
| `BandSelection.ChoiceUnique` | brcm_switch/udatapath/meter_entry.c:272-289 | band selection is deterministic: the rates and the failures admit only one choice |
| `MeterEntries.MeterEntry.ChooseBand` | brcm_switch/udatapath/meter_entry.c:272-289 | every band's bucket is charged exactly once; the result is the choice of `SelectBand` over the failures of those charges |
| `BandSelection.RemarkTos` | brcm_switch/udatapath/meter_entry.c:329-332 | the new top 3 bits of the ToS byte are (old top 3 bits + prec_level) mod 8; the low 5 bits are unchanged |
| `BandSelection.PrecedenceWraps` | brcm_switch/udatapath/meter_entry.c:329 | the precedence wraps modulo 8 rather than saturating: precedence 7 plus 1 becomes 0 |
| `BandSelection.BandEffect` | brcm_switch/udatapath/meter_entry.c:310-346 | a drop band, and only a drop band, nulls the packet handle; a DSCP-remark band rewrites the ToS byte by `RemarkTos`; an experimenter band returns the packet untouched; the size is never changed |
| `MeterEntries.MeterEntry.Apply` | brcm_switch/udatapath/meter_entry.c:293-349 | packet_in_count rises by 1 and byte_in_count by the size; every band is charged once; with no chosen band the packet is returned untouched; otherwise the chosen band's effect is applied, and only that band's counters rise, by 1 and by the size |
| `MeterEntries.DropBandScenario` | brcm_switch/udatapath/meter_entry.c:293-349 | a 10 packets/s drop band, empty at creation and refilled for one second, passes ten packets arriving at one instant and drops the eleventh |
| `MeterEntries.MeterEntry.HasFlowRef` | brcm_switch/udatapath/meter_entry.c:353-363 | true iff the flow is in the reference list |
| `MeterEntries.MeterEntry.AddFlowRef` | brcm_switch/udatapath/meter_entry.c:366-374 | an unreferenced flow is appended and flow_count rises by 1; a referenced one changes nothing; flow_count stays the list length and the list stays duplicate-free |
| `MeterEntries.MeterEntry.DelFlowRef` | brcm_switch/udatapath/meter_entry.c:376-387 | the flow's reference is unlinked with the others kept in order; flow_count drops by 1 when the flow was referenced and is unchanged otherwise; flow_count stays the list length |
| `MeterEntries.MeterEntry.UnlinkAll` | brcm_switch/udatapath/meter_entry.c:380-386 | the walk unlinks every node that refers to the flow and uncounts each, so flow_count keeps equal to the list length |
| `MeterEntries.MeterEntry.Visit` | brcm_switch/udatapath/meter_entry.c:381-385 | one node of the walk: with the visited nodes reduced to their kept part, the node is unlinked and uncounted when it refers to the flow and stepped past otherwise, giving the same shape one node further on |
| `FlowRefs.RemoveAll` | brcm_switch/udatapath/meter_entry.c:380-386 | after the walk the flow is no longer referenced, and the list grows no longer |
| `FlowRefs.RemoveAllKeepsOthers` | brcm_switch/udatapath/meter_entry.c:380-386 | after the walk every other flow stays referenced, and no flow is added |
| `FlowRefs.RemoveAllOnce` | brcm_switch/udatapath/meter_entry.c:376-387 | on a duplicate-free list, deleting removes one node when the flow is present and none when it is absent; in the absent case the list is unchanged; the list stays duplicate-free |
| `FlowRefs.RemoveAllCount` | brcm_switch/udatapath/meter_entry.c:376-387 | the length part of `RemoveAllOnce` |
| `FlowRefs.RemoveAllKeepsNoDup` | brcm_switch/udatapath/meter_entry.c:376-387 | deleting keeps the list duplicate-free |
| `FlowRefs.RemoveAbsent` | brcm_switch/udatapath/meter_entry.c:376-387 | deleting an unreferenced flow changes nothing |
| `FlowRefs.RemoveAllIdempotent` | brcm_switch/udatapath/meter_entry.c:376-387 | a second delete of the same flow changes nothing |
| `FlowRefs.AddThenRemove` | brcm_switch/udatapath/meter_entry.c:366-387 | adding a new flow and then deleting it restores the list |
| `TokenBucket.KbpsScaleAsWritten` | brcm_switch/udatapath/meter_entry.c:399 | the source's 32-bit `rate * 1024` stays below 2^32 and agrees with the intended scale below 2^22 kb/s |
| `TokenBucket.KbpsScaleAsWrittenWraps` | brcm_switch/udatapath/meter_entry.c:399 | as written, 2^22 kb/s scales to 0 where 2^32 was intended |
| `TokenBucket.RefillAsWrittenStarves` | brcm_switch/udatapath/meter_entry.c:398-403 | as written, a kb/s band of rate 2^22 never gains a token, whatever the elapsed time |
| `TokenBucket.KbpsRefillProgresses` | brcm_switch/udatapath/meter_entry.c:398-401 | with the intended scale, a kb/s band of positive rate gains at least one token per elapsed millisecond, and a longer wait never gains less |
| `TokenBucket.Refilled` | brcm_switch/udatapath/meter_entry.c:398-461 | a refill keeps the band's counters; the fill time stays or becomes `now`; tokens rise by at most the increment; a non-empty bucket never ends above both its old level and the cap |
| `TokenBucket.RefillOutcome` | brcm_switch/udatapath/meter_entry.c:395-462 | a band is left untouched iff (now − last_fill) × effective rate / 1000 is 0. Otherwise: last_fill becomes now and the counters are kept; a bucket holding at least one token ends at old + increment or at the cap, whichever is smaller; an empty bucket ends at the whole increment |
| `TokenBucket.CapKept` | brcm_switch/udatapath/meter_entry.c:405-462 | once tokens are at most the cap (rate, burst size, ×1024 under OFPMF_KBPS), every charge keeps them there, and so does every refill of a non-empty bucket |
| `TokenBucket.EmptyRefillExceedsCap` | brcm_switch/udatapath/meter_entry.c:413-429 | an empty 10 packets/s bucket left idle for two seconds is refilled to 20, above its cap of 10 |
| `MeterEntries.MeterEntry.RefillBand` | brcm_switch/udatapath/meter_entry.c:397-461 | band i becomes `Refilled` of its old stats at `now`; every other band is unchanged |
| `MeterEntries.MeterEntry.RefillBucket` | brcm_switch/udatapath/meter_entry.c:390-464 | every band becomes `Refilled` of its old stats at `now` |

## Left out

- The timing wheel and the meter table, with its duplicate-id check, are not part of this model. No code for them is in `meter_entry.c`.
- `meter_entry_destroy` and `meter_entry_destroy2` (meter_entry.c:188-230) are not modelled. They free memory, unlink hash nodes and call into the flow table (`flow_entry_remove`, `alta_logic_entry_remove`). The loop body of `destroy2` is commented out.
- Locking is not modelled. The model treats each charge and each refill of one band as one atomic step.
- The source's refill is not atomic against a concurrent charge, and the model does not capture this. `refill_bucket` reads `last_fill` (meter_entry.c:398) and the old tokens (line 405) before it takes the band's spinlock (lines 411, 424, 440 and 452). It writes `last_fill` after releasing the lock (lines 420, 433, 448 and 460). Suppose `consume_tokens`, which takes the same lock (line 237), charges the band between line 405 and the lock. The refill then stores a sum computed from the tokens before the charge, and the charge is lost.
- The clock is a parameter. `meter_entry_create` reads the clock again for each band, `meter_entry_update` reads it twice (once for the seconds, once for the nanoseconds), and `refill_bucket` reads it once per band. Here one `now` serves the whole call.
- The clock is assumed never to run backwards. `time_now_msec` is not part of this model. The `requires` clauses of `Update`, `RefillBand`, `RefillBucket` and `Refilled` exclude a `now` earlier than the creation or last fill time, a case the source does not guard against.
- `alta_logic_entry_count`, the hardware counter refresh of each flow, is a foreign call. The flows' counters are an input map of `AggregateCounts`.
- `packet_destroy` is a foreign call. A dropped packet is the handle becoming `None`.
- Bands of a type other than the three known kinds are not modelled. `Band` has exactly three kinds, so two source cases cannot arise. One is the uninitialised slot that create leaves for such a band. The other is apply choosing such a band: the packet is then left unchanged, but it is still counted on that band.
- `MeterEntries.MeterEntry.Apply`: the DSCP-remark effect assumes that the packet has an IPv4 header. The source dereferences that header without a check.
- Integer widths are not modelled. The counters, tokens and timestamps are unbounded here; most of their widths are declared outside the files of this model. Only `created`, `modify_time` and the clock reading `now` are visibly 64-bit. The 32-bit `pkt_size` is unbounded too. The one exception is the 32-bit scale under Findings.
- The entry's datapath and table pointers, `modify_time` beyond its initial value, `packet_count_bak` and `byte_count_bak` are not modelled. This file only initialises them.
- The order of the reference list assumes that `list_insert` at the list head appends at the tail. `list.h` is not part of this model. Only the order of a sum depends on it.
- `MeterEntries.MeterEntry.Update`: reports nanoseconds, not the microseconds the source computes; see Findings.
- `MeterEntries.MeterEntry.RefillBand`: scales kb/s rates and burst sizes by 1024 without the source's 32-bit wrap-around; see Findings.
- `MeterEntries.MeterEntry.RefillBucket`: the same as `RefillBand`.

## Findings

| source | as written | input that shows it | evidently intended | confidence | as-written member | corrected member |
|---|---|---|---|---|---|---|
| brcm_switch/udatapath/meter_entry.c:157 | `duration_nsec` is (elapsed ms mod 1000) × 1000, which is microseconds | a meter 1500 ms old reports duration_sec 1 and duration_nsec 500000 | nanoseconds beyond duration_sec, as OpenFlow 1.3 defines the field: (elapsed ms mod 1000) × 1000000 = 500000000 | high; not executed | `MeterDuration.DurationAsWrittenIsMicroseconds` | `MeterDuration.DurationOf` |
| brcm_switch/udatapath/meter_entry.c:399 | `rate * 1024` is computed in 32-bit unsigned arithmetic before it is widened, so it wraps for rates of 2^22 kb/s (about 4.3 Gb/s) and above; the kb/s caps at lines 414 and 443 wrap the same way | a kb/s band of rate 4194304: the refill increment is 0 for every elapsed time, so the bucket never fills and every packet of positive size exceeds the band | the scale rate × 1024 without wrap-around | medium (the 32-bit width of `rate` comes from the ofl meter-band structure; `ofl-structs.h` is not part of this model); not executed | `TokenBucket.RefillAsWrittenStarves` | `TokenBucket.KbpsRefillProgresses` |
