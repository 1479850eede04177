/** Values shared by the meter model: the meter-mod flags, the band
    configuration, the per-band runtime statistics and the packet as the
    meter sees it. */
module MeterTypes {

  /** The 16-bit meter flags of an OpenFlow 1.3 meter-mod message. */
  type Flags = bv16

  const OFPMF_KBPS: Flags := 1   // rate values are in kb/s
  const OFPMF_PKTPS: Flags := 2  // rate values are in packets/s
  const OFPMF_BURST: Flags := 4  // honour the burst size
  const OFPMF_STATS: Flags := 8  // collect statistics (not consulted by the meter)

  /** True when the bit `f` is set in `flags`, the source's `flags & f` test. */
  predicate HasFlag(flags: Flags, f: Flags) {
    flags & f != 0
  }

  /** An 8-bit header field. */
  type Byte = bv8

  /** Identity of a flow entry that refers to a meter; the meter compares
      flow entries by identity only. */
  type FlowId = nat

  /** One configured meter band: its action together with its rate and
      burst size (both in kb/s or packets/s, as the flags say). */
  datatype Band =
    | Drop(rate: nat, burstSize: nat)
    | DscpRemark(rate: nat, burstSize: nat, precLevel: Byte)
    | Experimenter(rate: nat, burstSize: nat, experimenter: nat)

  /** Per-band runtime state: the band's counters and its token bucket. */
  datatype BandStats = BandStats(packetBandCount: nat, byteBandCount: nat, tokens: nat, lastFill: nat)

  /** The parts of a packet the meter reads or writes: the buffer size in
      bytes and the IPv4 type-of-service byte. */
  datatype Packet = Packet(size: nat, tos: Byte)

  /** Counters of a flow entry that refers to a meter. */
  datatype FlowCounters = FlowCounters(packetCount: nat, byteCount: nat)

  datatype Option<T> = None | Some(value: T)
}
