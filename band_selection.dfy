/** Which band acts on a packet and what it does to it (meter_entry.c,
    choose_band and the switch in meter_entry_apply). */
module BandSelection {
  import opened MeterTypes
  import opened TokenBucket

  /** The configured rate of every band, in band order. */
  function Rates(bands: seq<Band>): (r: seq<nat>)
    ensures |r| == |bands|
    ensures forall k :: 0 <= k < |bands| ==> r[k] == bands[k].rate
  {
    seq(|bands|, k requires 0 <= k < |bands| => bands[k].rate)
  }

  /** For every band, whether charging its bucket for a packet of `size`
      bytes fails, given the band stats before the packet. */
  function Failed(flags: Flags, size: nat, stats: seq<BandStats>): (f: seq<bool>)
    ensures |f| == |stats|
    ensures forall k :: 0 <= k < |stats| ==> f[k] == !Charge(flags, size, stats[k].tokens).passed
  {
    seq(|stats|, k requires 0 <= k < |stats| => !Charge(flags, size, stats[k].tokens).passed)
  }

  /** `b` is the band to apply: a failing band whose rate is positive and
      strictly above that of every earlier failing band and at least that of
      every later one, or -1 when every failing band has rate 0. */
  predicate IsChoice(rates: seq<nat>, failed: seq<bool>, b: int)
    requires |rates| == |failed|
  {
    if b == -1 then
      forall k :: 0 <= k < |rates| && failed[k] ==> rates[k] == 0
    else
      && 0 <= b < |rates| && failed[b] && rates[b] > 0
      && (forall k :: 0 <= k < |rates| && failed[k] ==> rates[k] <= rates[b])
      && (forall k :: 0 <= k < b && failed[k] ==> rates[k] < rates[b])
  }

  /** The source's scan: walk the bands in order and keep the failing band
      whose rate beats the best rate so far, starting from rate 0. */
  function SelectBand(rates: seq<nat>, failed: seq<bool>): (b: int)
    requires |rates| == |failed|
    ensures -1 <= b < |rates|
    ensures IsChoice(rates, failed, b)
    decreases |rates|
  {
    if |rates| == 0 then -1
    else
      var n := |rates| - 1;
      var p := SelectBand(rates[..n], failed[..n]);
      var best := if p == -1 then 0 else rates[p];
      if failed[n] && rates[n] > best then n else p
  }

  /** One step of the scan: the choice over one more band is that band when
      it fails at a rate above the best so far, and the earlier choice
      otherwise. */
  lemma SelectBandStep(rates: seq<nat>, failed: seq<bool>, i: nat)
    requires |rates| == |failed| && i < |rates|
    ensures var p := SelectBand(rates[..i], failed[..i]);
            var best := if p == -1 then 0 else rates[p];
            SelectBand(rates[..i + 1], failed[..i + 1]) == if failed[i] && rates[i] > best then i else p
  {
    assert rates[..i + 1][..i] == rates[..i];
    assert failed[..i + 1][..i] == failed[..i];
  }

  /** Band selection is deterministic: the same rates and the same failures
      admit only one choice. */
  lemma ChoiceUnique(rates: seq<nat>, failed: seq<bool>, b1: int, b2: int)
    requires |rates| == |failed|
    requires IsChoice(rates, failed, b1) && IsChoice(rates, failed, b2)
    ensures b1 == b2
  {
  }

  /** The ToS byte after a DSCP-remark band with precedence increment
      `precLevel`: the IP precedence (top 3 bits) has the increment added
      modulo 8, and the low 5 bits are kept. */
  function RemarkTos(tos: Byte, precLevel: Byte): (r: Byte)
    ensures (r as int) / 32 == ((tos as int) / 32 + precLevel as int) % 8
    ensures (r as int) % 32 == (tos as int) % 32
  {
    // the sum is taken in int, as C promotes both operands; `& 0x7` on it is `% 8`
    var newDscp := ((tos >> 5) as int + precLevel as int) % 8;
    var hi: Byte := newDscp as Byte;
    var r := (hi << 5) | (tos & 0x1f);
    SmallToByte(newDscp);
    JoinFields(hi, tos);
    ByteFields(tos);
    ByteFields(r);
    r
  }

  /** The precedence wraps rather than saturating: precedence 7 with an
      increment of 1 becomes 0, so a remark band can lower it. */
  lemma PrecedenceWraps()
    ensures RemarkTos(0xE0, 1) == 0x00
  {
    ByteFields(RemarkTos(0xE0, 1));
  }

  /** The shift and the mask that split a byte are its quotient and
      remainder by 32. */
  lemma ByteFields(x: Byte)
    ensures (x as int) / 32 == (x >> 5) as int
    ensures (x as int) % 32 == (x & 0x1f) as int
  {
  }

  /** Joining a 3-bit precedence with the low 5 bits of a byte keeps both. */
  lemma JoinFields(hi: Byte, low: Byte)
    requires hi < 8
    ensures ((hi << 5) | (low & 0x1f)) >> 5 == hi
    ensures ((hi << 5) | (low & 0x1f)) & 0x1f == low & 0x1f
  {
  }

  lemma SmallToByte(n: int)
    requires 0 <= n < 8
    ensures (n as Byte) as int == n && n as Byte < 8
  {
  }

  /** What the chosen band does to the packet handle: a drop band destroys
      the packet (None), a DSCP-remark band rewrites its ToS byte, an
      experimenter band leaves it as it is. */
  function BandEffect(band: Band, pkt: Packet): (r: Option<Packet>)
    ensures r == None <==> band.Drop?
    ensures r.Some? ==> r.value.size == pkt.size
    ensures band.Experimenter? ==> r == Some(pkt)
    ensures band.DscpRemark? ==> r == Some(Packet(pkt.size, RemarkTos(pkt.tos, band.precLevel)))
  {
    match band
    case Drop(_, _) => None
    case DscpRemark(_, _, prec) => Some(pkt.(tos := RemarkTos(pkt.tos, prec)))
    case Experimenter(_, _, _) => Some(pkt)
  }
}
