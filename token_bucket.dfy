/** The token bucket of one meter band: charging it for a packet and
    refilling it from the elapsed time (meter_entry.c, consume_tokens and
    the per-band body of refill_bucket). Tokens are bits (1024 per kbit)
    in kb/s mode and packets in packets/s mode. */
module TokenBucket {
  import opened MeterTypes

  /** The flags name a rate unit, so packets are charged at all. */
  predicate Metered(flags: Flags) {
    HasFlag(flags, OFPMF_KBPS) || HasFlag(flags, OFPMF_PKTPS)
  }

  /** What one packet costs: its size in bits in kb/s mode, one token
      otherwise. The kb/s test comes first, as in the source. */
  function Cost(flags: Flags, size: nat): nat {
    if HasFlag(flags, OFPMF_KBPS) then size * 8 else 1
  }

  function Min(a: nat, b: nat): nat {
    if a < b then a else b
  }

  /** Outcome of charging a bucket: whether the packet stayed within the
      band's rate, and the tokens left. */
  datatype Charged = Charged(passed: bool, tokens: nat)

  /** Charges one packet to a bucket holding `tokens`. A bucket that cannot
      pay is emptied; with no unit flag set nothing is charged and the
      packet counts as over the rate. */
  function Charge(flags: Flags, size: nat, tokens: nat): (r: Charged)
    ensures r.tokens <= tokens
    ensures r.passed <==> Metered(flags) && Cost(flags, size) <= tokens
    ensures r.passed ==> r.tokens + Cost(flags, size) == tokens
    ensures !r.passed && Metered(flags) ==> r.tokens == 0
    ensures !Metered(flags) ==> r.tokens == tokens
  {
    if HasFlag(flags, OFPMF_KBPS) then
      if tokens >= size * 8 then Charged(true, tokens - size * 8) else Charged(false, 0)
    else if HasFlag(flags, OFPMF_PKTPS) then
      if tokens >= 1 then Charged(true, tokens - 1) else Charged(false, 0)
    else
      Charged(false, tokens)
  }

  /** Outcomes of `n` packets of one size charged back to back to one
      bucket with no refill in between. */
  function Run(flags: Flags, size: nat, tokens: nat, n: nat): (outcomes: seq<bool>)
    ensures |outcomes| == n
    decreases n
  {
    if n == 0 then []
    else
      var c := Charge(flags, size, tokens);
      [c.passed] + Run(flags, size, c.tokens, n - 1)
  }

  /** Back to back on a metered bucket, packet k (from 0) passes exactly when
      k + 1 packets' worth of tokens were in the bucket: with 10 tokens in
      packets/s mode the first ten pass and the eleventh exceeds. */
  lemma {:induction false} RunPassesWhileTokensLast(flags: Flags, size: nat, tokens: nat, n: nat, k: nat)
    requires Metered(flags)
    requires k < n
    ensures Run(flags, size, tokens, n)[k] <==> (k + 1) * Cost(flags, size) <= tokens
  {
    var c := Charge(flags, size, tokens);
    var cost := Cost(flags, size);
    assert Run(flags, size, tokens, n)[k] == ([c.passed] + Run(flags, size, c.tokens, n - 1))[k];
    if k > 0 {
      RunPassesWhileTokensLast(flags, size, c.tokens, n - 1, k - 1);
      assert (k + 1) * cost == k * cost + cost;
      if !c.passed {
        assert cost > tokens;
        assert k * cost >= cost by {
          assert k * cost == (k - 1) * cost + cost;
        }
      }
    }
  }

  // ---------------------------------------------------------------------
  // Refill

  /** A kb/s quantity in the bucket's unit, bits with 1024 bits per kbit.
      Computed without the 32-bit wrap-around of the source (see
      KbpsScaleAsWritten). */
  function KbpsScale(x: nat): (r: nat)
    ensures r >= 1000 * x
    ensures x > 0 ==> r >= 1024
  {
    x * 1024
  }

  /** The source's `rate * 1024` on a 32-bit unsigned rate: the product is
      reduced modulo 2^32 before it is widened. */
  function KbpsScaleAsWritten(x: nat): (r: nat)
    requires x < 0x1_0000_0000
    ensures r < 0x1_0000_0000
    ensures x < 0x40_0000 ==> r == KbpsScale(x)
  {
    (x * 1024) % 0x1_0000_0000
  }

  /** As written, a rate of 2^22 kb/s (about 4.3 Gb/s) scales to 0 tokens
      per second, so such a band never gains a token, whereas the intended
      scale is 2^32. */
  lemma KbpsScaleAsWrittenWraps()
    ensures KbpsScaleAsWritten(0x40_0000) == 0
    ensures KbpsScale(0x40_0000) == 0x1_0000_0000
  {
  }

  /** Tokens per second. The unit is chosen by testing OFPMF_PKTPS, unlike
      Cost and RefillCap, which test OFPMF_KBPS. */
  function EffectiveRate(flags: Flags, rate: nat): nat {
    if HasFlag(flags, OFPMF_PKTPS) then rate else KbpsScale(rate)
  }

  /** Whole tokens earned in `elapsed` milliseconds. */
  function RefillIncrement(flags: Flags, rate: nat, elapsed: nat): nat {
    elapsed * EffectiveRate(flags, rate) / 1000
  }

  /** The increment with the source's 32-bit `rate * 1024`. */
  function RefillIncrementAsWritten(flags: Flags, rate: nat, elapsed: nat): nat
    requires rate < 0x1_0000_0000
  {
    elapsed * (if HasFlag(flags, OFPMF_PKTPS) then rate else KbpsScaleAsWritten(rate)) / 1000
  }

  /** As written, a kb/s band of rate 2^22 earns nothing however long it
      waits: its bucket stays empty and every packet exceeds it. */
  lemma RefillAsWrittenStarves(flags: Flags, elapsed: nat)
    requires !HasFlag(flags, OFPMF_PKTPS)
    ensures RefillIncrementAsWritten(flags, 0x40_0000, elapsed) == 0
  {
    KbpsScaleAsWrittenWraps();
  }

  /** With the intended scale, a kb/s band of positive rate earns at least
      one token per elapsed millisecond, and more time never earns less. */
  lemma {:induction false} KbpsRefillProgresses(flags: Flags, rate: nat, elapsed: nat, later: nat)
    requires !HasFlag(flags, OFPMF_PKTPS)
    requires rate > 0 && elapsed <= later
    ensures RefillIncrement(flags, rate, elapsed) >= elapsed
    ensures RefillIncrement(flags, rate, elapsed) <= RefillIncrement(flags, rate, later)
  {
    var eff := EffectiveRate(flags, rate);
    assert eff >= 1024;
    assert elapsed * eff >= elapsed * 1000 by {
      assert elapsed * eff - elapsed * 1000 == elapsed * (eff - 1000);
    }
    assert elapsed * eff <= later * eff by {
      assert later * eff - elapsed * eff == (later - elapsed) * eff;
    }
  }

  /** The most a non-empty bucket may hold after a refill: the rate without
      burst mode, the burst size with it; scaled to bits when OFPMF_KBPS is
      set. */
  function RefillCap(flags: Flags, band: Band): nat {
    var limit := if HasFlag(flags, OFPMF_BURST) then band.burstSize else band.rate;
    if HasFlag(flags, OFPMF_KBPS) then KbpsScale(limit) else limit
  }

  /** The band's stats after a refill at time `now`. Nothing changes when no
      whole token was earned; otherwise the earned tokens are added, the
      sum is capped only when the bucket held a token before, and the fill
      time moves to `now`. */
  function Refilled(flags: Flags, band: Band, s: BandStats, now: nat): (r: BandStats)
    requires s.lastFill <= now
    ensures r.packetBandCount == s.packetBandCount && r.byteBandCount == s.byteBandCount
    ensures r.lastFill == s.lastFill || r.lastFill == now
    ensures r.tokens <= s.tokens + RefillIncrement(flags, band.rate, now - s.lastFill)
    ensures s.tokens >= 1 ==> r.tokens <= s.tokens || r.tokens <= RefillCap(flags, band)
  {
    var inc := RefillIncrement(flags, band.rate, now - s.lastFill);
    if inc == 0 then s
    else
      var sum := s.tokens + inc;
      var cap := RefillCap(flags, band);
      s.(tokens := if s.tokens >= 1 then Min(sum, cap) else sum, lastFill := now)
  }

  /** The band's stats after its bucket is charged for one packet. */
  function AfterCharge(flags: Flags, size: nat, s: BandStats): BandStats {
    s.(tokens := Charge(flags, size, s.tokens).tokens)
  }

  /** A refill leaves the band untouched exactly when less than one token
      was earned; otherwise it moves the fill time to `now`, keeps the
      counters, and leaves a non-empty bucket at its old tokens plus the
      increment or at the cap, whichever is smaller, but an empty bucket at
      the whole increment, uncapped. */
  lemma RefillOutcome(flags: Flags, band: Band, s: BandStats, now: nat)
    requires s.lastFill <= now
    ensures var r := Refilled(flags, band, s, now);
            var inc := RefillIncrement(flags, band.rate, now - s.lastFill);
            && (r == s <==> inc == 0)
            && r.packetBandCount == s.packetBandCount && r.byteBandCount == s.byteBandCount
            && (inc > 0 ==> r.lastFill == now)
            && (inc > 0 && s.tokens >= 1 ==>
                  r.tokens <= RefillCap(flags, band) && r.tokens <= s.tokens + inc
                  && (r.tokens == RefillCap(flags, band) || r.tokens == s.tokens + inc))
            && (inc > 0 && s.tokens == 0 ==> r.tokens == inc)
  {
    var inc := RefillIncrement(flags, band.rate, now - s.lastFill);
    if inc > 0 {
      assert now - s.lastFill > 0;
      assert Refilled(flags, band, s, now).lastFill != s.lastFill;
    }
  }

  /** Once a bucket holds between 1 and its cap, the cap is kept by every
      charge and by every refill that finds the bucket non-empty. */
  lemma CapKept(flags: Flags, band: Band, s: BandStats, now: nat, size: nat)
    requires s.lastFill <= now
    requires s.tokens <= RefillCap(flags, band)
    ensures Charge(flags, size, s.tokens).tokens <= RefillCap(flags, band)
    ensures s.tokens >= 1 ==> Refilled(flags, band, s, now).tokens <= RefillCap(flags, band)
  {
  }

  /** An empty bucket is refilled past its cap: a packets/s band of rate 10
      without burst mode, emptied and then left alone for two seconds,
      holds 20 tokens. */
  lemma EmptyRefillExceedsCap()
    ensures var band := Drop(10, 0);
            var r := Refilled(OFPMF_PKTPS, band, BandStats(0, 0, 0, 0), 2000);
            r.tokens == 20 && RefillCap(OFPMF_PKTPS, band) == 10
  {
  }
}
