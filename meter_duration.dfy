/** The meter's age as reported in its statistics (meter_entry.c,
    meter_entry_update): whole seconds plus the nanoseconds beyond them,
    computed from the milliseconds since creation. */
module MeterDuration {

  datatype Duration = Duration(sec: nat, nsec: nat)

  /** The age split as OpenFlow 1.3 reports it: `nsec` holds the
      nanoseconds beyond `sec`, so together they are the elapsed time. */
  function DurationOf(elapsedMs: nat): (d: Duration)
    ensures d.nsec < 1_000_000_000
    ensures d.sec * 1_000_000_000 + d.nsec == elapsedMs * 1_000_000
  {
    var sec, ms := elapsedMs / 1000, elapsedMs % 1000;
    assert elapsedMs * 1_000_000 == (sec * 1000 + ms) * 1_000_000;
    Duration(sec, ms * 1_000_000)
  }

  /** The split as the source writes it: the leftover milliseconds are
      multiplied by 1000, which gives microseconds, not nanoseconds. */
  function DurationAsWritten(elapsedMs: nat): (d: Duration)
    ensures d.sec == DurationOf(elapsedMs).sec
    ensures d.nsec * 1000 == DurationOf(elapsedMs).nsec
  {
    Duration(elapsedMs / 1000, (elapsedMs % 1000) * 1000)
  }

  /** As written, the pair no longer adds up to the elapsed time unless the
      meter is a whole number of seconds old: 1.5 s reports 500000 ns
      instead of 500000000 ns. */
  lemma {:induction false} DurationAsWrittenIsMicroseconds(elapsedMs: nat)
    ensures (DurationAsWritten(elapsedMs).sec * 1_000_000_000 + DurationAsWritten(elapsedMs).nsec
               == elapsedMs * 1_000_000)
            <==> elapsedMs % 1000 == 0
  {
    var w, d := DurationAsWritten(elapsedMs), DurationOf(elapsedMs);
    if elapsedMs % 1000 != 0 {
      assert d.nsec >= 1_000_000;
      assert w.nsec < d.nsec;
    }
  }
}
