/** The timing state of the decoder as the source keeps it (src/intel_pt.c). */
module Timers {
  import Bytes
  import opened PacketLog
  import Ticks

  class Timer {
    var en: bool
    var lost: nat
    var base: nat
    var wraps: nat
    var prev: nat
    var ticks: nat
    var cycRef: nat
    var cycs: nat

    function Value(): Ticks.Clock
      reads this
    {
      Ticks.Clock(en, lost, base, wraps, prev, ticks, cycRef, cycs)
    }

    constructor ()
      ensures Value() == Ticks.Initial()
    {
      en, lost, base, wraps, prev, ticks, cycRef, cycs := false, 0, 0, 0, 0, 0, 0, 0;
    }

    method Restart(anchored: bool)
      modifies this
      ensures Value() == old(Value()).(en := anchored, ticks := 0, cycs := 0, lost := 0)
    {
      en, ticks, cycs, lost := anchored, 0, 0, 0;
    }

    /** The counter has come round to the base since the last tick. */
    method CountWrap(ctc: nat)
      modifies this`wraps
      ensures wraps == old(wraps) + if lost >= 1 then Ticks.LostWrap(base, prev, ctc) else if ctc == base then 1 else 0
    {
      if lost >= 1 {
        if prev < base {
          if prev >= ctc || ctc >= base {
            wraps := wraps + 1;
          }
        } else if prev > base {
          if base <= ctc <= prev {
            wraps := wraps + 1;
          }
        }
      } else if ctc == base {
        wraps := wraps + 1;
      }
    }

    /** The timing part of `record_intel_pt_pkt`. */
    method Record(kind: Kind, val: nat, cyc: nat)
      modifies this
      ensures Value() == Ticks.Record(old(Value()), kind, val, cyc)
    {
      if kind.Ovf? {
        lost := lost + 1;
      }
      if kind.Tma? {
        Restart(true);
      }
      if kind.Mtc? && en {
        CountWrap(val);
        ticks := (val + 256 - base % 256) % 256 + 256 * wraps;
        cycs, lost := 0, 0;
        cycRef, prev := cyc, val;
      } else if kind.Tsc? {
        Restart(false);
      } else if Ticks.Counts(kind) && en {
        cycs := (cycs + Ticks.Minus(cyc, cycRef)) % Bytes.TWO64;
        cycRef := cyc;
      }
    }

    /** A time stamp: the anchor is forgotten. */
    method TakeTsc(cyc: nat)
      modifies this
      ensures Value() == Ticks.AtTsc(old(Value()), cyc)
    {
      wraps, base, cycRef := 0, 0, cyc;
      Record(Tsc, 0, cyc);
    }

    /** An anchor, at the cycle counter of its time stamp. */
    method TakeTma(ctc: nat, cyc: nat)
      modifies this
      ensures Value() == Ticks.AtTma(old(Value()), ctc, cyc)
    {
      wraps, base, cycRef := 0, ctc % 256, cyc;
      Record(Tma, ctc % 256, cyc);
    }
  }
}
