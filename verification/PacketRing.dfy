/** The history as the source keeps it: a ring of 8192 slots scanned backwards and rewritten in
    place, proved against the unbounded log (src/intel_pt.c). */
module PacketRing {
  import opened Options
  import opened PacketLog

  const BLANK := Entry(Blank, 0, 0)

  /** The slot i packets back from the next one to write. */
  function Slot(idx: nat, i: nat): (j: nat)
    requires idx < HISTORY && 1 <= i < HISTORY
    ensures j < HISTORY && j == if i <= idx then idx - i else idx + HISTORY - i
  {
    (HISTORY + idx - i) % HISTORY
  }

  function Advance(idx: nat): (r: nat)
    requires idx < HISTORY
    ensures r == if idx + 1 == HISTORY then 0 else idx + 1
  {
    (idx + 1) % HISTORY
  }

  lemma AdvanceLength(n: nat)
    ensures Advance(n % HISTORY) == (n + 1) % HISTORY
  {
  }

  lemma ScanStep(pairing: Pairing, log: seq<Entry>, k: nat, oldest: nat)
    requires k <= |log|
    ensures ScanBack(pairing, log, k, oldest) ==
            if k <= oldest then None
            else if Opens(pairing, log[k - 1].kind) then Some(k - 1)
            else if Skips(pairing, log[k - 1].kind) then ScanBack(pairing, log, k - 1, oldest)
            else None
  {
  }

  lemma OpensOrSkips(pairing: Pairing, kind: Kind)
    ensures !(Opens(pairing, kind) && Skips(pairing, kind))
  {
  }

  class Ring {
    const slots: array<Entry>
    var idx: nat
    /** All packets since the last restart. */
    ghost var log: seq<Entry>

    ghost predicate Valid()
      reads this, slots
    {
      && slots.Length == HISTORY && idx == |log| % HISTORY
      && (forall k | 0 <= k < |log| :: log[k].kind != Blank)
      && (forall i | 1 <= i < HISTORY && i <= |log| :: slots[Slot(idx, i)] == log[|log| - i])
      && (forall i | 1 <= i < HISTORY && i > |log| :: slots[Slot(idx, i)].kind == Blank)
    }

    constructor ()
      ensures Valid() && log == [] && fresh(slots)
    {
      slots := new Entry[HISTORY](_ => BLANK);
      idx := 0;
      log := [];
    }

    method Record(e: Entry)
      requires Valid() && e.kind != Blank
      modifies this, slots
      ensures Valid() && log == old(log) + [e]
    {
      AdvanceLength(|log|);
      slots[idx] := e;
      ghost var before := idx;
      idx := Advance(idx);
      log := log + [e];
      assert forall i | 2 <= i < HISTORY :: Slot(idx, i) == Slot(before, i - 1) && Slot(before, i - 1) != before;
    }

    /** `reset_intel_pt_pkts`. */
    method Restart()
      requires Valid()
      modifies this, slots
      ensures Valid() && log == []
    {
      forall k | 0 <= k < HISTORY {
        slots[k] := BLANK;
      }
      idx := 0;
      log := [];
    }

    /** Note a packet; when tracing is disabled the history starts afresh. */
    method Note(e: Entry)
      requires Valid() && e.kind != Blank
      modifies this, slots
      ensures Valid() && log == if e.kind.TipPgd? then [] else old(log) + [e]
    {
      Record(e);
      if e.kind.TipPgd? {
        Restart();
      }
    }

    /** Change the i-th latest packet in place. */
    method Rewrite(i: nat, e: Entry)
      requires Valid() && 1 <= i < HISTORY && i <= |log| && e.kind != Blank
      modifies this`log, slots
      ensures Valid() && log == old(log)[|old(log)| - i := e]
    {
      slots[Slot(idx, i)] := e;
      log := log[|log| - i := e];
    }

    /** Give the latest packet a value, or another type; after a restart there is none. */
    method Amend(val: Option<nat>, kind: Option<Kind>)
      requires Valid() && kind != Some(Blank)
      modifies this`log, slots
      ensures Valid()
      ensures var valued := if val.Some? then SetVal(old(log), val.value) else old(log);
              log == if kind.Some? then SetKind(valued, kind.value) else valued
    {
      var latest := slots[Slot(idx, 1)];
      if latest.kind != Blank {
        var valued := if val.Some? then latest.(val := val.value) else latest;
        Rewrite(1, if kind.Some? then valued.(kind := kind.value) else valued);
      }
    }

    method KindAt(i: nat) returns (kind: Kind)
      requires Valid() && 1 <= i < HISTORY
      ensures kind == if i <= |log| then log[|log| - i].kind else Blank
      ensures i <= |log| ==> kind != Blank
    {
      kind := slots[Slot(idx, i)].kind;
    }

    /** The slot scan of `is_ovf_event` and `is_async_event` from the packet before the latest one. */
    method Find(pairing: Pairing) returns (i: nat)
      requires Valid() && |log| >= 1
      ensures var o := ScanBack(pairing, log, |log| - 1, Oldest(log));
              if o.None? then i == 0 else 2 <= i < HISTORY && i <= |log| && o.value == |log| - i
    {
      hide ScanBack, Valid, Skips, Opens;
      ghost var n, oldest := |log|, Oldest(log);
      i := 2;
      while i < HISTORY
        invariant 2 <= i <= HISTORY
        invariant i <= n + 1
        invariant ScanBack(pairing, log, n - 1, oldest) == ScanBack(pairing, log, n + 1 - i, oldest)
      {
        var kind := KindAt(i);
        ScanStep(pairing, log, n + 1 - i, oldest);
        OpensOrSkips(pairing, kind);
        if kind == Blank {
          return 0;
        } else if Skips(pairing, kind) {
          i := i + 1;
        } else if Opens(pairing, kind) {
          return;
        } else {
          return 0;
        }
      }
      ScanStep(pairing, log, n + 1 - i, oldest);
      i := 0;
    }

    /** Mark the latest packet and the i-th latest one as a pair. */
    method Mark(pairing: Pairing, i: nat) returns (val: nat)
      requires Valid() && 2 <= i < HISTORY && i <= |log|
      modifies this`log, slots
      ensures Valid()
      ensures var o, c, was := |old(log)| - i, |old(log)| - 1, old(log);
              && log == was[o := was[o].(kind := MarkOpener(pairing, was[c].kind))]
                           [c := was[c].(kind := MarkCloser(pairing, was[c].kind))]
              && val == was[o].val
    {
      var latest := slots[Slot(idx, 1)];
      var opener := slots[Slot(idx, i)];
      Rewrite(i, opener.(kind := MarkOpener(pairing, latest.kind)));
      Rewrite(1, latest.(kind := MarkCloser(pairing, latest.kind)));
      val := opener.val;
    }

    /** `is_ovf_event` (whose answer is the first result) and `is_async_event` (the second). */
    method CloseLatest(pairing: Pairing) returns (closed: bool, val: nat)
      requires Valid()
      modifies this`log, slots
      ensures Valid() && log == Claimed(pairing, old(log))
      ensures closed <==> Opener(pairing, old(log)).Some?
      ensures val == if closed then old(log)[Opener(pairing, old(log)).value].val else 0
    {
      var latest := slots[Slot(idx, 1)];
      if !Closes(pairing, latest.kind) {
        return false, 0;
      }
      assert log != [] && latest == log[|log| - 1];
      hide ScanBack, Slot, Valid, Skips, Opens, Closes, MarkOpener, MarkCloser;
      var i := Find(pairing);
      closed := i != 0;
      if closed {
        val := Mark(pairing, i);
      } else {
        val := 0;
      }
    }

    /** `prev_intel_pt_pkt`. */
    method Previous(kind: Kind) returns (e: Option<Entry>)
      requires Valid() && kind != Blank
      ensures e == match Latest(log, kind, |log|, Oldest(log)) case None => None case Some(k) => Some(log[k])
    {
      var i := 1;
      while i < HISTORY
        invariant 1 <= i <= HISTORY && i <= |log| + 1
        invariant Latest(log, kind, |log|, Oldest(log)) == Latest(log, kind, |log| + 1 - i, Oldest(log))
      {
        var slot := slots[Slot(idx, i)];
        if slot.kind == Blank {
          return None;
        } else if slot.kind == kind {
          return Some(slot);
        }
        i := i + 1;
      }
      return None;
    }
  }
}
