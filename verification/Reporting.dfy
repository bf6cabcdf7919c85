/** Packet sequences that report the steps of an execution, with everything else a tracer sends in
    between: timing, process changes, synchronisation groups, block and trace-write packets. */
module Reporting {
  import opened Options
  import opened Program
  import opened ReplayTheory
  import opened Machine
  import opened PacketLog
  import opened Decoding
  import opened Stories
  import Bookkeeping
  import L = PacketLog
  import P = Packets
  import Ticks

  // ---- The tracer's side ----

  /** The latest time stamp, and how many packets ago it was sent. */
  datatype Stamp = Stamp(tsc: nat, age: nat)

  /** Between the packets of a transfer (its source, and how many packets ago that was sent), inside a
      synchronisation group (PSB to PSBEND), with tracing stopped (TIP.PGD to TIP.PGE), after an overflow
      (and how many packets ago that was), or none of these. */
  datatype Phase = Out | Transfer(src: nat, gap: nat) | Group | Off | Dark(since: nat)

  /** PSB words sent, whether a block or a trace-write packet still owes its address, and the current
      page directory. */
  datatype Tracer = Tracer(phase: Phase, psb: nat, bep: bool, ptw: bool, pgd: nat, stamp: Option<Stamp>)

  predicate Known(env: Env, mode: nat, ip: nat) {
    mode != 0 && ip != 0 && Find(env, ip).Some?
  }

  /** An address the decoder does not object to. */
  predicate Passes(env: Env, pgd: nat, mode: nat, ip: nat) {
    mode != 0 && ip != 0 && !Unmapped(env, pgd, ip)
  }

  /** What may stand between the two packets of a transfer. */
  predicate Skipped(p: P.Packet) {
    p.Cyc? || p.Mtc? || p.Cbr? || p.Tsc? || p.Pip? || p.Mode? || (p.Plain? && p.op == P.Op.Vmcs)
  }

  /** What may stand between an overflow and the address after it, besides synchronisation words. */
  predicate Waiting(p: P.Packet) {
    p.Cyc? || p.Mtc? || p.Cbr? || p.Tsc?
  }

  /** Packets were lost. */
  predicate Loses(p: P.Packet) {
    p.Plain? && p.op.Ovf?
  }

  /** Packets that do not concern the replay, or only its process. */
  predicate Still(p: P.Packet) {
    || (IsMark(p) && !Refused(p))
    || (p.Plain? && !p.op.LongTnt? && !p.op.Ovf? && !p.op.PsbEnd?)
    || p.Tsc? || p.Pip?
  }

  /** The counter value of an anchor fits the time stamp before it. */
  predicate AnchorFits(cfg: Config, tsc: nat, ctc: nat, fc: nat)
    requires cfg.tscRatio > 0
  {
    Ticks.Minus(Ticks.Minus(tsc, cfg.tscAdj), fc) / cfg.tscRatio % 0x1_0000 == ctc
  }

  /** A packet that reports no step may be sent now. */
  predicate Quiet(env: Env, cfg: Config, t: Tracer, p: P.Packet)
    requires cfg.tscRatio > 0
  {
    match p
    case Address(op, mode, ip) =>
      if op.TipPgd? then (t.phase.Out? || t.phase.Transfer?) && mode == 0 && ip == 0
      else
        && op.Fup? && (t.phase.Out? || t.phase.Group?)
        && if t.bep || t.ptw || t.phase.Group? then Passes(env, t.pgd, mode, ip) else Known(env, mode, ip)
    case Psb => !t.phase.Transfer? && (t.phase.Dark? ==> t.phase.since + 4 < HISTORY)
    case Tma(ctc, fc) =>
      !t.phase.Transfer? && !t.phase.Dark? && t.stamp.Some? && t.stamp.value.age + 1 < HISTORY
        && AnchorFits(cfg, t.stamp.value.tsc, ctc, fc)
    case Plain(op, _) =>
      if op.Ovf? then true
      else if op.PsbEnd? then t.psb == 4 && EndsGroup(t.phase)
      else Still(p) && MayStand(t.phase, p)
    case _ => Still(p) && MayStand(t.phase, p)
  }

  /** A synchronisation group may end now. */
  predicate EndsGroup(phase: Phase) {
    phase.Group? || phase.Off? || (phase.Dark? && phase.since + 4 < HISTORY)
  }

  /** Where something is awaited, only what the scan back to it skips. */
  predicate MayStand(phase: Phase, p: P.Packet) {
    match phase
    case Transfer(_, gap) => Skipped(p) && gap + 4 < HISTORY
    case Dark(since) => Waiting(p) && since + 4 < HISTORY
    case _ => true
  }

  /** A packet that reports a step. */
  predicate Tells(env: Env, t: Tracer, p: P.Packet, step: Step) {
    match p
    case Tnt(bits, len) => t.phase.Out? && step == Given(Bits(bits, len))
    case Address(op, mode, ip) =>
      && Known(env, mode, ip)
      && if t.phase.Off? then op.TipPge? && step == Resumed(ip)
         else if t.phase.Dark? then (op.Fup? || op.TipPge?) && step == Restarted(ip)
         else
           && op.Tip? && !t.phase.Group?
           && step == if t.phase.Transfer? then Entered(t.phase.src, ip) else Given(Target(ip))
    case _ => false
  }

  function Aged(stamp: Option<Stamp>): Option<Stamp> {
    match stamp
    case None => None
    case Some(Stamp(tsc, age)) => Some(Stamp(tsc, age + 1))
  }

  predicate Stops(p: P.Packet) {
    p.Address? && p.ipOp.TipPgd?
  }

  function PhaseAfter(t: Tracer, p: P.Packet): Phase {
    if Loses(p) then Dark(0)
    else if Stops(p) then Off
    else if p.Address? && !p.ipOp.Fup? then Out
    else match t.phase
      case Transfer(src, gap) => Transfer(src, gap + 1)
      case Out =>
        if p.Psb? then Group else if p.Address? && !t.bep && !t.ptw then Transfer(p.ip, 0) else Out
      case Group => if p.Plain? && p.op.PsbEnd? then Out else Group
      case Off => Off
      case Dark(since) => if p.Address? then Out else Dark(since + 1)
  }

  function After(t: Tracer, p: P.Packet): Tracer {
    Tracer(PhaseAfter(t, p),
           if p.Psb? then t.psb + 1 else if Loses(p) || (p.Plain? && p.op.PsbEnd?) then 0 else t.psb,
           if p.Bep? then p.fup else t.bep && !Loses(p) && !(p.Address? && p.ipOp.Fup?),
           if p.Ptw? then p.fup else t.ptw && !(p.Address? && p.ipOp.Fup?),
           if p.Pip? then p.pgd else if Loses(p) then 0 else t.pgd,
           if p.Tsc? then Some(Stamp(p.tsc, 0)) else if Stops(p) then None else Aged(t.stamp))
  }

  /** The packets report exactly these steps, in order; tracing stops only where it starts again or for
      good, and packets are lost only where an address follows. */
  predicate Reports(env: Env, cfg: Config, ps: seq<P.Packet>, steps: seq<Step>, t: Tracer)
    requires cfg.tscRatio > 0
    decreases |ps|
  {
    if ps == [] then steps == [] && (t.phase.Out? || t.phase.Off?)
    else if Quiet(env, cfg, t, ps[0]) then
      && (Stops(ps[0]) ==> steps == [] || steps[0].Resumed?)
      && (Loses(ps[0]) ==> steps != [] && steps[0].Restarted?)
      && Reports(env, cfg, ps[1..], steps, After(t, ps[0]))
    else steps != [] && Tells(env, t, ps[0], steps[0]) && Reports(env, cfg, ps[1..], steps[1..], After(t, ps[0]))
  }

  // ---- The decoder's side ----

  ghost predicate StampOk(log: seq<Entry>, stamp: Option<Stamp>) {
    stamp.Some? ==>
      var at := |log| - 1 - stamp.value.age;
      && 0 <= at && log[at].kind.Tsc? && log[at].val == stamp.value.tsc
      && forall k | at < k < |log| :: !log[k].kind.Tsc?
  }

  /** The awaited source of a transfer is where it was sent, with only skipped packets after it. */
  ghost predicate SourceOk(log: seq<Entry>, src: nat, gap: nat) {
    var at := |log| - 1 - gap;
    && 0 <= at && gap + 3 < HISTORY && src != 0
    && log[at] == Entry(L.Kind.Fup, src, 0)
    && forall k | at < k < |log| :: Skips(Async, log[k].kind)
  }

  /** No backward scan reaches a packet that opens a pair. */
  predicate Closed(pairing: Pairing, log: seq<Entry>) {
    ScanBack(pairing, log, |log|, 0) == None
  }

  /** An overflow waits in the history, with only skipped packets after it. */
  predicate Unanswered(log: seq<Entry>, gap: nat) {
    var at := |log| - 1 - gap;
    && 0 <= at && gap + 3 < HISTORY && log[at].kind.Ovf?
    && forall k | at < k < |log| :: Skips(Overflow, log[k].kind)
  }

  ghost predicate Fits(log: seq<Entry>, t: Tracer) {
    && (if t.phase.Dark? then Unanswered(log, t.phase.since) else Closed(Overflow, log)) && StampOk(log, t.stamp)
    && (t.phase.Out? ==> Closed(Async, log))
    && (t.phase.Transfer? ==> SourceOk(log, t.phase.src, t.phase.gap))
  }

  ghost predicate Ready(env: Env, s: Sys, t: Tracer) {
    && SysOk(env, s) && s.psb == t.psb && s.bepFup == t.bep && s.ptwFup == t.ptw
    && s.mach.pgd == t.pgd && (t.phase.Off? || t.phase.Dark? || s.mach.en == !t.phase.Group?)
    && Fits(s.log, t)
  }

  // ---- Scans ----

  lemma {:induction false} ScanPrefix(pairing: Pairing, a: seq<Entry>, b: seq<Entry>, k: nat, oldest: nat)
    requires k <= |a| && k <= |b| && forall j | 0 <= j < k :: a[j].kind == b[j].kind
    ensures ScanBack(pairing, a, k, oldest) == ScanBack(pairing, b, k, oldest)
    decreases k
  {
    if k > oldest {
      ScanPrefix(pairing, a, b, k - 1, oldest);
    }
  }

  /** What an unlimited scan does not find, no scan does. */
  lemma {:induction false} ScanWindow(pairing: Pairing, log: seq<Entry>, k: nat, oldest: nat)
    requires k <= |log| && ScanBack(pairing, log, k, 0) == None
    ensures ScanBack(pairing, log, k, oldest) == None
    decreases k
  {
    if k > oldest && Skips(pairing, log[k - 1].kind) {
      ScanWindow(pairing, log, k - 1, oldest);
    }
  }

  lemma ClosedMore(pairing: Pairing, log: seq<Entry>, e: Entry)
    requires !Opens(pairing, e.kind) && (Skips(pairing, e.kind) ==> Closed(pairing, log))
    ensures Closed(pairing, log + [e])
  {
    ScanPrefix(pairing, log, log + [e], |log|, 0);
  }

  /** The latest packet closes nothing if nothing is open before it. */
  lemma NothingClosed(pairing: Pairing, log: seq<Entry>, e: Entry)
    requires Closed(pairing, log)
    ensures Opener(pairing, log + [e]) == None
  {
    var v := log + [e];
    ScanPrefix(pairing, log, v, |log|, 0);
    ScanWindow(pairing, v, |log|, Oldest(v));
  }

  lemma {:induction false} FindsOpener(pairing: Pairing, log: seq<Entry>, at: nat, k: nat, oldest: nat)
    requires oldest <= at < k <= |log| && Opens(pairing, log[at].kind)
    requires forall j | at < j < k :: Skips(pairing, log[j].kind)
    ensures ScanBack(pairing, log, k, oldest) == Some(at)
    decreases k
  {
    if at < k - 1 {
      NotBoth(pairing, log[k - 1].kind);
      FindsOpener(pairing, log, at, k - 1, oldest);
    }
  }

  lemma NotBoth(pairing: Pairing, kind: L.Kind)
    ensures !(Opens(pairing, kind) && Skips(pairing, kind))
  {
  }

  // ---- One more entry ----

  lemma StampMore(log: seq<Entry>, e: Entry, stamp: Option<Stamp>)
    requires StampOk(log, stamp)
    ensures StampOk(log + [e], if e.kind.Tsc? then Some(Stamp(e.val, 0)) else Aged(stamp))
  {
    var v := log + [e];
    assert forall k | 0 <= k < |log| :: v[k] == log[k];
  }

  lemma SourceMore(log: seq<Entry>, e: Entry, src: nat, gap: nat)
    requires SourceOk(log, src, gap) && Skips(Async, e.kind) && gap + 4 < HISTORY
    ensures SourceOk(log + [e], src, gap + 1)
  {
    var v := log + [e];
    assert forall k | 0 <= k < |log| :: v[k] == log[k];
  }

  /** The history of a tracer's phase after one more entry that opens no pair. */
  lemma FitsMore(log: seq<Entry>, e: Entry, t: Tracer, t': Tracer)
    requires Fits(log, t) && !e.kind.Ovf? && !e.kind.Fup? && !t.phase.Dark? && !t'.phase.Dark?
    requires t'.stamp == if e.kind.Tsc? then Some(Stamp(e.val, 0)) else Aged(t.stamp)
    requires t'.phase.Out? ==> t.phase.Out? || !Skips(Async, e.kind)
    requires t'.phase.Transfer? ==>
               && t.phase.Transfer? && t'.phase == Transfer(t.phase.src, t.phase.gap + 1)
               && Skips(Async, e.kind) && t.phase.gap + 4 < HISTORY
    ensures Fits(log + [e], t')
  {
    StampMore(log, e, t.stamp);
    ClosedMore(Overflow, log, e);
    if t'.phase.Out? {
      ClosedMore(Async, log, e);
    }
    if t'.phase.Transfer? {
      SourceMore(log, e, t.phase.src, t.phase.gap);
    }
  }

  /** A source address: the transfer is awaited, unless it belongs to a synchronisation group. */
  lemma FitsSource(log: seq<Entry>, ip: nat, t: Tracer, t': Tracer)
    requires Fits(log, t) && !t.phase.Transfer? && !t.phase.Dark? && ip != 0 && t'.stamp == Aged(t.stamp)
    requires t'.phase == if t.phase.Group? then Group else Transfer(ip, 0)
    ensures Fits(log + [Entry(L.Kind.Fup, ip, 0)], t')
  {
    var e := Entry(L.Kind.Fup, ip, 0);
    StampMore(log, e, t.stamp);
    ClosedMore(Overflow, log, e);
  }

  /** An overflow that still waits. */
  lemma FitsDark(log: seq<Entry>, e: Entry, t: Tracer, t': Tracer)
    requires Fits(log, t) && Skips(Overflow, e.kind) && t.phase.Dark? && t.phase.since + 4 < HISTORY
    requires t'.phase == Dark(t.phase.since + 1)
    requires t'.stamp == if e.kind.Tsc? then Some(Stamp(e.val, 0)) else Aged(t.stamp)
    ensures Fits(log + [e], t')
  {
    StampMore(log, e, t.stamp);
    StillUnanswered(log, e, t.phase.since);
  }

  lemma StillUnanswered(log: seq<Entry>, e: Entry, gap: nat)
    requires Unanswered(log, gap) && Skips(Overflow, e.kind) && gap + 4 < HISTORY
    ensures Unanswered(log + [e], gap + 1)
  {
    var v := log + [e];
    assert forall k | 0 <= k < |log| :: v[k] == log[k];
  }

  lemma Answers(log: seq<Entry>, e: Entry, gap: nat)
    requires Unanswered(log, gap) && (e.kind.Fup? || e.kind.TipPge?)
    ensures Opener(Overflow, log + [e]).Some?
  {
    var v := log + [e];
    var at := |log| - 1 - gap;
    assert v[at] == log[at] && forall k | at < k < |log| :: v[k] == log[k];
    FindsOpener(Overflow, v, at, |v| - 1, Oldest(v));
  }

  // ---- Quiet packets ----

  /** The replay's globals are those of the tracer; while tracing is stopped, or packets are lost, the
      compression flag moves freely. */
  function Globals(m: Mach, t: Tracer, en: bool): Mach {
    m.(pgd := t.pgd, en := if t.phase.Off? || t.phase.Dark? then en else !t.phase.Group?)
  }

  lemma {:induction false} LatestIs(log: seq<Entry>, at: nat, k: nat, oldest: nat)
    requires oldest <= at < k <= |log| && log[at].kind.Tsc? && forall j | at < j < k :: !log[j].kind.Tsc?
    ensures Latest(log, L.Kind.Tsc, k, oldest) == Some(at)
    decreases k
  {
    if at < k - 1 {
      LatestIs(log, at, k - 1, oldest);
    }
  }

  lemma AnchorTaken(cfg: Config, s: Sys, t: Tracer, ctc: nat, fc: nat)
    requires cfg.tscRatio > 0 && StampOk(s.log, t.stamp) && t.stamp.Some? && t.stamp.value.age + 1 < HISTORY
    requires AnchorFits(cfg, t.stamp.value.tsc, ctc, fc)
    ensures HandleTma(cfg, s, ctc, fc).Some?
  {
    hide Ticks.Minus, Ticks.AtTma;
    LatestIs(s.log, |s.log| - 1 - t.stamp.value.age, |s.log|, Oldest(s.log));
  }

  /** The entry a packet that is no address leaves behind. */
  predicate EntryFits(p: P.Packet, e: Entry) {
    && !e.kind.Ovf? && !e.kind.Fup?
    && (if p.Tsc? then e.kind.Tsc? && e.val == p.tsc else !e.kind.Tsc?)
    && (Skipped(p) ==> Skips(Async, e.kind))
    && (p.Tnt? || (p.Plain? && p.op.PsbEnd?) ==> !Skips(Async, e.kind))
    && (Waiting(p) || p.Psb? || (p.Plain? && p.op.PsbEnd?) ==> Skips(Overflow, e.kind))
  }

  lemma MarkKinds(p: P.Packet)
    requires IsMark(p)
    ensures var kind := MarkOf(p).0;
            && !kind.TipPgd? && !kind.Ovf? && !kind.Fup? && !kind.Tsc?
            && (Skipped(p) ==> Skips(Async, kind)) && (Waiting(p) ==> Skips(Overflow, kind))
  {
  }

  lemma NotedEntry(s: Sys, kind: L.Kind, val: nat)
    requires !kind.TipPgd?
    ensures var r := NotedNow(s, kind, val);
            r.mach == s.mach && r.log == s.log + [r.log[|s.log|]] && r.log[|s.log|].kind == kind
              && r.log[|s.log|].val == val
  {
    hide Ticks.Record, Ticks.Counts;
  }

  lemma FlagsOnly(s: Sys, p: P.Packet)
    ensures Flagged(s, p).log == s.log && Flagged(s, p).mach == s.mach
  {
  }

  lemma MarkTaken(s: Sys, p: P.Packet)
    requires IsMark(p) && !Refused(p)
    ensures HandleMark(s, p).Some? && HandleMark(s, p).value.mach == s.mach
    ensures var log := HandleMark(s, p).value.log; log == s.log + [log[|s.log|]] && EntryFits(p, log[|s.log|])
  {
    MarkKinds(p);
    FlagsOnly(s, p);
    NotedEntry(Flagged(s, p), MarkOf(p).0, MarkOf(p).1);
    hide NotedNow, MarkOf, Flagged, Refused, Skips;
  }

  lemma PlainTaken(env: Env, s: Sys, op: P.Op)
    requires SysOk(env, s) && !op.LongTnt? && !op.Ovf? && (op.PsbEnd? ==> s.psb == 4)
    ensures HandlePlain(env, s, op).Some?
    ensures var r := HandlePlain(env, s, op).value;
            && r.mach == (if op.PsbEnd? then s.mach.(en := true) else s.mach)
            && r.log == s.log + [r.log[|s.log|]]
            && !r.log[|s.log|].kind.Ovf? && !r.log[|s.log|].kind.Fup? && !r.log[|s.log|].kind.Tsc?
            && (op.Vmcs? ==> Skips(Async, r.log[|s.log|].kind))
            && (op.PsbEnd? ==> !Skips(Async, r.log[|s.log|].kind) && Skips(Overflow, r.log[|s.log|].kind))
  {
    hide Ticks.Record, Ticks.Counts, MachOk;
  }

  /** What a quiet packet that is no address does to the replay's globals and to the history. */
  ghost predicate Taken(env: Env, cfg: Config, s: Sys, t: Tracer, p: P.Packet)
    requires SysOk(env, s) && cfg.tscRatio > 0
  {
    && Handle(env, cfg, s, p).Some?
    && var r := Handle(env, cfg, s, p).value;
       && r.mach == Globals(s.mach, After(t, p), r.mach.en)
       && |r.log| == |s.log| + 1 && r.log == s.log + [r.log[|s.log|]] && EntryFits(p, r.log[|s.log|])
  }

  lemma OtherTaken(env: Env, cfg: Config, s: Sys, t: Tracer, p: P.Packet)
    requires Ready(env, s, t) && cfg.tscRatio > 0 && Quiet(env, cfg, t, p) && !p.Address? && !Loses(p)
    ensures Taken(env, cfg, s, t, p)
  {
    hide Taken, Ready;
    if IsMark(p) {
      MarkStep(env, cfg, s, t, p);
    } else if p.Plain? {
      PlainStep(env, cfg, s, t, p);
    } else if p.Tma? {
      AnchorStep(env, cfg, s, t, p);
    } else {
      GlobalTaken(env, cfg, s, t, p);
    }
  }

  lemma MarkStep(env: Env, cfg: Config, s: Sys, t: Tracer, p: P.Packet)
    requires Ready(env, s, t) && cfg.tscRatio > 0 && Quiet(env, cfg, t, p) && IsMark(p)
    ensures Taken(env, cfg, s, t, p)
  {
    QuietMark(env, cfg, t, p);
    MarkTaken(s, p);
    HandleIsMark(env, cfg, s, p);
    hide Handle, HandleMark, MachOk, Fits, Quiet, After, IsMark, EntryFits, Refused, Skips;
  }

  lemma QuietMark(env: Env, cfg: Config, t: Tracer, p: P.Packet)
    requires cfg.tscRatio > 0 && Quiet(env, cfg, t, p) && IsMark(p)
    ensures !Refused(p) && !p.Address? && After(t, p).pgd == t.pgd
    ensures After(t, p).phase.Off? == t.phase.Off? && After(t, p).phase.Group? == t.phase.Group?
    ensures After(t, p).phase.Dark? == t.phase.Dark?
  {
  }

  lemma PlainStep(env: Env, cfg: Config, s: Sys, t: Tracer, p: P.Packet)
    requires Ready(env, s, t) && cfg.tscRatio > 0 && Quiet(env, cfg, t, p) && p.Plain? && !Loses(p)
    ensures Taken(env, cfg, s, t, p)
  {
    PlainTaken(env, s, p.op);
    hide HandlePlain, MachOk, Fits, AnchorFits, Refused, Skips;
  }

  lemma GlobalTaken(env: Env, cfg: Config, s: Sys, t: Tracer, p: P.Packet)
    requires Ready(env, s, t) && cfg.tscRatio > 0 && Quiet(env, cfg, t, p)
    requires p.Psb? || p.Pip? || p.Tsc?
    ensures Taken(env, cfg, s, t, p)
  {
    GlobalPhase(env, cfg, t, p);
    hide Quiet, After, Fits, MachOk;
    if p.Psb? {
      PsbNoted(env, cfg, s);
    } else if p.Pip? {
      PipNoted(env, cfg, s, p.pgd);
    } else {
      TscNoted(env, cfg, s, p.tsc);
    }
    hide Handle;
  }

  lemma PsbNoted(env: Env, cfg: Config, s: Sys)
    requires SysOk(env, s) && cfg.tscRatio > 0
    ensures var r := Handle(env, cfg, s, P.Psb);
            && r.Some? && r.value.mach == s.mach.(en := false)
            && r.value.log == s.log + [r.value.log[|s.log|]] && r.value.log[|s.log|].kind.Psb?
  {
    NotedEntry(s.(psb := s.psb + 1), L.Kind.Psb, s.psb + 1);
    hide NotedNow, MachOk, HandleMark, HandlePlain, HandleTma, HandleAddress;
  }

  lemma PipNoted(env: Env, cfg: Config, s: Sys, pgd: nat)
    requires SysOk(env, s) && cfg.tscRatio > 0
    ensures var r := Handle(env, cfg, s, P.Pip(pgd));
            && r.Some? && r.value.mach == s.mach.(pgd := pgd)
            && r.value.log == s.log + [r.value.log[|s.log|]] && r.value.log[|s.log|].kind.Pip?
  {
    NotedEntry(s, L.Kind.Pip, pgd);
    hide NotedNow, MachOk, HandleMark, HandlePlain, HandleTma, HandleAddress;
  }

  lemma TscNoted(env: Env, cfg: Config, s: Sys, tsc: nat)
    requires SysOk(env, s) && cfg.tscRatio > 0
    ensures var r := Handle(env, cfg, s, P.Tsc(tsc));
            r.Some? && r.value.mach == s.mach && r.value.log == s.log + [Entry(L.Kind.Tsc, tsc, s.cyc)]
  {
    hide MachOk, Ticks.AtTsc, HandleMark, HandlePlain, HandleTma, HandleAddress;
  }

  lemma GlobalPhase(env: Env, cfg: Config, t: Tracer, p: P.Packet)
    requires cfg.tscRatio > 0 && Quiet(env, cfg, t, p) && (p.Psb? || p.Pip? || p.Tsc?)
    ensures var u := After(t, p);
            && u.pgd == (if p.Pip? then p.pgd else t.pgd)
            && u.phase.Off? == t.phase.Off? && u.phase.Dark? == t.phase.Dark?
            && u.phase.Group? == (t.phase.Group? || (p.Psb? && !t.phase.Off? && !t.phase.Dark?))
  {
  }

  lemma AnchorStep(env: Env, cfg: Config, s: Sys, t: Tracer, p: P.Packet)
    requires Ready(env, s, t) && cfg.tscRatio > 0 && Quiet(env, cfg, t, p) && p.Tma?
    ensures Taken(env, cfg, s, t, p)
  {
    AnchorTaken(cfg, s, t, p.ctc, p.fc);
    hide Ticks.AtTma, Ticks.Minus, MachOk, Fits, Latest, HandleMark, HandlePlain, HandleAddress;
  }

  lemma OtherStep(env: Env, cfg: Config, s: Sys, t: Tracer, p: P.Packet)
    requires Ready(env, s, t) && cfg.tscRatio > 0 && Quiet(env, cfg, t, p) && !p.Address? && !Loses(p)
    ensures Handle(env, cfg, s, p).Some?
    ensures var r := Handle(env, cfg, s, p).value;
            r.mach == Globals(s.mach, After(t, p), r.mach.en) && Ready(env, r, After(t, p))
  {
    OtherTaken(env, cfg, s, t, p);
    hide Handle, MachOk, Fits, AnchorFits, Refused, IsMark;
    Bookkeeping.StepBooks(env, cfg, s, p);
    var r := Handle(env, cfg, s, p).value;
    if t.phase.Dark? {
      FitsDark(s.log, r.log[|s.log|], t, After(t, p));
    } else {
      FitsMore(s.log, r.log[|s.log|], t, After(t, p));
    }
  }

  /** A FUP that closes no overflow. */
  lemma FupTaken(env: Env, s: Sys, t: Tracer, mode: nat, ip: nat)
    requires Ready(env, s, t) && !t.phase.Dark? && Passes(env, t.pgd, mode, ip)
    ensures HandleAddress(env, s, P.Fup, mode, ip) == Some(Valued(s, P.Fup, mode, ip))
    ensures Valued(s, P.Fup, mode, ip).log == s.log + [Entry(L.Kind.Fup, ip, 0)]
    ensures Valued(s, P.Fup, mode, ip).mach == s.mach
  {
    NothingClosed(Overflow, s.log, Entry(L.Kind.Fup, ip, 0));
    assert Valued(s, P.Fup, mode, ip).log == s.log + [Entry(L.Kind.Fup, ip, 0)];
    hide Opener, MachOk, Unmapped;
  }

  /** How the history ends after a FUP. */
  function FupEntry(t: Tracer, ip: nat): Entry {
    Entry(if t.ptw then FupPtw else if t.bep then FupBep else L.Kind.Fup, ip, 0)
  }

  lemma FupMarked(s: Sys, t: Tracer, ip: nat, log: seq<Entry>)
    requires s.bepFup == t.bep && s.ptwFup == t.ptw && s.log == log + [Entry(L.Kind.Fup, ip, 0)]
    ensures AfterFup(s).log == log + [FupEntry(t, ip)]
    ensures AfterFup(s).mach == s.mach
  {
  }

  lemma FupStep(env: Env, cfg: Config, s: Sys, t: Tracer, p: P.Packet)
    requires Ready(env, s, t) && cfg.tscRatio > 0 && Quiet(env, cfg, t, p) && p.Address? && p.ipOp.Fup?
    ensures Handle(env, cfg, s, p).Some?
    ensures var r := Handle(env, cfg, s, p).value;
            r.mach == Globals(s.mach, After(t, p), r.mach.en) && Ready(env, r, After(t, p))
  {
    if Known(env, p.mode, p.ip) {
      KnownPasses(env, t.pgd, p.mode, p.ip);
    }
    FupTaken(env, s, t, p.mode, p.ip);
    var v := Valued(s, P.Fup, p.mode, p.ip);
    assert v.bepFup == s.bepFup && v.ptwFup == s.ptwFup && v.psb == s.psb by {
      hide Ticks.Record, SetVal;
    }
    FupMarked(v, t, p.ip, s.log);
    if t.bep || t.ptw {
      FitsMore(s.log, FupEntry(t, p.ip), t, After(t, p));
    } else {
      FitsSource(s.log, p.ip, t, After(t, p));
    }
    hide HandleAddress, MachOk, Fits, AfterFup, Valued;
    Bookkeeping.StepBooks(env, cfg, s, p);
  }

  /** Tracing stops with the replay's queues used up, even in the middle of a transfer. */
  lemma StopStep(env: Env, cfg: Config, s: Sys, t: Tracer, p: P.Packet)
    requires Ready(env, s, t) && cfg.tscRatio > 0 && Quiet(env, cfg, t, p) && Stops(p) && Rests(s.mach)
    ensures Handle(env, cfg, s, p).Some?
    ensures var r := Handle(env, cfg, s, p).value;
            r.mach == Globals(s.mach, After(t, p), r.mach.en) && Ready(env, r, After(t, p))
  {
    hide MachOk, Ticks.Record, Ticks.Counts;
  }

  lemma KnownPasses(env: Env, pgd: nat, mode: nat, ip: nat)
    requires Known(env, mode, ip)
    ensures Passes(env, pgd, mode, ip)
  {
  }

  // ---- Packets that report a step ----

  lemma TntStep(env: Env, cfg: Config, s: Sys, t: Tracer, bits: nat, len: nat)
    requires Ready(env, s, t) && t.phase.Out? && cfg.tscRatio > 0 && FeedMach(env, s.mach, Bits(bits, len)).Some?
    ensures var p := P.Tnt(bits, len);
            var r := Handle(env, cfg, s, p);
            r.Some? && Some(r.value.mach) == FeedMach(env, s.mach, Bits(bits, len)) && Ready(env, r.value, After(t, p))
  {
    hide Ticks.Record, Ticks.Counts, MachOk, FeedMach, P.TntByte, Fits;
    var r := Handle(env, cfg, s, P.Tnt(bits, len)).value;
    FitsMore(s.log, r.log[|s.log|], t, After(t, P.Tnt(bits, len)));
  }

  /** The history after a target, before it closes anything. */
  lemma TipLog(s: Sys, mode: nat, ip: nat)
    requires mode != 0
    ensures var v := Valued(s, P.Tip, mode, ip);
            && v.log == s.log + [Entry(L.Kind.Tip, ip, s.cyc)]
            && v.mach == s.mach && (v.psb, v.bepFup, v.ptwFup) == (s.psb, s.bepFup, s.ptwFup)
  {
    hide Ticks.Record;
  }

  lemma TipFits(log: seq<Entry>, e: Entry, t: Tracer)
    requires Fits(log, t) && t.phase.Out? && e.kind.Tip?
    ensures AsyncSource(log + [e]) == 0 && Claimed(Async, log + [e]) == log + [e]
    ensures Fits(log + [e], t.(phase := Out, stamp := Aged(t.stamp)))
  {
    NothingClosed(Async, log, e);
    FitsMore(log, e, t, t.(phase := Out, stamp := Aged(t.stamp)));
  }

  /** A target closes the awaited transfer, and nothing is left open. */
  lemma TransferFits(log: seq<Entry>, e: Entry, t: Tracer)
    requires Fits(log, t) && t.phase.Transfer? && e.kind.Tip?
    ensures AsyncSource(log + [e]) == t.phase.src
    ensures Fits(Claimed(Async, log + [e]), t.(phase := Out, stamp := Aged(t.stamp)))
  {
    var v := log + [e];
    var at := |log| - 1 - t.phase.gap;
    assert forall k | 0 <= k < |log| :: v[k] == log[k];
    FindsOpener(Async, v, at, |v| - 1, Oldest(v));
    StampMore(log, e, t.stamp);
    ClaimShields(v, at, Aged(t.stamp));
  }

  lemma ClaimShields(log: seq<Entry>, at: nat, stamp: Option<Stamp>)
    requires Opener(Async, log) == Some(at) && log[|log| - 1].kind.Tip? && StampOk(log, stamp)
    ensures Closed(Async, Claim(Async, log)) && Closed(Overflow, Claim(Async, log)) && StampOk(Claim(Async, log), stamp)
  {
  }

  lemma TipStep(env: Env, cfg: Config, s: Sys, t: Tracer, mode: nat, ip: nat, step: Step)
    requires Ready(env, s, t) && cfg.tscRatio > 0 && Tells(env, t, P.Address(P.Tip, mode, ip), step)
    requires TakeStep(env, s.mach, step).Some?
    ensures var p := P.Address(P.Tip, mode, ip);
            var r := Handle(env, cfg, s, p);
            r.Some? && Some(r.value.mach) == TakeStep(env, s.mach, step) && Ready(env, r.value, After(t, p))
  {
    TipLog(s, mode, ip);
    var e := Entry(L.Kind.Tip, ip, s.cyc);
    if t.phase.Transfer? {
      SourceNonzero(s.log, t);
      TransferFits(s.log, e, t);
    } else {
      TipFits(s.log, e, t);
    }
    hide MachOk, EnterMach, FeedMach, Find, Fits, AsyncSource, Claimed, Valued;
  }

  lemma ResumeNoted(s: Sys, t: Tracer, mode: nat, ip: nat)
    requires Fits(s.log, t) && t.phase.Off? && mode != 0
    ensures var v := Valued(s, P.TipPge, mode, ip);
            && Claimed(Overflow, v.log) == v.log && Fits(v.log, After(t, P.Address(P.TipPge, mode, ip)))
            && v.mach == s.mach && (v.psb, v.bepFup, v.ptwFup) == (s.psb, s.bepFup, s.ptwFup)
  {
    var e := Entry(L.Kind.TipPge, ip, s.cyc);
    NothingClosed(Overflow, s.log, e);
    FitsMore(s.log, e, t, After(t, P.Address(P.TipPge, mode, ip)));
    assert Valued(s, P.TipPge, mode, ip).log == s.log + [e];
    hide Fits, Opener, Ticks.Record;
  }

  /** Tracing starts again. */
  lemma ResumeStep(env: Env, cfg: Config, s: Sys, t: Tracer, mode: nat, ip: nat, m: Mach)
    requires Ready(env, s, t) && cfg.tscRatio > 0 && t.phase.Off? && Known(env, mode, ip)
    requires m == s.mach.(en := true) && MachOk(env, m) && StartMach(env, m, ip).Some?
    ensures var p := P.Address(P.TipPge, mode, ip);
            var r := Handle(env, cfg, s, p);
            r.Some? && Some(r.value.mach) == StartMach(env, m, ip) && Ready(env, r.value, After(t, p))
  {
    ResumeNoted(s, t, mode, ip);
    assert EnableMach(env, s.mach, ip) == StartMach(env, m, ip);
    hide MachOk, StartMach, EnableMach, Find, Fits, Opener, Valued, Claimed;
  }

  /** Packets were lost: the replay forgets everything, and the history waits for an address. */
  lemma LossStep(env: Env, cfg: Config, s: Sys, t: Tracer, p: P.Packet)
    requires Ready(env, s, t) && cfg.tscRatio > 0 && Loses(p)
    ensures Handle(env, cfg, s, p).Some?
    ensures var r := Handle(env, cfg, s, p).value; r.mach == OverflowMach(s.mach) && Ready(env, r, After(t, p))
  {
    ResetOk(env, s.mach);
    hide MachOk, Ticks.Record, Ticks.Counts, Reset;
    var e := Handle(env, cfg, s, p).value.log[|s.log|];
    StampMore(s.log, e, t.stamp);
  }

  /** The address after an overflow closes it: the replay starts there, and nothing is left open. */
  lemma RestartStep(env: Env, cfg: Config, s: Sys, t: Tracer, op: P.IpOp, mode: nat, ip: nat)
    requires Ready(env, s, t) && t.phase.Dark? && cfg.tscRatio > 0 && Known(env, mode, ip) && (op.Fup? || op.TipPge?)
    requires EnableMach(env, s.mach, ip).Some?
    ensures var p := P.Address(op, mode, ip);
            var r := Handle(env, cfg, s, p);
            r.Some? && Some(r.value.mach) == EnableMach(env, s.mach, ip) && Ready(env, r.value, After(t, p))
  {
    var p := P.Address(op, mode, ip);
    RestartTaken(env, s, t, op, mode, ip);
    RestartNoted(s, t, op, mode, ip);
    var closed := HandleAddress(env, s, op, mode, ip).value;
    hide MachOk, EnableMach, Find, Fits, Opener, Claim, Valued, Unmapped, AfterFup, HandleAddress;
    HandleIsAddress(env, cfg, s, op, mode, ip);
    if op.Fup? {
      FupCloses(closed, After(t, p));
    }
    hide Handle;
  }

  lemma HandleIsAddress(env: Env, cfg: Config, s: Sys, op: P.IpOp, mode: nat, ip: nat)
    requires SysOk(env, s) && cfg.tscRatio > 0
    ensures Handle(env, cfg, s, P.Address(op, mode, ip))
            == match HandleAddress(env, s, op, mode, ip)
               case None => None
               case Some(next) => Some(if op.Fup? then AfterFup(next) else next)
  {
    hide HandleAddress, AfterFup, MachOk;
  }

  lemma RestartTaken(env: Env, s: Sys, t: Tracer, op: P.IpOp, mode: nat, ip: nat)
    requires Ready(env, s, t) && t.phase.Dark? && Known(env, mode, ip) && (op.Fup? || op.TipPge?)
    requires EnableMach(env, s.mach, ip).Some?
    ensures Opener(Overflow, Valued(s, op, mode, ip).log).Some?
    ensures var v, m := Valued(s, op, mode, ip), EnableMach(env, s.mach, ip).value;
            && HandleAddress(env, s, op, mode, ip) == Some(v.(log := Claim(Overflow, v.log), mach := m))
            && m.pgd == s.mach.pgd && m.en
  {
    RestartNoted(s, t, op, mode, ip);
    KnownPasses(env, t.pgd, mode, ip);
    assert EnableMach(env, s.mach, ip).value.pgd == s.mach.pgd && EnableMach(env, s.mach, ip).value.en;
    hide MachOk, EnableMach, Find, Fits, Opener, Claim, Valued, Unmapped;
  }

  lemma RestartNoted(s: Sys, t: Tracer, op: P.IpOp, mode: nat, ip: nat)
    requires Fits(s.log, t) && t.phase.Dark? && mode != 0 && (op.Fup? || op.TipPge?)
    ensures var v := Valued(s, op, mode, ip);
            && Opener(Overflow, v.log).Some? && Fits(Claim(Overflow, v.log), After(t, P.Address(op, mode, ip)))
            && (op.Fup? ==> Claim(Overflow, v.log)[|v.log| - 1].kind.FupOvf?)
            && v.mach == s.mach && (v.psb, v.bepFup, v.ptwFup) == (s.psb, s.bepFup, s.ptwFup)
  {
    var e := Entry(IpKind(op), ip, if op.Fup? then 0 else s.cyc);
    assert Valued(s, op, mode, ip).log == s.log + [e];
    Answers(s.log, e, t.phase.since);
    StampMore(s.log, e, t.stamp);
    hide Ticks.Record, Unanswered, StampOk;
    AnswerShields(s.log + [e], Aged(t.stamp));
  }

  lemma AnswerShields(log: seq<Entry>, stamp: Option<Stamp>)
    requires Opener(Overflow, log).Some? && StampOk(log, stamp)
    ensures var closed := Claim(Overflow, log);
            Closed(Async, closed) && Closed(Overflow, closed) && StampOk(closed, stamp)
  {
  }

  /** Marking the address as that of a block or a trace-write packet leaves nothing open either. */
  lemma FupCloses(s: Sys, t: Tracer)
    requires Fits(s.log, t) && t.phase.Out? && s.log != [] && s.log[|s.log| - 1].kind.FupOvf?
    ensures var r := AfterFup(s);
            && Fits(r.log, t) && (r.mach, r.psb) == (s.mach, s.psb) && !r.bepFup && !r.ptwFup
  {
    if s.bepFup || s.ptwFup {
      ShieldFits(s.log, FupBep, t);
      ShieldFits(s.log, FupPtw, t);
      assert SetKind(SetKind(s.log, FupBep), FupPtw) == SetKind(s.log, FupPtw);
    }
    hide Fits, SetKind;
  }

  lemma ShieldFits(log: seq<Entry>, kind: L.Kind, t: Tracer)
    requires Fits(log, t) && t.phase.Out? && log != [] && log[|log| - 1].kind.FupOvf? && kind in {FupBep, FupPtw}
    ensures Fits(SetKind(log, kind), t)
  {
  }

  lemma SourceNonzero(log: seq<Entry>, t: Tracer)
    requires Fits(log, t) && t.phase.Transfer?
    ensures t.phase.src != 0
  {
  }

  // ---- Whole sequences ----

  /** The decoder's replay is the machine that takes the steps, up to the process and the compression
      flag, which synchronisation groups and process changes move. */
  predicate Tracks(s: Sys, m: Mach, t: Tracer) {
    m.en && m.idx < |m.ctxs| && s.mach == Globals(if t.phase.Dark? then Reset(m) else m, t, s.mach.en)
  }

  lemma StepTracks(env: Env, m: Mach, step: Step, pgd: nat)
    requires MachOk(env, m) && SureStep(env, m, step)
    ensures MachOk(env, m.(pgd := pgd)) && TakeStep(env, m, step).Some?
    ensures TakeStep(env, m.(pgd := pgd), step) == Some(TakeStep(env, m, step).value.(pgd := pgd))
    ensures TakeStep(env, m, step).value.en == m.en
  {
    GlobalsOk(env, m, pgd, m.en);
    hide MachOk, FeedMach, EnterMach;
  }

  lemma QuietAddress(env: Env, cfg: Config, t: Tracer, p: P.Packet)
    requires cfg.tscRatio > 0 && Quiet(env, cfg, t, p) && p.Address?
    ensures Stops(p) || p.ipOp.Fup?
  {
  }

  lemma QuietDark(env: Env, cfg: Config, t: Tracer, p: P.Packet)
    requires cfg.tscRatio > 0 && Quiet(env, cfg, t, p)
    ensures After(t, p).phase.Dark? == (t.phase.Dark? || Loses(p))
    ensures Loses(p) ==> After(t, p).pgd == 0
  {
  }

  ghost predicate Rests(m: Mach) {
    m.idx < |m.ctxs| && Drained(m.ctxs[m.idx])
  }

  lemma RestsNow(env: Env, m: Mach, steps: seq<Step>)
    requires MachOk(env, m) && SureSteps(env, m, steps) && PlaySteps(env, m, steps).Some?
    requires (steps == [] && Rests(PlaySteps(env, m, steps).value)) || (steps != [] && steps[0].Resumed?)
    ensures Rests(m)
  {
  }

  /** The decoder takes exactly the reported steps. */
  lemma {:induction false} ReportsPlay(env: Env, cfg: Config, s: Sys, ps: seq<P.Packet>, steps: seq<Step>, t: Tracer,
                                       m: Mach)
    requires Ready(env, s, t) && cfg.tscRatio > 0 && Reports(env, cfg, ps, steps, t)
    requires MachOk(env, m) && Tracks(s, m, t) && SureSteps(env, m, steps) && PlaySteps(env, m, steps).Some?
    requires Rests(PlaySteps(env, m, steps).value)
    ensures HandleAll(env, cfg, s, ps).Some?
    ensures var r, end := HandleAll(env, cfg, s, ps).value.mach, PlaySteps(env, m, steps).value;
            r == end.(pgd := r.pgd, en := r.en)
    decreases |ps|
  {
    hide Handle, Fits, MachOk, TakeStep, Quiet, Tells, SureStep;
    if ps != [] {
      var p := ps[0];
      if Quiet(env, cfg, t, p) {
        if p.Address? {
          QuietAddress(env, cfg, t, p);
        }
        if Loses(p) {
          LossStep(env, cfg, s, t, p);
          LossTracks(env, s, m, t, After(t, p));
        } else if Stops(p) {
          RestsNow(env, m, steps);
          StopStep(env, cfg, s, t, p);
        } else {
          if p.Address? {
            FupStep(env, cfg, s, t, p);
          } else {
            OtherStep(env, cfg, s, t, p);
          }
        }
        QuietDark(env, cfg, t, p);
        ReportsPlay(env, cfg, Handle(env, cfg, s, p).value, ps[1..], steps, After(t, p), m);
      } else {
        StepTracks(env, m, steps[0], t.pgd);
        TellsStep(env, cfg, s, t, p, steps[0], m);
        ReportsPlay(env, cfg, Handle(env, cfg, s, p).value, ps[1..], steps[1..], After(t, p),
          TakeStep(env, m, steps[0]).value);
      }
    }
  }

  lemma DarkTells(env: Env, cfg: Config, s: Sys, t: Tracer, p: P.Packet, m: Mach)
    requires Ready(env, s, t) && cfg.tscRatio > 0 && t.phase.Dark? && p.Address? && Tells(env, t, p, Restarted(p.ip))
    requires MachOk(env, m) && Tracks(s, m, t) && SureStep(env, m, Restarted(p.ip))
    ensures Handle(env, cfg, s, p).Some? && TakeStep(env, m, Restarted(p.ip)).Some?
    ensures var r := Handle(env, cfg, s, p).value;
            Ready(env, r, After(t, p)) && Tracks(r, TakeStep(env, m, Restarted(p.ip)).value, After(t, p))
  {
    ResetOk(env, m);
    GlobalsOk(env, Reset(m), t.pgd, true);
    assert s.mach.(en := true) == Reset(m).(pgd := t.pgd);
    hide MachOk, StartMach, Reset, Handle, Fits, Find;
    assert EnableMach(env, s.mach, p.ip) == StartMach(env, Reset(m).(pgd := t.pgd), p.ip);
    RestartStep(env, cfg, s, t, p.ipOp, p.mode, p.ip);
  }

  lemma LossTracks(env: Env, s: Sys, m: Mach, t: Tracer, t': Tracer)
    requires MachOk(env, m) && MachOk(env, s.mach) && Tracks(s, m, t) && t'.phase.Dark? && t'.pgd == 0
    ensures var r := s.(mach := OverflowMach(s.mach)); Tracks(r, m, t')
  {
    assert Reset(Reset(m)) == Reset(m);
  }

  lemma TellsStep(env: Env, cfg: Config, s: Sys, t: Tracer, p: P.Packet, step: Step, m: Mach)
    requires Ready(env, s, t) && cfg.tscRatio > 0 && Tells(env, t, p, step)
    requires MachOk(env, m) && Tracks(s, m, t) && SureStep(env, m, step)
    ensures Handle(env, cfg, s, p).Some? && TakeStep(env, m, step).Some?
    ensures var r := Handle(env, cfg, s, p).value;
            Ready(env, r, After(t, p)) && Tracks(r, TakeStep(env, m, step).value, After(t, p))
  {
    StepTracks(env, m, step, t.pgd);
    if p.Tnt? {
      TntStep(env, cfg, s, t, p.bits, p.len);
    } else if t.phase.Dark? {
      DarkTells(env, cfg, s, t, p, m);
    } else if t.phase.Off? {
      ResumeStep(env, cfg, s, t, p.mode, p.ip, m.(pgd := t.pgd));
    } else {
      TipStep(env, cfg, s, t, p.mode, p.ip, step);
    }
    hide Handle, Fits, MachOk, FeedMach, EnterMach;
  }
}
