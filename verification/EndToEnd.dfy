/** From bytes to the executed path: printing the packets of an execution and decoding the bytes makes
    the replay log, at every interrupt depth, exactly what was executed there. */
module EndToEnd {
  import opened Options
  import opened Program
  import opened ReplayTheory
  import opened Machine
  import opened Execution
  import opened PacketLog
  import opened Decoding
  import opened Stories
  import opened Reporting
  import A = AuxRing
  import Bytes
  import L = PacketLog
  import P = Packets
  import Streams
  import Ticks

  // ---- Every execution can be reported ----

  /** The packets for a step, all with addresses sent in the same way. */
  function Packetize(mode: nat, steps: seq<Step>): seq<P.Packet> {
    if steps == [] then []
    else
      (match steps[0]
       case Given(Bits(bits, len)) => [P.Tnt(bits, len)]
       case Given(Target(addr)) => [P.Address(P.Tip, mode, addr)]
       case Entered(src, dst) => [P.Address(P.Fup, mode, src), P.Address(P.Tip, mode, dst)]
       case Resumed(addr) => [P.Address(P.TipPgd, 0, 0), P.Address(P.TipPge, mode, addr)]
       case Restarted(addr) => [P.Plain(P.Op.Ovf, []), P.Address(P.Fup, mode, addr)])
      + Packetize(mode, steps[1..])
  }

  predicate StepKnown(env: Env, mode: nat, step: Step) {
    match step
    case Given(Bits(_, _)) => true
    case Given(Target(addr)) => Known(env, mode, addr)
    case Entered(src, dst) => Known(env, mode, src) && Known(env, mode, dst)
    case Resumed(addr) => Known(env, mode, addr)
    case Restarted(addr) => Known(env, mode, addr)
  }

  /** Every row of steps at known addresses can be reported. */
  lemma {:induction false} PacketizeReports(env: Env, cfg: Config, mode: nat, steps: seq<Step>, t: Tracer)
    requires forall step | step in steps :: StepKnown(env, mode, step)
    requires cfg.tscRatio > 0 && t.phase.Out? && !t.bep && !t.ptw
    ensures Reports(env, cfg, Packetize(mode, steps), steps, t)
    decreases |steps|
  {
    hide Known, Passes;
    if steps != [] {
      assert steps[0] in steps;
      var ps, rest := Packetize(mode, steps), Packetize(mode, steps[1..]);
      match steps[0] {
        case Given(_) =>
          assert ps[1..] == rest;
          PacketizeReports(env, cfg, mode, steps[1..], After(t, ps[0]));
        case _ =>
          assert ps[1..][1..] == rest;
          var mid := After(t, ps[0]);
          PacketizeReports(env, cfg, mode, steps[1..], After(mid, ps[1]));
          assert Reports(env, cfg, ps[1..], steps, mid);
      }
    }
  }

  // ---- Where tracing starts ----

  /** The tracer's state when it starts: no time stamp sent yet. */
  function Began(s: Sys): Tracer {
    Tracer(Out, s.psb, s.bepFup, s.ptwFup, s.mach.pgd, None)
  }

  lemma StartFits(log: seq<Entry>, e: Entry, s: Sys)
    requires e.kind.TipPge?
    ensures Fits(Claimed(Overflow, log + [e]), Began(s))
  {
    hide Skips;
    NotSkipped(e.kind);
    NotSkipped(L.Kind.TipPgeOvf);
  }

  lemma NotSkipped(kind: L.Kind)
    requires kind.TipPge? || kind.TipPgeOvf?
    ensures forall pairing :: !Skips(pairing, kind)
  {
  }

  lemma StartStep(env: Env, cfg: Config, s: Sys, mode: nat, ip: nat)
    requires SysOk(env, s) && cfg.tscRatio > 0 && Known(env, mode, ip) && EnableMach(env, s.mach, ip).Some?
    ensures var r := Handle(env, cfg, s, P.Address(P.TipPge, mode, ip));
            && r.Some? && Some(r.value.mach) == EnableMach(env, s.mach, ip)
            && Ready(env, r.value, Began(r.value))
            && (r.value.psb, r.value.bepFup, r.value.ptwFup, r.value.mach.pgd, r.value.mach.en)
               == (s.psb, s.bepFup, s.ptwFup, s.mach.pgd, true)
  {
    var v := Valued(s, P.TipPge, mode, ip);
    assert v.log == s.log + [Entry(L.Kind.TipPge, ip, s.cyc)];
    assert EnableMach(env, s.mach, ip).value.pgd == s.mach.pgd && EnableMach(env, s.mach, ip).value.en;
    hide MachOk, EnableMach, Find, Claimed, Fits;
    var r := Handle(env, cfg, s, P.Address(P.TipPge, mode, ip)).value;
    StartFits(s.log, Entry(L.Kind.TipPge, ip, s.cyc), r);
  }

  // ---- From bytes to the path ----

  /** The machine whose replay is recovered: compression is on from the start of tracing. */
  function Started(s: Sys): Mach {
    s.mach.(en := true)
  }

  /** What is asked of an execution, as a row of deeds from the address where tracing starts, and of the
      packets that report it: in the end, every open level is where the replay comes to wait for a packet. */
  ghost predicate IsReport(env: Env, cfg: Config, s: Sys, mode: nat, addr: nat, deeds: seq<Deed>, ps: seq<P.Packet>)
    requires SysOk(env, s) && cfg.tscRatio > 0
  {
    var m := Started(s);
    && Known(env, mode, addr) && StartIndex(env, addr).Some? && Drained(m.ctxs[m.idx])
    && Begins(env, s, addr) && DoDeeds(env, true, Opened(env, m, addr), deeds).Some?
    && AllSettle(env, true, DoDeeds(env, true, Opened(env, m, addr), deeds).value.levels)
    && Reports(env, cfg, ps, StepsOf(deeds), Began(s))
  }

  ghost predicate Begins(env: Env, s: Sys, addr: nat)
    requires SysOk(env, s) && StartIndex(env, addr).Some?
  {
    WorldOk(env, Opened(env, Started(s), addr))
  }

  /** The decoder's replay stands where the execution ends: at every depth its log has grown by what was
      executed there and what it ran ahead over. */
  ghost predicate Recovered(env: Env, s: Sys, addr: nat, deeds: seq<Deed>, r: Option<Sys>)
    requires SysOk(env, s) && StartIndex(env, addr).Some? && Begins(env, s, addr)
    requires DoDeeds(env, true, Opened(env, Started(s), addr), deeds).Some?
  {
    var w := DoDeeds(env, true, Opened(env, Started(s), addr), deeds).value;
    r.Some? && MachOk(env, r.value.mach.(en := true)) && Shows(env, r.value.mach.(en := true), w, s.mach.log)
  }

  lemma StoryStarts(env: Env, s: Sys, addr: nat, deeds: seq<Deed>)
    requires SysOk(env, s) && Sorted(env.insts) && StartIndex(env, addr).Some? && Begins(env, s, addr)
    requires Drained(Started(s).ctxs[s.mach.idx])
    requires DoDeeds(env, true, Opened(env, Started(s), addr), deeds).Some?
    requires AllSettle(env, true, DoDeeds(env, true, Opened(env, Started(s), addr), deeds).value.levels)
    ensures MachOk(env, Started(s)) && StartMach(env, Started(s), addr).Some?
    ensures var m0 := StartMach(env, Started(s), addr).value;
            var w := DoDeeds(env, true, Opened(env, Started(s), addr), deeds).value;
            var r := PlaySteps(env, m0, StepsOf(deeds));
            && SureSteps(env, m0, StepsOf(deeds)) && r.Some? && Shows(env, r.value, w, s.mach.log) && Rests(r.value)
  {
    var m := Started(s);
    GlobalsOk(env, s.mach, s.mach.pgd, true);
    var w0 := Opened(env, m, addr);
    AllSettles(env, true, w0, deeds);
    TopSettles(env, true, w0);
    hide MachOk, StartMach, StartIndex, Settles, Shows, PlaySteps, SureSteps, DoDeeds, AllSettle;
    OpenedShows(env, m, addr);
    var m0 := StartMach(env, m, addr).value;
    StoryRecovered(env, m0, w0, m.log, deeds);
    TopIsKnown(env, true, w0, deeds);
    ShowsRests(env, PlaySteps(env, m0, StepsOf(deeds)).value, DoDeeds(env, true, w0, deeds).value, m.log);
  }

  lemma PacketsToPath(env: Env, cfg: Config, s: Sys, mode: nat, addr: nat, deeds: seq<Deed>, ps: seq<P.Packet>)
    requires SysOk(env, s) && Sorted(env.insts) && cfg.tscRatio > 0 && IsReport(env, cfg, s, mode, addr, deeds, ps)
    ensures Recovered(env, s, addr, deeds, HandleAll(env, cfg, s, [P.Address(P.TipPge, mode, addr)] + ps))
  {
    var first, steps := P.Address(P.TipPge, mode, addr), StepsOf(deeds);
    StoryStarts(env, s, addr, deeds);
    assert EnableMach(env, s.mach, addr) == StartMach(env, Started(s), addr);
    StartStep(env, cfg, s, mode, addr);
    hide Handle, Fits, EnableMach, StartMach, DoDeeds, DoDeed, PlaySteps, SureSteps, Shows, Find, Reports, MachOk,
         AllSettle, Opened, StepsOf, WorldOk;
    var next := Handle(env, cfg, s, first).value;
    ReportsPlay(env, cfg, next, ps, steps, Began(s), next.mach);
    var end, r := PlaySteps(env, next.mach, steps).value, HandleAll(env, cfg, next, ps).value.mach;
    ShowsAnyProcess(env, end, DoDeeds(env, true, Opened(env, Started(s), addr), deeds).value, s.mach.log, r.pgd);
    var all := [first] + ps;
    assert all[0] == first && all[1..] == ps;
    assert r.(en := true) == end.(pgd := r.pgd);
  }

  /** The bytes of packets that start tracing at an address and then report an execution, with everything
      a tracer sends in between, are decoded, and the decoder's replay has logged, at every interrupt depth,
      what was executed there and what it ran ahead over. */
  lemma BytesToPath(env: Env, cfg: Config, d: Decoder, mode: nat, addr: nat, deeds: seq<Deed>, ps: seq<P.Packet>)
    requires SysOk(env, d.sys) && Sorted(env.insts) && cfg.tscRatio > 0
    requires IsReport(env, cfg, d.sys, mode, addr, deeds, ps)
    requires Streams.WellFormedAll(d.parser, [P.Address(P.TipPge, mode, addr)] + ps)
    ensures var r := Decode(env, cfg, d, Streams.PrintAll(d.parser, [P.Address(P.TipPge, mode, addr)] + ps));
            Recovered(env, d.sys, addr, deeds, SysOf(r))
  {
    var all := [P.Address(P.TipPge, mode, addr)] + ps;
    PacketsToPath(env, cfg, d.sys, mode, addr, deeds, ps);
    hide HandleAll, Recovered, IsReport, P.ParseAll, Decode, Streams.PrintAll, Streams.WellFormedAll;
    Streams.StreamRoundTrip(d.parser, all);
    DecodeIsParseThenHandle(env, cfg, d, Streams.PrintAll(d.parser, all));
  }

  /** So at a depth where nothing was given up that the replay had run ahead over, and where a level still
      open waits for a packet, the log has grown by exactly what was executed; and only there. */
  lemma LogIsExact(env: Env, s: Sys, addr: nat, deeds: seq<Deed>, r: Option<Sys>, depth: nat)
    requires SysOk(env, s) && Sorted(env.insts) && StartIndex(env, addr).Some? && Begins(env, s, addr)
    requires DoDeeds(env, true, Opened(env, Started(s), addr), deeds).Some? && Recovered(env, s, addr, deeds, r)
    ensures var w := DoDeeds(env, true, Opened(env, Started(s), addr), deeds).value;
            AtDepth(r.value.mach.log, depth) == AtDepth(s.mach.log, depth) + ExecutedAt(w.log, depth)
            <==> && (forall k | 0 <= k < |w.log| && w.log[k].depth == depth :: w.log[k].done)
                 && (depth < |w.levels| && w.levels[depth].place.On? ==>
                    Starved(env, w.levels[depth].place.p.at, [], []))
  {
    var w := DoDeeds(env, true, Opened(env, Started(s), addr), deeds).value;
    ShownIsExecuted(env, true, w, depth);
    hide DoDeeds, Opened, MachOk, Stands, Shown, LoggedAt, ExecutedAt, Starved;
    var grown, was := AtDepth(r.value.mach.log, depth), AtDepth(s.mach.log, depth);
    assert grown == was + Shown(env, true, w, depth);
    assert grown[|was|..] == Shown(env, true, w, depth);
    assert (was + ExecutedAt(w.log, depth))[|was|..] == ExecutedAt(w.log, depth);
  }

  function SysOf(d: Option<Decoder>): Option<Sys> {
    match d
    case None => None
    case Some(decoder) => Some(decoder.sys)
  }

  // ---- From the ring ----

  /** From the ring to the decoder: over a run of records that end at packet boundaries, decoding record
      by record is decoding the stream the processor wrote. */
  lemma RecordsToDecoder(env: Env, cfg: Config, d: Decoder, stream: nat -> Bytes.Byte, rs: seq<A.Record>, tail: nat)
    requires SysOk(env, d.sys) && cfg.tscRatio > 0
    requires forall r | r in rs :: |r.ring| > 0 && A.Written(stream, r)
    requires A.TakeAll(rs, tail, false).Some? && !A.TakeAll(rs, tail, false).value.2
    requires Aligned(d.parser, A.TakeAll(rs, tail, false).value.0)
    ensures var (chunks, end, _) := A.TakeAll(rs, tail, false).value;
            tail <= end && DecodeOnline(env, cfg, d, chunks) == Decode(env, cfg, d, A.Piece(stream, tail, end))
  {
    hide Handle, A.TakeAll, A.Piece, Aligned, Decode, DecodeOnline;
    A.RunTiles(stream, rs, tail, false);
    OnlineIsOffline(env, cfg, d, A.TakeAll(rs, tail, false).value.0);
  }

  /** From ring records to the path: if what the processor wrote between two tails is the packets of an
      execution, decoding the records as they arrive recovers the execution. */
  lemma RingToPath(env: Env, cfg: Config, d: Decoder, stream: nat -> Bytes.Byte, rs: seq<A.Record>, tail: nat,
                   mode: nat, addr: nat, deeds: seq<Deed>, ps: seq<P.Packet>)
    requires SysOk(env, d.sys) && Sorted(env.insts) && cfg.tscRatio > 0
    requires forall r | r in rs :: |r.ring| > 0 && A.Written(stream, r)
    requires A.TakeAll(rs, tail, false).Some? && !A.TakeAll(rs, tail, false).value.2
    requires Aligned(d.parser, A.TakeAll(rs, tail, false).value.0)
    requires IsReport(env, cfg, d.sys, mode, addr, deeds, ps)
    requires Streams.WellFormedAll(d.parser, [P.Address(P.TipPge, mode, addr)] + ps)
    requires tail <= A.TakeAll(rs, tail, false).value.1
    requires A.Piece(stream, tail, A.TakeAll(rs, tail, false).value.1)
             == Streams.PrintAll(d.parser, [P.Address(P.TipPge, mode, addr)] + ps)
    ensures Recovered(env, d.sys, addr, deeds, SysOf(DecodeOnline(env, cfg, d, A.TakeAll(rs, tail, false).value.0)))
  {
    RecordsToDecoder(env, cfg, d, stream, rs, tail);
    hide Decode, DecodeOnline, A.TakeAll, A.Piece, IsReport, Recovered, Streams.PrintAll, Streams.WellFormedAll,
         Aligned;
    BytesToPath(env, cfg, d, mode, addr, deeds, ps);
  }

  // ---- Recovery from lost packets ----

  /** What the decoder skips between an overflow and the address that closes it: timing packets and
      synchronisation words, four of them to a PSBEND. */
  predicate Waits(ps: seq<P.Packet>, psb: nat) {
    ps == [] ||
    if ps[0].Psb? then Waits(ps[1..], psb + 1)
    else if ps[0].Plain? then ps[0].op.PsbEnd? && psb == 4 && Waits(ps[1..], 0)
    else (ps[0].Cyc? || ps[0].Mtc? || ps[0].Cbr? || ps[0].Tsc?) && Waits(ps[1..], psb)
  }

  lemma WaitStep(env: Env, cfg: Config, s: Sys, p: P.Packet, gap: nat)
    requires SysOk(env, s) && cfg.tscRatio > 0 && Unanswered(s.log, gap) && gap + 4 < HISTORY
    requires p.Psb? || (p.Plain? && p.op.PsbEnd? && s.psb == 4) || p.Cyc? || p.Mtc? || p.Cbr? || p.Tsc?
    ensures var r := Handle(env, cfg, s, p);
            && r.Some? && r.value.mach == s.mach.(en := r.value.mach.en) && Unanswered(r.value.log, gap + 1)
            && r.value.psb == (if p.Psb? then s.psb + 1 else if p.Plain? then 0 else s.psb)
  {
    if p.Psb? {
      NotedEntry(s.(psb := s.psb + 1), L.Kind.Psb, s.psb + 1);
      StillUnanswered(s.log, NotedNow(s.(psb := s.psb + 1), L.Kind.Psb, s.psb + 1).log[|s.log|], gap);
    } else if p.Plain? {
      NotedEntry(s.(psb := 0), L.Kind.PsbEnd, 0);
      StillUnanswered(s.log, NotedNow(s.(psb := 0), L.Kind.PsbEnd, 0).log[|s.log|], gap);
    } else if p.Tsc? {
      StillUnanswered(s.log, Entry(L.Kind.Tsc, p.tsc, s.cyc), gap);
    } else {
      MarkTaken(s, p);
      FlagsOnly(s, p);
      NotedEntry(Flagged(s, p), MarkOf(p).0, MarkOf(p).1);
      StillUnanswered(s.log, HandleMark(s, p).value.log[|s.log|], gap);
    }
    hide MachOk, Unanswered, Ticks.Record, Ticks.AtTsc;
  }

  lemma {:induction false} AllWait(env: Env, cfg: Config, s: Sys, ps: seq<P.Packet>, gap: nat)
    requires SysOk(env, s) && cfg.tscRatio > 0 && Unanswered(s.log, gap) && gap + |ps| + 3 < HISTORY
    requires Waits(ps, s.psb)
    ensures var r := HandleAll(env, cfg, s, ps);
            r.Some? && r.value.mach == s.mach.(en := r.value.mach.en) && Unanswered(r.value.log, gap + |ps|)
    decreases |ps|
  {
    hide Handle, MachOk, Unanswered;
    if ps != [] {
      WaitStep(env, cfg, s, ps[0], gap);
      AllWait(env, cfg, Handle(env, cfg, s, ps[0]).value, ps[1..], gap + 1);
    }
  }

  /** After an overflow everything is forgotten, and the next address packet, a FUP or a TIP.PGE, after
      any packets that are skipped makes the replay start afresh there. */
  lemma OverflowRecovers(env: Env, cfg: Config, s: Sys, op: P.IpOp, ps: seq<P.Packet>, mode: nat, ip: nat)
    requires SysOk(env, s) && cfg.tscRatio > 0 && Known(env, mode, ip) && (op.Fup? || op.TipPge?)
    requires Waits(ps, 0) && |ps| + 3 < HISTORY
    ensures MachOk(env, OverflowMach(s.mach))
    ensures var lost := Handle(env, cfg, s, P.Plain(P.Op.Ovf, []));
            && lost.Some?
            && var waited := HandleAll(env, cfg, lost.value, ps);
               && waited.Some?
               && var r := Handle(env, cfg, waited.value, P.Address(op, mode, ip));
                  match EnableMach(env, OverflowMach(s.mach), ip)
                  case None => r == None
                  case Some(m) => r.Some? && r.value.mach == m
  {
    ResetOk(env, s.mach);
    hide MachOk, EnableMach, Find, Reset, Ticks.Record;
    var lost := Handle(env, cfg, s, P.Plain(P.Op.Ovf, [])).value;
    assert lost.log[|s.log|].kind.Ovf?;
    AllWait(env, cfg, lost, ps, 0);
    var waited := HandleAll(env, cfg, lost, ps).value;
    StartsAfresh(env, cfg, waited, op, mode, ip, |ps|);
    EnableTwice(env, OverflowMach(s.mach), waited.mach.en, ip);
  }

  lemma EnableTwice(env: Env, m: Mach, en: bool, ip: nat)
    requires MachOk(env, m)
    ensures MachOk(env, m.(en := en)) && EnableMach(env, m.(en := en), ip) == EnableMach(env, m, ip)
  {
    GlobalsOk(env, m, m.pgd, en);
    assert m.(en := en).(en := true) == m.(en := true);
    hide StartMach, MachOk;
  }

  lemma StartsAfresh(env: Env, cfg: Config, s: Sys, op: P.IpOp, mode: nat, ip: nat, gap: nat)
    requires SysOk(env, s) && cfg.tscRatio > 0 && Known(env, mode, ip) && (op.Fup? || op.TipPge?)
             && Unanswered(s.log, gap)
    ensures var r := Handle(env, cfg, s, P.Address(op, mode, ip));
            match EnableMach(env, s.mach, ip)
            case None => r == None
            case Some(m) => r.Some? && r.value.mach == m
  {
    AddressAfresh(env, s, op, mode, ip, gap);
    HandleIsAddress(env, cfg, s, op, mode, ip);
    hide Handle, HandleAddress, EnableMach, MachOk, Unanswered, Known;
    var r := HandleAddress(env, s, op, mode, ip);
    if r.Some? {
      FupKeepsMach(r.value);
    }
  }

  lemma FupKeepsMach(s: Sys)
    ensures AfterFup(s).mach == s.mach
  {
  }

  lemma AddressAfresh(env: Env, s: Sys, op: P.IpOp, mode: nat, ip: nat, gap: nat)
    requires SysOk(env, s) && Known(env, mode, ip) && (op.Fup? || op.TipPge?) && Unanswered(s.log, gap)
    ensures var r := HandleAddress(env, s, op, mode, ip);
            match EnableMach(env, s.mach, ip)
            case None => r == None
            case Some(m) => r.Some? && r.value.mach == m
  {
    var e := Entry(IpKind(op), ip, if op.Fup? then 0 else s.cyc);
    AddressNoted(s, op, mode, ip);
    Answers(s.log, e, gap);
    KnownPasses(env, s.mach.pgd, mode, ip);
    hide MachOk, EnableMach, Find, Opener, Claim, Valued, Unanswered, Unmapped;
  }

  lemma AddressNoted(s: Sys, op: P.IpOp, mode: nat, ip: nat)
    requires mode != 0 && (op.Fup? || op.TipPge?)
    ensures var v := Valued(s, op, mode, ip);
            v.log == s.log + [Entry(IpKind(op), ip, if op.Fup? then 0 else s.cyc)] && v.mach == s.mach
  {
    hide Ticks.Record;
  }
}
