/** The pairing of packets holds over every run of the decoder. */
module DecoderPairs {
  import opened Options
  import opened Program
  import opened Packets
  import opened PacketLog
  import opened Decoding
  import L = PacketLog
  import Machine
  import Ticks
  import ReplayTheory

  // ---- What a packet does to the history ----

  /** The history entry of an address packet, once its address is known. */
  function AddressEntry(s: Sys, op: IpOp, mode: nat, ip: nat): Entry {
    Entry(IpKind(op), if mode != 0 then ip else ALL_ONES, if op.Fup? then 0 else s.cyc)
  }

  /** An address packet is recorded and closes what waits for it; one that a block or a trace-write
      packet waits for is marked again. */
  function AddressActions(s: Sys, op: IpOp, mode: nat, ip: nat): seq<Action> {
    if op.TipPgd? then [Restart]
    else [Record(AddressEntry(s, op, mode, ip)), Close(ClosesBy(op))]
  }

  function MarkActions(s: Sys): seq<Action> {
    (if s.bepFup then [Retype(FupBep)] else []) + (if s.ptwFup then [Retype(FupPtw)] else [])
  }

  /** The actions of one packet; any other packet is only recorded. */
  ghost function ActionsOf(env: Env, cfg: Config, s: Sys, p: Packet): seq<Action>
    requires SysOk(env, s) && cfg.tscRatio > 0 && Handle(env, cfg, s, p).Some?
  {
    if p.Address? then AddressActions(s, p.ipOp, p.mode, p.ip) + (if p.ipOp.Fup? then MarkActions(s) else [])
    else
      var log := Handle(env, cfg, s, p).value.log;
      if |log| == |s.log| + 1 then [Record(log[|s.log|])] else []
  }

  ghost function RunActions(env: Env, cfg: Config, s: Sys, ps: seq<Packet>): seq<Action>
    requires SysOk(env, s) && cfg.tscRatio > 0 && HandleAll(env, cfg, s, ps).Some?
    decreases |ps|
  {
    if ps == [] then []
    else ActionsOf(env, cfg, s, ps[0]) + RunActions(env, cfg, Handle(env, cfg, s, ps[0]).value, ps[1..])
  }

  lemma {:induction false} DoConcat(h: History, a: seq<Action>, b: seq<Action>)
    requires AllowedAll(h, a) && AllowedAll(DoAll(h, a), b)
    ensures AllowedAll(h, a + b) && DoAll(h, a + b) == DoAll(DoAll(h, a), b)
    decreases |a|
  {
    if a == [] {
      assert a + b == b;
    } else {
      assert (a + b)[0] == a[0] && (a + b)[1..] == a[1..] + b;
      DoConcat(Do(h, a[0]), a[1..], b);
    }
  }

  lemma DoOne(h: History, a: Action)
    requires Allowed(h, a)
    ensures AllowedAll(h, [a]) && DoAll(h, [a]) == Do(h, a)
  {
    assert [a][1..] == [];
  }

  lemma DoTwo(h: History, a: Action, b: Action)
    requires Allowed(h, a) && Allowed(Do(h, a), b)
    ensures AllowedAll(h, [a, b]) && DoAll(h, [a, b]) == Do(Do(h, a), b)
  {
    DoOne(h, a);
    DoOne(Do(h, a), b);
    assert [a] + [b] == [a, b];
    DoConcat(h, [a], [b]);
  }

  /** The latest packet is a FUP that may be marked again. */
  predicate EndsInFup(log: seq<Entry>) {
    log != [] && log[|log| - 1].kind in {L.Kind.Fup, FupOvf, FupBep, FupPtw}
  }

  function ClosesBy(op: IpOp): Pairing {
    if op.Tip? then Async else Overflow
  }

  /** The history after an address packet. */
  lemma AddressLog(env: Env, s: Sys, op: IpOp, mode: nat, ip: nat)
    requires SysOk(env, s) && HandleAddress(env, s, op, mode, ip).Some? && (mode == 0 ==> ip == 0)
    ensures var next := HandleAddress(env, s, op, mode, ip).value;
            && next.log == (if op.TipPgd? then [] else Claimed(ClosesBy(op), s.log + [AddressEntry(s, op, mode, ip)]))
            && (next.bepFup, next.ptwFup) == (s.bepFup, s.ptwFup)
  {
    assert !op.TipPgd? ==> Valued(s, op, mode, ip).log == s.log + [AddressEntry(s, op, mode, ip)];
    hide Machine.EnableMach, Machine.EnterMach, Machine.FeedMach, Machine.MachOk, Opener, Claim, SetVal, Unmapped;
  }

  lemma ClaimEndsInFup(log: seq<Entry>, e: Entry)
    requires e.kind.Fup?
    ensures EndsInFup(Claimed(Overflow, log + [e]))
  {
    hide ScanBack;
  }

  lemma AddressActs(env: Env, s: Sys, op: IpOp, mode: nat, ip: nat, h: History)
    requires SysOk(env, s) && h.log == s.log && HandleAddress(env, s, op, mode, ip).Some?
    requires mode == 0 ==> ip == 0
    ensures var next := HandleAddress(env, s, op, mode, ip).value;
            && AllowedAll(h, AddressActions(s, op, mode, ip))
            && DoAll(h, AddressActions(s, op, mode, ip)).log == next.log
            && (op.Fup? ==> EndsInFup(next.log))
            && (next.bepFup, next.ptwFup) == (s.bepFup, s.ptwFup)
  {
    AddressLog(env, s, op, mode, ip);
    if op.TipPgd? {
      DoOne(h, Restart);
    } else {
      var e := AddressEntry(s, op, mode, ip);
      NoZeroFup(env, s, op, mode, ip);
      hide HandleAddress, ScanBack, Claim;
      DoTwo(h, Record(e), Close(ClosesBy(op)));
      if op.Fup? {
        ClaimEndsInFup(s.log, e);
      }
    }
  }

  lemma NoZeroFup(env: Env, s: Sys, op: IpOp, mode: nat, ip: nat)
    requires SysOk(env, s) && HandleAddress(env, s, op, mode, ip).Some? && !op.TipPgd?
    ensures ip != 0
  {
    hide ActOnAddress, Unmapped, Valued;
  }

  lemma MarksAct(s: Sys, h: History)
    requires h.log == s.log && EndsInFup(s.log)
    ensures AllowedAll(h, MarkActions(s)) && DoAll(h, MarkActions(s)).log == AfterFup(s).log
  {
    var bep: seq<Action> := if s.bepFup then [Retype(FupBep)] else [];
    var ptw: seq<Action> := if s.ptwFup then [Retype(FupPtw)] else [];
    if s.bepFup {
      DoOne(h, Retype(FupBep));
    }
    var mid := DoAll(h, bep);
    if s.ptwFup {
      DoOne(mid, Retype(FupPtw));
    }
    DoConcat(h, bep, ptw);
  }

  /** A packet that is only added to the history, and is no half of a pair. */
  predicate Appends(before: seq<Entry>, after: seq<Entry>) {
    && |after| == |before| + 1 && after == before + [after[|before|]]
    && !Marked(after[|before|].kind) && !after[|before|].kind.Blank? && !after[|before|].kind.Fup?
  }

  lemma NotedAppends(s: Sys, kind: L.Kind, val: nat, cyc: nat)
    requires !kind.TipPgd? && !Marked(kind) && !kind.Blank? && !kind.Fup?
    ensures Appends(s.log, Noted(s, kind, val, cyc).log)
  {
  }

  lemma PlainAppends(env: Env, s: Sys, op: Op)
    requires SysOk(env, s) && HandlePlain(env, s, op).Some?
    ensures Appends(s.log, HandlePlain(env, s, op).value.log)
  {
    NotedAppends(s, OpKind(op), 0, s.cyc);
    NotedAppends(s.(psb := 0), OpKind(op), 0, s.cyc);
    NotedAppends(s.(psb := 0, bepFup := false), OpKind(op), 0, s.cyc);
    hide Noted, Appends, Machine.Reset, Machine.MachOk;
  }

  lemma TmaAppends(cfg: Config, s: Sys, ctc: nat, fc: nat)
    requires cfg.tscRatio > 0 && HandleTma(cfg, s, ctc, fc).Some?
    ensures Appends(s.log, HandleTma(cfg, s, ctc, fc).value.log)
  {
    hide Ticks.Record, Ticks.Minus, Latest;
  }

  lemma MarkAppends(s: Sys, p: Packet)
    requires IsMark(p) && HandleMark(s, p).Some?
    ensures Appends(s.log, HandleMark(s, p).value.log)
  {
    var (kind, val) := MarkOf(p);
    var flagged := Flagged(s, p);
    assert flagged.log == s.log && !kind.TipPgd? && !Marked(kind) && !kind.Fup?;
    hide Noted, Flagged, MarkOf;
    NotedAppends(flagged, kind, val, flagged.cyc);
  }

  lemma OtherAppends(env: Env, cfg: Config, s: Sys, p: Packet)
    requires SysOk(env, s) && cfg.tscRatio > 0 && !p.Address? && Handle(env, cfg, s, p).Some?
    ensures Appends(s.log, Handle(env, cfg, s, p).value.log)
  {
    hide Machine.FeedMach, Ticks.Record, Ticks.Counts, HandlePlain, HandleTma, HandleAddress, HandleMark,
         Machine.MachOk, Noted;
    match p {
      case Plain(op, _) => PlainAppends(env, s, op);
      case Tma(ctc, fc) => TmaAppends(cfg, s, ctc, fc);
      case Psb => NotedAppends(s.(psb := s.psb + 1), L.Kind.Psb, s.psb + 1, s.cyc);
      case Pip(pgd) => NotedAppends(s, L.Kind.Pip, pgd, s.cyc);
      case Tnt(bits, len) => NotedAppends(s, L.Kind.ShortTnt, TntByte(bits, len), s.cyc);
      case Tsc(_) =>
      case _ => MarkAppends(s, p);
    }
  }

  lemma OtherActs(env: Env, cfg: Config, s: Sys, p: Packet, h: History)
    requires SysOk(env, s) && cfg.tscRatio > 0 && h.log == s.log && !p.Address? && Handle(env, cfg, s, p).Some?
    ensures AllowedAll(h, ActionsOf(env, cfg, s, p))
    ensures DoAll(h, ActionsOf(env, cfg, s, p)).log == Handle(env, cfg, s, p).value.log
  {
    hide Handle;
    OtherAppends(env, cfg, s, p);
    DoOne(h, Record(Handle(env, cfg, s, p).value.log[|s.log|]));
  }

  /** The history after a packet is what its actions make of the history before. */
  lemma PacketActs(env: Env, cfg: Config, s: Sys, p: Packet, h: History)
    requires SysOk(env, s) && cfg.tscRatio > 0 && h.log == s.log && Handle(env, cfg, s, p).Some?
    requires p.Address? && p.mode == 0 ==> p.ip == 0
    ensures AllowedAll(h, ActionsOf(env, cfg, s, p))
    ensures DoAll(h, ActionsOf(env, cfg, s, p)).log == Handle(env, cfg, s, p).value.log
  {
    hide HandleAddress, HandlePlain, HandleTma, HandleMark, AddressActions, MarkActions, AfterFup, AllowedAll, DoAll,
         Do, EndsInFup;
    if p.Address? {
      AddressActs(env, s, p.ipOp, p.mode, p.ip, h);
      var mid := HandleAddress(env, s, p.ipOp, p.mode, p.ip).value;
      var acts := AddressActions(s, p.ipOp, p.mode, p.ip);
      if p.ipOp.Fup? {
        SameMarks(s, mid);
        MarksAct(mid, DoAll(h, acts));
        DoConcat(h, acts, MarkActions(s));
      } else {
        assert acts + [] == acts;
      }
    } else {
      OtherActs(env, cfg, s, p, h);
    }
  }

  lemma SameMarks(s: Sys, t: Sys)
    requires (s.bepFup, s.ptwFup) == (t.bepFup, t.ptwFup)
    ensures MarkActions(s) == MarkActions(t)
  {
  }

  /** The history after a run is what the actions of its packets make of the history before. */
  lemma {:induction false} RunActs(env: Env, cfg: Config, s: Sys, ps: seq<Packet>, h: History)
    requires SysOk(env, s) && cfg.tscRatio > 0 && h.log == s.log && HandleAll(env, cfg, s, ps).Some?
    requires forall p | p in ps && p.Address? && p.mode == 0 :: p.ip == 0
    ensures AllowedAll(h, RunActions(env, cfg, s, ps))
    ensures DoAll(h, RunActions(env, cfg, s, ps)).log == HandleAll(env, cfg, s, ps).value.log
    decreases |ps|
  {
    hide Handle, ActionsOf, Do;
    if ps != [] {
      assert ps[0] in ps;
      PacketActs(env, cfg, s, ps[0], h);
      var acts, next := ActionsOf(env, cfg, s, ps[0]), Handle(env, cfg, s, ps[0]).value;
      RunActs(env, cfg, next, ps[1..], DoAll(h, acts));
      DoConcat(h, acts, RunActions(env, cfg, next, ps[1..]));
    }
  }

  /** The pairs a run claims, after those claimed before: one for every close that finds its opener. */
  ghost function RunPairs(env: Env, cfg: Config, s: Sys, ps: seq<Packet>, pairs: seq<Pair>): seq<Pair>
    requires SysOk(env, s) && cfg.tscRatio > 0 && HandleAll(env, cfg, s, ps).Some?
    requires forall p | p in ps && p.Address? && p.mode == 0 :: p.ip == 0
  {
    RunActs(env, cfg, s, ps, History(s.log, pairs));
    DoAll(History(s.log, pairs), RunActions(env, cfg, s, ps)).pairs
  }

  /** Whatever packets arrive: over the pairs the run claims, each overflow is closed at most once, each
      address packet is the source of at most one transfer, and only skipped packets stand in between;
      and every packet marked as half of a pair is half of one that was claimed. */
  lemma PairsInEveryRun(env: Env, cfg: Config, s: Sys, ps: seq<Packet>, pairs: seq<Pair>)
    requires SysOk(env, s) && cfg.tscRatio > 0 && Paired(History(s.log, pairs)) && Listed(History(s.log, pairs))
    requires forall p | p in ps && p.Address? && p.mode == 0 :: p.ip == 0
    requires HandleAll(env, cfg, s, ps).Some?
    ensures var h := History(HandleAll(env, cfg, s, ps).value.log, RunPairs(env, cfg, s, ps, pairs));
            Paired(h) && Listed(h)
  {
    hide HandleAll, RunActions, Paired, Listed, DoAll, AllowedAll;
    var h := History(s.log, pairs);
    RunActs(env, cfg, s, ps, h);
    PairingHolds(h, RunActions(env, cfg, s, ps));
  }

  /** A target enters a handler exactly when it claims a FUP, and then from that FUP's address. */
  lemma ClaimsEnter(env: Env, s: Sys, mode: nat, ip: nat, h: History)
    requires SysOk(env, s) && h.log == s.log && Paired(h) && mode != 0 && ip != 0
    requires HandleAddress(env, s, IpOp.Tip, mode, ip).Some?
    ensures AllowedAll(h, AddressActions(s, IpOp.Tip, mode, ip))
    ensures var after := DoAll(h, AddressActions(s, IpOp.Tip, mode, ip));
            var mach := HandleAddress(env, s, IpOp.Tip, mode, ip).value.mach;
            if |after.pairs| > |h.pairs| then
              var p := after.pairs[|h.pairs|];
              && p == Pair(Async, p.opener, |s.log|) && p.opener < |s.log|
              && Machine.EnterMach(env, s.mach, s.log[p.opener].val, ip) == Some(mach)
            else after.pairs == h.pairs && Machine.FeedMach(env, s.mach, ReplayTheory.Target(ip)) == Some(mach)
  {
    var e := AddressEntry(s, IpOp.Tip, mode, ip);
    assert Valued(s, IpOp.Tip, mode, ip).log == s.log + [e];
    RecordKeeps(h, e);
    var h1 := Do(h, Record(e));
    SourceIffClaimed(h1);
    hide Machine.EnterMach, Machine.FeedMach, Machine.MachOk, Paired, Unmapped, ScanBack;
    DoTwo(h, Record(e), Close(Async));
  }
}
