/** The decoder as the source runs it (`intel_pt_decode_online` and what it calls, src/intel_pt.c):
    one loop over the buffer, with the parser's state, the history ring, the clock and the replay
    updated in place. Every method is proved against the decoder of the specification; a false result
    stands for the deliberate stop after an error message. */
module Online {
  import opened Options
  import opened Program
  import opened Machine
  import opened Bytes
  import opened Packets
  import opened PacketLog
  import opened Decoding
  import opened Replayer
  import opened Timers
  import L = PacketLog
  import R = PacketRing
  import ReplayTheory
  import Silent
  import Ticks

  function Further(r: Option<(nat, nat)>, k: nat): Option<(nat, nat)> {
    match r
    case None => None
    case Some((v, n)) => Some((v, n + k))
  }

  /** A cycle packet: five bits, then seven a byte for as long as the lowest bit is set. */
  method ReadCyc(x: seq<Byte>, at: nat) returns (r: Parsed)
    requires at < |x|
    ensures r == ParseCyc(x[at..])
  {
    hide Shl;
    var i: nat, cyc: nat, more := 0, x[at] / 8, x[at] / 4 % 2 == 1;
    ghost var tail := x[at..][1..];
    assert tail == x[at + 1..];
    if !more {
      return Got(Packet.Cyc(cyc), 1);
    }
    while more
      invariant at + 1 + i <= |x|
      invariant if more then ParseCycles(tail, 5, x[at] / 8) == Further(ParseCycles(x[at + 1 + i..], 5 + 7 * i, cyc), i)
                else i > 0 && ParseCycles(tail, 5, x[at] / 8) == Some((cyc, i))
      decreases |x| - i, more
    {
      if at + 1 + i == |x| || 5 + 7 * i > 63 {
        return Error;
      }
      var b := x[at + 1 + i];
      assert x[at + 1 + i..][0] == b && x[at + 1 + i..][1..] == x[at + 2 + i..];
      cyc := (cyc + Shl(b / 2, 5 + 7 * i)) % TWO64;
      more := b % 2 == 1;
      i := i + 1;
    }
    r := Got(Packet.Cyc(cyc), i + 1);
  }

  class Decoder {
    const cfg: Config
    const session: Session
    const history: R.Ring
    const timer: Timer
    /** The parser's state. */
    var lastIp: nat
    var inBlock: bool
    /** PSB words seen, and whether a block or a trace-write packet awaits its address. */
    var psb: nat
    var bepFup: bool
    var ptwFup: bool
    var cyc: nat

    ghost function Parts(): set<object>
      reads this
    {
      {this, history, history.slots, timer} + session.Parts()
    }

    ghost predicate Apart() {
      this !in session.Parts() && history !in session.Parts() && history.slots !in session.Parts()
        && timer !in session.Parts()
    }

    ghost predicate Valid()
      reads Parts()
    {
      Apart() && history.Valid() && session.Valid() && cfg.tscRatio > 0
    }

    ghost function TheEnv(): Env
      reads session.finder
    {
      session.TheEnv()
    }

    /** The state behind the parser, in the specification. */
    ghost function System(): Sys
      reads this, session, history, timer
    {
      Sys(session.m, history.log, timer.Value(), cyc, psb, bepFup, ptwFup)
    }

    ghost function Value(): Decoding.Decoder
      reads this, session, history, timer
    {
      Decoding.Decoder(State(lastIp, inBlock), System())
    }

    lemma SystemOk()
      requires Valid()
      ensures SysOk(TheEnv(), System())
    {
    }

    constructor (cfg: Config, session: Session)
      requires cfg.tscRatio > 0 && session.Valid()
      ensures Valid() && this.session == session && this.cfg == cfg
      ensures Value() == Decoding.Decoder(State(0, false), Sys(session.m, [], Ticks.Initial(), 0, 0, false, false))
      ensures fresh(Parts() - session.Parts())
    {
      this.cfg, this.session := cfg, session;
      history := new R.Ring();
      timer := new Timer();
      lastIp, inBlock, psb, bepFup, ptwFup, cyc := 0, false, 0, false, false, 0;
    }

    method Keep(e: Entry)
      requires Valid() && e.kind != L.Blank
      modifies history, history.slots
      ensures Valid()
      ensures System() == old(System()).(log := if e.kind.TipPgd? then [] else old(history.log) + [e])
    {
      hide R.Ring.Valid, Session.Valid;
      history.Note(e);
    }

    method Tick(kind: L.Kind, val: nat)
      requires Valid()
      modifies timer
      ensures Valid()
      ensures System() == old(System()).(clock := Ticks.Record(old(timer.Value()), kind, val, cyc))
    {
      hide R.Ring.Valid, Session.Valid, Ticks.Record;
      timer.Record(kind, val, cyc);
    }

    /** `record_intel_pt_pkt`. */
    method Record(kind: L.Kind, val: nat)
      requires Valid() && kind != L.Blank
      modifies timer, history, history.slots
      ensures Valid()
      ensures System() == NotedNow(old(System()), kind, val)
    {
      hide Valid, Ticks.Record, Ticks.Counts;
      Tick(kind, val);
      Keep(Entry(kind, val, if Ticks.Counts(kind) then cyc else 0));
    }

    method CheckAddress(ip: nat) returns (unmapped: bool)
      requires Valid()
      modifies session.finder`hint, session.finder.high, session.finder.low
      ensures Valid() && System() == old(System()) && TheEnv() == old(TheEnv())
      ensures unmapped <==> Unmapped(TheEnv(), old(session.m).pgd, ip)
    {
      hide R.Ring.Valid, Session.Valid, Find, Enabled;
      unmapped := session.IsUnmapped(ip);
    }

    method AmendLatest(val: Option<nat>, kind: Option<L.Kind>)
      requires Valid() && kind != Some(L.Blank)
      modifies history`log, history.slots
      ensures Valid()
      ensures var was := old(System());
              var valued := if val.Some? then SetVal(was.log, val.value) else was.log;
              System() == was.(log := if kind.Some? then SetKind(valued, kind.value) else valued)
    {
      hide R.Ring.Valid, Session.Valid, SetVal, SetKind;
      history.Amend(val, kind);
    }

    /** Note an address packet and check its address. */
    method NoteAddress(op: IpOp, mode: nat, ip: nat) returns (ok: bool)
      requires Valid()
      modifies timer, history, history.slots, session.finder`hint, session.finder.high, session.finder.low
      ensures TheEnv() == old(TheEnv())
      ensures ok <==> !(mode != 0 && Unmapped(TheEnv(), old(session.m).pgd, ip))
      ensures ok ==> Valid() && System() == Valued(old(System()), op, mode, ip)
    {
      hide R.Ring.Valid, Session.Valid, NotedNow, SetVal, SetKind, Unmapped;
      Record(IpKind(op), ALL_ONES);
      if mode != 0 {
        var unmapped := CheckAddress(ip);
        if unmapped {
          return false;
        }
        AmendLatest(Some(ip), None);
      }
      ok := true;
    }

    /** An address packet: note it, check the address, and act on it (`ip_decode`). */
    method TakeAddress(op: IpOp, mode: nat, ip: nat) returns (ok: bool)
      requires Valid()
      modifies timer, history, history.slots, session.Parts()
      ensures TheEnv() == old(TheEnv())
      ensures ok <==> HandleAddress(TheEnv(), old(System()), op, mode, ip).Some?
      ensures ok ==> Valid() && HandleAddress(TheEnv(), old(System()), op, mode, ip) == Some(System())
    {
      hide R.Ring.Valid, Session.Valid, MachOk, Silent.NoSilentCycle, Find, NotedNow, ActOnAddress;
      ok := NoteAddress(op, mode, ip);
      if ok && ip != 0 {
        ok := Act(op, ip);
      } else if ok {
        ok := session.Disable();
        ok := ok && op.TipPgd?;
      }
    }

    /** What follows from an address: tracing starts, an asynchronous transfer, or a target. */
    method Act(op: IpOp, ip: nat) returns (ok: bool)
      requires Valid() && ip != 0
      modifies history, history.slots, session.Parts()
      ensures TheEnv() == old(TheEnv())
      ensures ok <==> ActOnAddress(TheEnv(), old(System()), op, ip).Some?
      ensures ok ==> Valid() && ActOnAddress(TheEnv(), old(System()), op, ip) == Some(System())
    {
      hide R.Ring.Valid, Session.Valid, MachOk, Silent.NoSilentCycle, Claim, Opener, EnableMach, EnterMach,
           ReplayTheory.Queue;
      match op {
        case Fup =>
          var closed, _ := history.CloseLatest(L.Overflow);
          ok := true;
          if closed {
            ok := session.Enable(ip);
          }
        case TipPge =>
          var _, _ := history.CloseLatest(L.Overflow);
          ok := session.Enable(ip);
        case Tip =>
          var _, src := history.CloseLatest(L.Async);
          if src != 0 {
            ok := session.AsyncEnter(src, ip);
          } else {
            ok := session.ProcessBranches(0, 0, ip);
          }
        case TipPgd =>
          ok := false;
      }
    }

    method TakeOverflow()
      requires Valid()
      modifies this`psb, this`bepFup, timer, history, history.slots, session.Parts()
      ensures TheEnv() == old(TheEnv())
      ensures Valid() && HandlePlain(TheEnv(), old(System()), Op.Ovf) == Some(System())
    {
      hide R.Ring.Valid, Session.Valid, MachOk, Silent.NoSilentCycle, Noted, Reset;
      psb, bepFup := 0, false;
      Record(L.Kind.Ovf, 0);
      session.Overflow();
    }

    method TakePsbEnd() returns (ok: bool)
      requires Valid()
      modifies this`psb, timer, history, history.slots, session.Parts()
      ensures TheEnv() == old(TheEnv())
      ensures ok <==> HandlePlain(TheEnv(), old(System()), Op.PsbEnd).Some?
      ensures ok ==> Valid() && HandlePlain(TheEnv(), old(System()), Op.PsbEnd) == Some(System())
    {
      hide R.Ring.Valid, Session.Valid, MachOk, Silent.NoSilentCycle, Noted;
      ok := psb == 4;
      if ok {
        psb := 0;
        Record(L.Kind.PsbEnd, 0);
        session.SetCompression(true);
      }
    }

    method TakePlain(op: Op) returns (ok: bool)
      requires Valid()
      modifies this`psb, this`bepFup, timer, history, history.slots, session.Parts()
      ensures TheEnv() == old(TheEnv())
      ensures ok <==> HandlePlain(TheEnv(), old(System()), op).Some?
      ensures ok ==> Valid() && HandlePlain(TheEnv(), old(System()), op) == Some(System())
    {
      hide R.Ring.Valid, Session.Valid, MachOk, Silent.NoSilentCycle, Noted;
      ok := true;
      if op.LongTnt? {
        ok := false;
      } else if op.Ovf? {
        TakeOverflow();
      } else if op.PsbEnd? {
        ok := TakePsbEnd();
      } else {
        Record(OpKind(op), 0);
      }
    }

    /** An anchor must agree with the latest time stamp. */
    method TakeTma(ctc: nat, fc: nat) returns (ok: bool)
      requires Valid()
      modifies timer, history, history.slots
      ensures ok <==> HandleTma(cfg, old(System()), ctc, fc).Some?
      ensures ok ==> Valid() && HandleTma(cfg, old(System()), ctc, fc) == Some(System())
    {
      hide R.Ring.Valid, Session.Valid, Latest, Ticks.AtTma, Ticks.Minus, Oldest;
      var stamp := history.Previous(L.Kind.Tsc);
      if stamp.None? {
        return false;
      }
      var tsc := stamp.value;
      var art := Ticks.Minus(Ticks.Minus(tsc.val, cfg.tscAdj), fc) / cfg.tscRatio;
      if art % TWO16 != ctc {
        return false;
      }
      timer.TakeTma(ctc, tsc.cyc);
      history.Record(Entry(L.Kind.Tma, ctc % 256, 0));
      ok := true;
    }

    method TakeTsc(tsc: nat)
      requires Valid()
      modifies timer, history, history.slots
      ensures Valid()
      ensures var was := old(System());
              System() == was.(clock := Ticks.AtTsc(was.clock, was.cyc),
                               log := was.log + [Entry(L.Kind.Tsc, tsc, was.cyc)])
    {
      hide R.Ring.Valid, Session.Valid, Ticks.AtTsc;
      timer.TakeTsc(cyc);
      history.Record(Entry(L.Kind.Tsc, tsc, cyc));
    }

    /** An address packet; one that a block or a trace-write packet waits for is marked as theirs. */
    method TakeIp(op: IpOp, mode: nat, ip: nat) returns (ok: bool)
      requires Valid()
      modifies this`bepFup, this`ptwFup, timer, history, history.slots, session.Parts()
      ensures TheEnv() == old(TheEnv())
      ensures var r := HandleAddress(TheEnv(), old(System()), op, mode, ip);
              && (ok <==> r.Some?)
              && (ok ==> Valid() && System() == if op.Fup? then AfterFup(r.value) else r.value)
    {
      hide R.Ring.Valid, Session.Valid, MachOk, Silent.NoSilentCycle, HandleAddress;
      ok := TakeAddress(op, mode, ip);
      if ok && op.Fup? {
        if bepFup {
          bepFup := false;
          AmendLatest(None, Some(FupBep));
        }
        if ptwFup {
          ptwFup := false;
          AmendLatest(None, Some(FupPtw));
        }
      }
    }

    method SetFlags(p: Packet)
      requires Valid()
      modifies this`bepFup, this`ptwFup, this`cyc
      ensures Valid() && System() == Flagged(old(System()), p)
    {
      hide R.Ring.Valid, Session.Valid;
      if p.Bep? {
        bepFup := p.fup;
      } else if p.Ptw? {
        ptwFup := p.fup;
      } else if p.Cyc? {
        cyc := (cyc + p.cycles) % TWO64;
      }
    }

    method TakeMark(p: Packet) returns (ok: bool)
      requires Valid() && IsMark(p)
      modifies this`bepFup, this`ptwFup, this`cyc, timer, history, history.slots
      ensures ok <==> HandleMark(old(System()), p).Some?
      ensures ok ==> Valid() && HandleMark(old(System()), p) == Some(System())
    {
      ok := !Refused(p);
      hide R.Ring.Valid, Session.Valid, NotedNow, MarkOf, Flagged, Refused;
      if ok {
        SetFlags(p);
        var (kind, val) := MarkOf(p);
        Record(kind, val);
      }
    }

    method TakeTnt(bits: nat, len: nat) returns (ok: bool)
      requires Valid()
      modifies timer, history, history.slots, session.Parts()
      ensures TheEnv() == old(TheEnv())
      ensures ok <==> Handle(TheEnv(), cfg, old(System()), Packet.Tnt(bits, len)).Some?
      ensures ok ==> Valid() && Handle(TheEnv(), cfg, old(System()), Packet.Tnt(bits, len)) == Some(System())
    {
      hide R.Ring.Valid, Session.Valid, MachOk, Silent.NoSilentCycle, Noted, TntByte;
      Record(L.Kind.ShortTnt, TntByte(bits, len));
      ok := session.ProcessBranches(bits, len, 0);
    }

    method TakePsb()
      requires Valid()
      modifies this`psb, timer, history, history.slots, session.Parts()
      ensures TheEnv() == old(TheEnv())
      ensures Valid() && Handle(TheEnv(), cfg, old(System()), Packet.Psb) == Some(System())
    {
      hide R.Ring.Valid, Session.Valid, MachOk, Silent.NoSilentCycle, Noted, HandleMark, HandlePlain, HandleTma,
           HandleAddress, IsMark;
      NotePsb();
      Compress(false);
    }

    method NotePsb()
      requires Valid()
      modifies this`psb, timer, history, history.slots
      ensures Valid() && TheEnv() == old(TheEnv())
      ensures var was := old(System()); System() == NotedNow(was.(psb := was.psb + 1), L.Kind.Psb, was.psb + 1)
    {
      hide R.Ring.Valid, Session.Valid, Noted;
      CountPsb();
      Record(L.Kind.Psb, psb);
    }

    method Compress(on: bool)
      requires Valid()
      modifies session.Parts()
      ensures Valid() && TheEnv() == old(TheEnv())
      ensures System() == old(System()).(mach := old(System()).mach.(en := on))
    {
      hide R.Ring.Valid, Session.Valid;
      session.SetCompression(on);
    }

    method CountPsb()
      requires Valid()
      modifies this`psb
      ensures Valid() && System() == old(System()).(psb := old(psb) + 1)
    {
      psb := psb + 1;
    }

    method TakePip(pgd: nat)
      requires Valid()
      modifies timer, history, history.slots, session.Parts()
      ensures TheEnv() == old(TheEnv())
      ensures Valid() && Handle(TheEnv(), cfg, old(System()), Packet.Pip(pgd)) == Some(System())
    {
      hide R.Ring.Valid, Session.Valid, MachOk, Silent.NoSilentCycle, Noted;
      Record(L.Kind.Pip, pgd);
      session.SetProcess(pgd);
    }

    /** Act on one packet. */
    method Take(p: Packet) returns (ok: bool)
      requires Valid()
      modifies this`psb, this`bepFup, this`ptwFup, this`cyc, timer, history, history.slots, session.Parts()
      ensures TheEnv() == old(TheEnv())
      ensures ok <==> Handle(TheEnv(), cfg, old(System()), p).Some?
      ensures ok ==> Valid() && Handle(TheEnv(), cfg, old(System()), p) == Some(System())
    {
      hide R.Ring.Valid, Session.Valid, MachOk, Silent.NoSilentCycle, Noted, HandleAddress, HandlePlain, HandleTma,
           HandleMark;
      hide AfterFup, Ticks.AtTsc, FeedMach;
      ok := true;
      if IsMark(p) {
        ok := TakeMark(p);
      } else if p.Plain? {
        ok := TakePlain(p.op);
      } else if p.Tma? {
        ok := TakeTma(p.ctc, p.fc);
      } else if p.Tsc? {
        TakeTsc(p.tsc);
      } else if p.Address? {
        ok := TakeIp(p.ipOp, p.mode, p.ip);
      } else if p.Psb? {
        TakePsb();
      } else if p.Pip? {
        TakePip(p.pgd);
      } else {
        ok := TakeTnt(p.bits, p.len);
      }
    }

    /** The next packet of the buffer. */
    method Next(x: seq<Byte>, at: nat) returns (r: Parsed)
      requires at < |x|
      ensures r == ParseOne(State(lastIp, inBlock), x[at..])
    {
      r := ParseOne(State(lastIp, inBlock), x[at..]);
      if r.Got? && r.p.Cyc? {
        r := ReadCyc(x, at);
      }
    }

    /** Decode a buffer. */
    method DecodeOnline(x: seq<Byte>) returns (ok: bool)
      requires Valid()
      modifies Parts()
      ensures TheEnv() == old(TheEnv())
      ensures ok <==> Decode(TheEnv(), cfg, old(Value()), x).Some?
      ensures ok ==> Valid() && Decode(TheEnv(), cfg, old(Value()), x) == Some(Value())
    {
      hide R.Ring.Valid, Session.Valid, MachOk, Silent.NoSilentCycle, Handle, ParseOne, NextState;
      var at := 0;
      assert x[0..] == x;
      SystemOk();
      while at < |x|
        invariant at <= |x|
        invariant Valid() && TheEnv() == old(TheEnv()) && SysOk(TheEnv(), System())
        invariant Decode(TheEnv(), cfg, old(Value()), x) == Decode(TheEnv(), cfg, Value(), x[at..])
      {
        var next := Next(x, at);
        if next.Error? {
          return false;
        }
        var parser := NextState(State(lastIp, inBlock), next.p);
        ok := Take(next.p);
        if !ok {
          return;
        }
        SystemOk();
        lastIp, inBlock := parser.lastIp, parser.inBlock;
        assert x[at..][next.len..] == x[at + next.len..];
        at := at + next.len;
      }
      ok := true;
    }
  }
}
