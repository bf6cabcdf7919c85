/** What the decoder does with each packet (`intel_pt_decode_online`, `ip_decode` and
    `record_intel_pt_pkt`, src/intel_pt.c), down to the replay. None is the deliberate stop after an
    error message. */
module Decoding {
  import opened Options
  import opened Program
  import opened ReplayTheory
  import opened Machine
  import opened Bytes
  import opened Packets
  import opened PacketLog
  import L = PacketLog
  import Streams
  import Ticks

  /** Clock parameters of the machine: the TSC adjustment and the TSC ticks per counter tick. */
  datatype Config = Config(tscAdj: nat, tscRatio: nat)

  /** The decoder behind the parser: the replay, the packet history, the clock, the cycle counter, the
      number of PSB words seen, and whether a block or trace-write packet still awaits its address. */
  datatype Sys = Sys(mach: Mach, log: seq<Entry>, clock: Ticks.Clock, cyc: nat, psb: nat, bepFup: bool, ptwFup: bool)

  const ALL_ONES: nat := TWO64 - 1

  ghost predicate SysOk(env: Env, s: Sys) {
    MachOk(env, s.mach)
  }

  /** `record_intel_pt_pkt`; disabling tracing clears the history. */
  function Noted(s: Sys, kind: L.Kind, val: nat, cyc: nat): Sys {
    var entry := Entry(kind, val, if Ticks.Counts(kind) then cyc else 0);
    s.(clock := Ticks.Record(s.clock, kind, val, cyc),
       log := if kind.TipPgd? then [] else s.log + [entry])
  }

  function NotedNow(s: Sys, kind: L.Kind, val: nat): Sys {
    Noted(s, kind, val, s.cyc)
  }

  function OpKind(op: Op): L.Kind
    requires !op.LongTnt?
  {
    match op
    case Mnt => L.Kind.Mnt
    case Ovf => L.Kind.Ovf
    case Vmcs => L.Kind.Vmcs
    case Mwait => L.Kind.Mwait
    case Pwrx => L.Kind.Pwrx
    case TraceStop => L.Kind.TraceStop
    case Evd => L.Kind.Evd
    case PsbEnd => L.Kind.PsbEnd
    case Pwre => L.Kind.Pwre
    case ExStop => L.Kind.ExStop
  }

  function IpKind(op: IpOp): L.Kind {
    match op
    case Fup => L.Kind.Fup
    case TipPge => L.Kind.TipPge
    case Tip => L.Kind.Tip
    case TipPgd => L.Kind.TipPgd
  }

  /** An address inside traced code that no instruction contains is an error. */
  predicate Unmapped(env: Env, pgd: nat, ip: nat) {
    Enabled(env.layout, pgd, ip) && ip != 0 && Find(env, ip).None?
  }

  ghost function WithMach(s: Sys, m: Option<Mach>): Option<Sys> {
    match m
    case None => None
    case Some(next) => Some(s.(mach := next))
  }

  /** An address packet in the history: first without its address, then with it. */
  function Valued(s: Sys, op: IpOp, mode: nat, ip: nat): Sys {
    var noted := NotedNow(s, IpKind(op), ALL_ONES);
    if mode != 0 then noted.(log := SetVal(noted.log, ip)) else noted
  }

  /** The consequences of an address, once it is in the history. */
  ghost function ActOnAddress(env: Env, s: Sys, op: IpOp, ip: nat): (r: Option<Sys>)
    requires SysOk(env, s) && ip != 0
    ensures r.Some? ==> SysOk(env, r.value)
  {
    match op
    case Fup =>
      if Opener(Overflow, s.log).None? then Some(s)
      else WithMach(s.(log := Claim(Overflow, s.log)), EnableMach(env, s.mach, ip))
    case TipPge => WithMach(s.(log := Claimed(Overflow, s.log)), EnableMach(env, s.mach, ip))
    case Tip =>
      var src := AsyncSource(s.log);
      WithMach(s.(log := Claimed(Async, s.log)),
               if src != 0 then EnterMach(env, s.mach, src, ip) else FeedMach(env, s.mach, Target(ip)))
    case TipPgd => None
  }

  /** `ip_decode` after the address itself is known. */
  ghost function HandleAddress(env: Env, s: Sys, op: IpOp, mode: nat, ip: nat): (r: Option<Sys>)
    requires SysOk(env, s)
    ensures r.Some? ==> SysOk(env, r.value)
  {
    if mode != 0 && Unmapped(env, s.mach.pgd, ip) then None
    else
      var valued := Valued(s, op, mode, ip);
      if ip != 0 then ActOnAddress(env, valued, op, ip)
      else if op.TipPgd? then WithMach(valued, DisableMach(s.mach))
      else None
  }

  /** The address packet of a block or of a trace-write packet is marked as such. */
  function AfterFup(s: Sys): Sys {
    var a := if s.bepFup then s.(bepFup := false, log := SetKind(s.log, FupBep)) else s;
    if a.ptwFup then a.(ptwFup := false, log := SetKind(a.log, FupPtw)) else a
  }

  ghost function HandlePlain(env: Env, s: Sys, op: Op): (r: Option<Sys>)
    requires SysOk(env, s)
    ensures r.Some? ==> SysOk(env, r.value)
  {
    match op
    case LongTnt => None
    case Ovf =>
      var noted := NotedNow(s.(psb := 0, bepFup := false), L.Kind.Ovf, 0);
      ResetOk(env, s.mach);
      Some(noted.(mach := OverflowMach(s.mach)))
    case PsbEnd =>
      if s.psb != 4 then None
      else Some(NotedNow(s.(psb := 0), L.Kind.PsbEnd, 0).(mach := s.mach.(en := true)))
    case _ => Some(NotedNow(s, OpKind(op), 0))
  }

  /** A TMA packet must agree with the last TSC packet, which must be in the history. */
  function HandleTma(cfg: Config, s: Sys, ctc: nat, fc: nat): Option<Sys>
    requires cfg.tscRatio > 0
  {
    match Latest(s.log, L.Kind.Tsc, |s.log|, Oldest(s.log))
    case None => None
    case Some(k) =>
      var tsc := s.log[k];
      var art := Ticks.Minus(Ticks.Minus(tsc.val, cfg.tscAdj), fc) / cfg.tscRatio;
      if art % TWO16 != ctc then None
      else Some(s.(clock := Ticks.AtTma(s.clock, ctc, tsc.cyc),
                   log := s.log + [Entry(L.Kind.Tma, ctc % 256, 0)]))
  }

  /** Packets that are noted, and at most set a flag or count cycles. */
  predicate IsMark(p: Packet) {
    p.Bbp? || p.Cfe? || p.Cbr? || p.Bep? || p.Ptw? || p.Mode? || p.Mtc? || p.Pad? || p.Bip? || p.Cyc?
  }

  /** How such a packet is noted. */
  function MarkOf(p: Packet): (r: (L.Kind, nat))
    requires IsMark(p)
    ensures r.0 != L.Blank
  {
    match p
    case Bbp(kind, _) => (L.Kind.Bbp, kind)
    case Cfe(_, _, _) => (L.Kind.Cfe, 0)
    case Cbr(ratio) => (L.Kind.Cbr, ratio)
    case Bep(fup) => (L.Kind.Bep, if fup then 1 else 0)
    case Ptw(_, value) => (L.Kind.Ptw, value)
    case Mode(bits) => (L.Kind.ModeExec, bits)
    case Mtc(ctc) => (L.Kind.Mtc, ctc)
    case Pad => (L.Kind.Pad, 0)
    case Bip(_, value) => (L.Kind.Bip, value)
    case Cyc(cycles) => (L.Kind.Cyc, cycles)
  }

  /** Block types other than the two known ones, short blocks, and modes other than the execution mode
      are stops. */
  predicate Refused(p: Packet) {
    match p
    case Bbp(kind, short) => (kind != 4 && kind != 5) || short
    case Mode(bits) => bits / 32 >= 1
    case _ => false
  }

  function Flagged(s: Sys, p: Packet): Sys {
    match p
    case Bep(fup) => s.(bepFup := fup)
    case Ptw(fup, _) => s.(ptwFup := fup)
    case Cyc(cycles) => s.(cyc := (s.cyc + cycles) % TWO64)
    case _ => s
  }

  function HandleMark(s: Sys, p: Packet): Option<Sys>
    requires IsMark(p)
  {
    if Refused(p) then None else Some(NotedNow(Flagged(s, p), MarkOf(p).0, MarkOf(p).1))
  }

  ghost function Handle(env: Env, cfg: Config, s: Sys, p: Packet): (r: Option<Sys>)
    requires SysOk(env, s) && cfg.tscRatio > 0
    ensures r.Some? ==> SysOk(env, r.value)
  {
    match p
    case Psb => Some(NotedNow(s.(psb := s.psb + 1), L.Kind.Psb, s.psb + 1).(mach := s.mach.(en := false)))
    case Plain(op, _) => HandlePlain(env, s, op)
    case Tma(ctc, fc) => HandleTma(cfg, s, ctc, fc)
    case Pip(pgd) => Some(NotedNow(s, L.Kind.Pip, pgd).(mach := s.mach.(pgd := pgd)))
    case Tsc(tsc) =>
      Some(s.(clock := Ticks.AtTsc(s.clock, s.cyc), log := s.log + [Entry(L.Kind.Tsc, tsc, s.cyc)]))
    case Address(op, mode, ip) =>
      (match HandleAddress(env, s, op, mode, ip)
       case None => None
       case Some(next) => Some(if op.Fup? then AfterFup(next) else next))
    case Tnt(bits, len) =>
      var noted := NotedNow(s, L.Kind.ShortTnt, TntByte(bits, len));
      WithMach(noted, FeedMach(env, s.mach, Bits(bits, len)))
    case _ => HandleMark(s, p)
  }

  lemma HandleIsMark(env: Env, cfg: Config, s: Sys, p: Packet)
    requires SysOk(env, s) && cfg.tscRatio > 0 && IsMark(p)
    ensures Handle(env, cfg, s, p) == HandleMark(s, p)
  {
    hide HandleMark, MachOk;
  }

  /** Which packets stop the decoder, apart from those that make the replay go on: the long outcome
      packet, an end of a header without its four words, an anchor that disagrees with the last time
      stamp, modes other than the execution mode (the upper three bits zero), and blocks of a type other
      than 4 and 5 or with the size bit. */
  lemma StopsAt(env: Env, cfg: Config, s: Sys, p: Packet)
    requires SysOk(env, s) && cfg.tscRatio > 0 && !p.Address? && !p.Tnt?
    ensures Handle(env, cfg, s, p) == None <==>
            match p
            case Plain(op, _) => op.LongTnt? || (op.PsbEnd? && s.psb != 4)
            case Tma(ctc, fc) =>
              (match Latest(s.log, L.Kind.Tsc, |s.log|, Oldest(s.log))
               case None => true
               case Some(k) => Ticks.Minus(Ticks.Minus(s.log[k].val, cfg.tscAdj), fc) / cfg.tscRatio % 0x1_0000 != ctc)
            case Mode(bits) => bits >= 32
            case Bbp(kind, short) => kind !in {4, 5} || short
            case _ => false
  {
    if IsMark(p) {
      HandleIsMark(env, cfg, s, p);
    }
    hide MachOk;
  }

  /** Which address packets stop it: one whose address lies in traced code but in no instruction; one
      without an address, unless it ends the tracing, which stops where packets are left over; one that
      ends the tracing with an address; and those whose consequence stops the replay. */
  lemma AddressStops(env: Env, cfg: Config, s: Sys, op: IpOp, mode: nat, ip: nat)
    requires SysOk(env, s) && cfg.tscRatio > 0
    ensures var log := Valued(s, op, mode, ip).log;
            var traced := s.mach.pgd == env.layout.perfedPgd || ip >= env.layout.kernelStart;
            var active := s.mach.ctxs[s.mach.idx];
            Handle(env, cfg, s, Address(op, mode, ip)) == None <==>
            || (mode != 0 && ip != 0 && traced && Find(env, ip) == None)
            || (match op
                case Fup => ip == 0 || (Opener(Overflow, log).Some? && EnableMach(env, s.mach, ip) == None)
                case TipPge => ip == 0 || EnableMach(env, s.mach, ip) == None
                case Tip =>
                  ip == 0 || (if AsyncSource(log) != 0 then EnterMach(env, s.mach, AsyncSource(log), ip) == None
                              else FeedMach(env, s.mach, Target(ip)) == None)
                case TipPgd => ip != 0 || active.tnt != [] || active.tip != [])
  {
    hide Find, EnableMach, EnterMach, FeedMach, AsyncSource, Claim, Claimed, Opener, Ticks.Record, MachOk;
  }

  /** How a packet other than an address is told from others in the history: whether it may stand between
      the halves of a pair, is an overflow, a time stamp, or outcomes. */
  predicate ToldApart(p: Packet, kind: L.Kind) {
    && (Between(Async, kind) <==>
          p.Cbr? || p.Mtc? || p.Tsc? || p.Cyc? || p.Pip? || p.Mode? || (p.Plain? && p.op.Vmcs?))
    && (Between(Overflow, kind) <==>
          p.Cbr? || p.Mtc? || p.Tsc? || p.Cyc? || p.Psb? || (p.Plain? && p.op.PsbEnd?))
    && (kind.Ovf? <==> p.Plain? && p.op.Ovf?) && (kind.Tsc? <==> p.Tsc?) && (kind.ShortTnt? <==> p.Tnt?)
    && !kind.Fup? && !Marked(kind)
  }

  lemma MarkToldApart(p: Packet)
    requires IsMark(p)
    ensures ToldApart(p, MarkOf(p).0)
  {
  }

  lemma PlainToldApart(op: Op, payload: seq<Byte>)
    requires !op.LongTnt?
    ensures ToldApart(Packet.Plain(op, payload), OpKind(op))
  {
  }

  lemma OtherToldApart(p: Packet)
    requires !p.Address? && !p.Plain? && !IsMark(p)
    ensures ToldApart(p, match p
                         case Psb => L.Kind.Psb
                         case Tma(_, _) => L.Kind.Tma
                         case Pip(_) => L.Kind.Pip
                         case Tsc(_) => L.Kind.Tsc
                         case _ => L.Kind.ShortTnt)
  {
  }

  /** One entry more, which tells the packet apart. */
  predicate Grows(was: seq<Entry>, log: seq<Entry>, p: Packet) {
    |log| == |was| + 1 && log[..|was|] == was && ToldApart(p, log[|was|].kind)
  }

  lemma PlainGrows(env: Env, s: Sys, op: Op, payload: seq<Byte>)
    requires SysOk(env, s) && HandlePlain(env, s, op).Some?
    ensures Grows(s.log, HandlePlain(env, s, op).value.log, Packet.Plain(op, payload))
  {
    hide ToldApart, MachOk, Ticks.Record;
    if !op.LongTnt? {
      PlainToldApart(op, payload);
    }
  }

  lemma MarkGrows(s: Sys, p: Packet)
    requires IsMark(p) && HandleMark(s, p).Some?
    ensures Grows(s.log, HandleMark(s, p).value.log, p)
  {
    MarkToldApart(p);
    hide ToldApart, MarkOf, Ticks.Record;
  }

  lemma OtherGrows(env: Env, cfg: Config, s: Sys, p: Packet)
    requires SysOk(env, s) && cfg.tscRatio > 0 && Handle(env, cfg, s, p).Some?
    requires !p.Address? && !p.Plain? && !IsMark(p)
    ensures Grows(s.log, Handle(env, cfg, s, p).value.log, p)
  {
    OtherToldApart(p);
    hide ToldApart, FeedMach, MachOk, Ticks.Record, Latest, HandleMark, HandlePlain, HandleAddress;
  }

  /** Every packet that is no address adds one entry to the history, which tells it apart. */
  lemma NotedApart(env: Env, cfg: Config, s: Sys, p: Packet)
    requires SysOk(env, s) && cfg.tscRatio > 0 && !p.Address? && Handle(env, cfg, s, p).Some?
    ensures Grows(s.log, Handle(env, cfg, s, p).value.log, p)
  {
    if IsMark(p) {
      HandleIsMark(env, cfg, s, p);
      MarkGrows(s, p);
    } else if p.Plain? {
      PlainGrows(env, s, p.op, p.payload);
    } else {
      OtherGrows(env, cfg, s, p);
    }
    hide Grows, HandleMark, HandlePlain, HandleAddress, HandleTma, MachOk;
  }

  ghost function HandleAll(env: Env, cfg: Config, s: Sys, ps: seq<Packet>): (r: Option<Sys>)
    requires SysOk(env, s) && cfg.tscRatio > 0
    ensures r.Some? ==> SysOk(env, r.value)
    decreases |ps|
  {
    if ps == [] then Some(s)
    else match Handle(env, cfg, s, ps[0])
      case None => None
      case Some(next) => HandleAll(env, cfg, next, ps[1..])
  }

  /** The decoder with its parser. */
  datatype Decoder = Decoder(parser: State, sys: Sys)

  /** Decode a buffer: parse a packet, act on it, go on. */
  ghost function Decode(env: Env, cfg: Config, d: Decoder, x: seq<Byte>): (r: Option<Decoder>)
    requires SysOk(env, d.sys) && cfg.tscRatio > 0
    ensures r.Some? ==> SysOk(env, r.value.sys)
    decreases |x|
  {
    if x == [] then Some(d)
    else match ParseOne(d.parser, x)
      case Error => None
      case Got(p, len) =>
        match Handle(env, cfg, d.sys, p)
        case None => None
        case Some(next) => Decode(env, cfg, Decoder(NextState(d.parser, p), next), x[len..])
  }

  /** Parsing and acting in turn is parsing everything first. */
  lemma {:induction false} DecodeIsParseThenHandle(env: Env, cfg: Config, d: Decoder, x: seq<Byte>)
    requires SysOk(env, d.sys) && cfg.tscRatio > 0 && ParseAll(d.parser, x).Some?
    ensures var (ps, end) := ParseAll(d.parser, x).value;
            Decode(env, cfg, d, x) == match HandleAll(env, cfg, d.sys, ps)
                                      case None => None
                                      case Some(sys) => Some(Decoder(end, sys))
    decreases |x|
  {
    hide Handle, ParseOne, NextState;
    if x != [] {
      var Got(p, len) := ParseOne(d.parser, x);
      var next := NextState(d.parser, p);
      var (rest, end) := ParseAll(next, x[len..]).value;
      assert ([p] + rest)[0] == p && ([p] + rest)[1..] == rest;
      if Handle(env, cfg, d.sys, p).Some? {
        DecodeIsParseThenHandle(env, cfg, Decoder(next, Handle(env, cfg, d.sys, p).value), x[len..]);
      }
    }
  }

  // ---- Chunks ----

  /** If no packet straddles the boundary, two calls do what one call on the whole does. */
  lemma {:induction false} DecodeComposes(env: Env, cfg: Config, d: Decoder, a: seq<Byte>, b: seq<Byte>)
    requires SysOk(env, d.sys) && cfg.tscRatio > 0 && Streams.Reaches(d.parser, a + b, |a|)
    ensures Decode(env, cfg, d, a + b) == match Decode(env, cfg, d, a)
                                          case None => None
                                          case Some(mid) => Decode(env, cfg, mid, b)
    decreases |a|
  {
    hide Handle, ParseOne, NextState;
    if a == [] {
      assert a + b == b;
    } else {
      Streams.ParseLocal(d.parser, a, b);
      var Got(p, len) := ParseOne(d.parser, a);
      assert (a + b)[len..] == a[len..] + b;
      if Handle(env, cfg, d.sys, p).Some? {
        DecodeComposes(env, cfg, Decoder(NextState(d.parser, p), Handle(env, cfg, d.sys, p).value), a[len..], b);
      }
    }
  }

  /** Decode record by record, as the records arrive. */
  ghost function DecodeOnline(env: Env, cfg: Config, d: Decoder, chunks: seq<seq<Byte>>): Option<Decoder>
    requires SysOk(env, d.sys) && cfg.tscRatio > 0
    decreases |chunks|
  {
    if chunks == [] then Some(d)
    else match Decode(env, cfg, d, chunks[0])
      case None => None
      case Some(next) => DecodeOnline(env, cfg, next, chunks[1..])
  }

  /** Every record ends at a packet boundary. */
  predicate Aligned(s: State, chunks: seq<seq<Byte>>)
    decreases |chunks|
  {
    chunks != [] ==>
      && Streams.Reaches(s, Concat(chunks), |chunks[0]|)
      && (ParseAll(s, chunks[0]).Some? ==> Aligned(ParseAll(s, chunks[0]).value.1, chunks[1..]))
  }

  /** Each record ends at a packet boundary of the whole, and no other condition is meant. */
  lemma {:induction false} AlignedExactly(s: State, chunks: seq<seq<Byte>>)
    ensures Aligned(s, chunks) <==>
            forall k | 0 <= k <= |chunks| :: Streams.Reaches(s, Concat(chunks), |Concat(chunks[..k])|)
    decreases |chunks|
  {
    hide Streams.Reaches, ParseAll;
    if chunks == [] {
      NothingReached(s, []);
    } else {
      var a, rest := chunks[0], chunks[1..];
      var x := Concat(chunks);
      forall k | 0 < k <= |chunks| ensures |Concat(chunks[..k])| == |a| + |Concat(rest[..k - 1])| <= |x| {
        assert chunks[..k][1..] == rest[..k - 1];
        ConcatPrefix(rest, k - 1);
      }
      assert rest[..0] == [] && chunks[..1] == [a];
      NothingReached(s, x);
      assert |Concat(chunks[..1])| == |a|;
      if Streams.Reaches(s, x, |a|) {
        Streams.ReachesOn(s, a, Concat(rest), 0);
        var next := ParseAll(s, a).value.1;
        AlignedExactly(next, rest);
        forall k | 0 <= k <= |rest|
          ensures Streams.Reaches(s, x, |Concat(chunks[..k + 1])|)
                  <==> Streams.Reaches(next, Concat(rest), |Concat(rest[..k])|)
        {
          ConcatPrefix(rest, k);
          Streams.ReachesOn(s, a, Concat(rest), |Concat(rest[..k])|);
          assert |Concat(chunks[..k + 1])| == |a| + |Concat(rest[..k])|;
        }
        Shifted(s, chunks, next);
      }
    }
  }

  lemma Shifted(s: State, chunks: seq<seq<Byte>>, next: State)
    requires chunks != [] && Streams.Reaches(s, Concat(chunks), 0)
    requires forall k | 0 <= k <= |chunks| - 1 ::
               Streams.Reaches(s, Concat(chunks), |Concat(chunks[..k + 1])|)
               <==> Streams.Reaches(next, Concat(chunks[1..]), |Concat(chunks[1..][..k])|)
    ensures (forall k | 0 <= k <= |chunks| :: Streams.Reaches(s, Concat(chunks), |Concat(chunks[..k])|))
            <==> (forall k | 0 <= k <= |chunks| - 1 ::
                    Streams.Reaches(next, Concat(chunks[1..]), |Concat(chunks[1..][..k])|))
  {
    assert chunks[..0] == [] && Concat([]) == [];
    hide Streams.Reaches, Concat;
    var x, y := Concat(chunks), Concat(chunks[1..]);
    if forall k | 0 <= k <= |chunks| :: Streams.Reaches(s, x, |Concat(chunks[..k])|) {
      forall k | 0 <= k <= |chunks| - 1 ensures Streams.Reaches(next, y, |Concat(chunks[1..][..k])|) {
        assert Streams.Reaches(s, x, |Concat(chunks[..k + 1])|);
      }
    }
    if forall k | 0 <= k <= |chunks| - 1 :: Streams.Reaches(next, y, |Concat(chunks[1..][..k])|) {
      forall k | 0 <= k <= |chunks| ensures Streams.Reaches(s, x, |Concat(chunks[..k])|) {
        if k > 0 {
          assert Streams.Reaches(next, y, |Concat(chunks[1..][..k - 1])|);
          assert Streams.Reaches(s, x, |Concat(chunks[..k - 1 + 1])|);
        }
      }
    }
  }

  lemma NothingReached(s: State, x: seq<Byte>)
    ensures Streams.Reaches(s, x, 0) && Concat([]) == []
  {
  }

  lemma {:induction false} ConcatPrefix(chunks: seq<seq<Byte>>, k: nat)
    requires k <= |chunks|
    ensures |Concat(chunks[..k])| <= |Concat(chunks)|
    decreases k
  {
    if k > 0 {
      assert chunks[..k][1..] == chunks[1..][..k - 1];
      ConcatPrefix(chunks[1..], k - 1);
    }
  }

  /** Decoding the records as they arrive is decoding the file they were appended to. */
  lemma {:induction false} OnlineIsOffline(env: Env, cfg: Config, d: Decoder, chunks: seq<seq<Byte>>)
    requires SysOk(env, d.sys) && cfg.tscRatio > 0 && Aligned(d.parser, chunks)
    ensures DecodeOnline(env, cfg, d, chunks) == Decode(env, cfg, d, Concat(chunks))
    decreases |chunks|
  {
    hide Handle, ParseOne, NextState, Streams.Reaches, Decode, ParseAll;
    if chunks == [] {
      DecodeNothing(env, cfg, d);
    } else {
      DecodeComposes(env, cfg, d, chunks[0], Concat(chunks[1..]));
      Streams.ChunksCompose(d.parser, chunks[0], Concat(chunks[1..]));
      DecodeIsParseThenHandle(env, cfg, d, chunks[0]);
      var next := Decode(env, cfg, d, chunks[0]);
      if next.Some? {
        OnlineIsOffline(env, cfg, next.value, chunks[1..]);
      }
    }
  }

  lemma DecodeNothing(env: Env, cfg: Config, d: Decoder)
    requires SysOk(env, d.sys) && cfg.tscRatio > 0
    ensures Decode(env, cfg, d, []) == Some(d)
  {
  }

  // ---- Cycles ----

  function CycleSum(ps: seq<Packet>): nat {
    if ps == [] then 0 else (if ps[0].Cyc? then ps[0].cycles else 0) + CycleSum(ps[1..])
  }

  lemma OneCount(env: Env, cfg: Config, s: Sys, p: Packet)
    requires SysOk(env, s) && cfg.tscRatio > 0 && Handle(env, cfg, s, p).Some?
    ensures Handle(env, cfg, s, p).value.cyc == if p.Cyc? then (s.cyc + p.cycles) % TWO64 else s.cyc
  {
    hide HandleAddress, AfterFup, MachOk, FeedMach, Ticks.Record, Latest;
    if p.Address? {
      OneAddress(env, s, p.ipOp, p.mode, p.ip);
      var next := HandleAddress(env, s, p.ipOp, p.mode, p.ip).value;
      assert AfterFup(next).cyc == next.cyc by {
        FupCount(next);
      }
    }
  }

  lemma FupCount(s: Sys)
    ensures AfterFup(s).cyc == s.cyc
  {
    hide SetKind;
  }

  lemma OneAddress(env: Env, s: Sys, op: IpOp, mode: nat, ip: nat)
    requires SysOk(env, s)
    ensures HandleAddress(env, s, op, mode, ip).Some? ==> HandleAddress(env, s, op, mode, ip).value.cyc == s.cyc
  {
    hide MachOk, EnableMach, EnterMach, FeedMach, Ticks.Record, Opener, Claimed, Claim, SetVal, Find;
  }

  /** The cycle counter grows by exactly the cycle packets. */
  lemma {:induction false} CyclesAddUp(env: Env, cfg: Config, s: Sys, ps: seq<Packet>)
    requires SysOk(env, s) && cfg.tscRatio > 0 && HandleAll(env, cfg, s, ps).Some? && s.cyc < TWO64
    ensures HandleAll(env, cfg, s, ps).value.cyc == (s.cyc + CycleSum(ps)) % TWO64
    decreases |ps|
  {
    hide Handle;
    if ps != [] {
      OneCount(env, cfg, s, ps[0]);
      CyclesAddUp(env, cfg, Handle(env, cfg, s, ps[0]).value, ps[1..]);
    }
  }
}
