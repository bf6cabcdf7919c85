/** What the decoder has noted after any packet sequence, read off the sequence itself: PSB words, the
    current process, flags that wait for an address, and the tick count. */
module Bookkeeping {
  import Bytes
  import opened Arithmetic
  import opened Options
  import opened Program
  import opened Packets
  import opened Decoding
  import L = PacketLog
  import Machine
  import Ticks

  lemma {:induction false} HandleAllSnoc(env: Env, cfg: Config, s: Sys, ps: seq<Packet>, p: Packet)
    requires SysOk(env, s) && cfg.tscRatio > 0
    ensures HandleAll(env, cfg, s, ps + [p])
            == match HandleAll(env, cfg, s, ps) case None => None case Some(mid) => Handle(env, cfg, mid, p)
    decreases |ps|
  {
    hide Handle;
    if ps == [] {
      assert [p][1..] == [];
    } else {
      assert (ps + [p])[0] == ps[0] && (ps + [p])[1..] == ps[1..] + [p];
      if Handle(env, cfg, s, ps[0]).Some? {
        HandleAllSnoc(env, cfg, Handle(env, cfg, s, ps[0]).value, ps[1..], p);
      }
    }
  }

  function Last(ps: seq<Packet>): Packet
    requires ps != []
  {
    ps[|ps| - 1]
  }

  function Init(ps: seq<Packet>): seq<Packet>
    requires ps != []
  {
    ps[..|ps| - 1]
  }

  predicate IsOp(p: Packet, op: Op) {
    p.Plain? && p.op == op
  }

  predicate IsFup(p: Packet) {
    p.Address? && p.ipOp.Fup?
  }

  /** PSB words since the last PSBEND or overflow. */
  function PsbWords(ps: seq<Packet>, start: nat): nat {
    if ps == [] then start
    else if Last(ps).Psb? then PsbWords(Init(ps), start) + 1
    else if IsOp(Last(ps), PsbEnd) || IsOp(Last(ps), Ovf) then 0
    else PsbWords(Init(ps), start)
  }

  /** The page directory of the latest PIP; unknown after an overflow. */
  function Process(ps: seq<Packet>, start: nat): nat {
    if ps == [] then start
    else if Last(ps).Pip? then Last(ps).pgd
    else if IsOp(Last(ps), Ovf) then 0
    else Process(Init(ps), start)
  }

  /** The latest end of a block announced an address that has not come. */
  function BlockAwaits(ps: seq<Packet>, start: bool): bool {
    if ps == [] then start
    else if Last(ps).Bep? then Last(ps).fup
    else if IsOp(Last(ps), Ovf) || IsFup(Last(ps)) then false
    else BlockAwaits(Init(ps), start)
  }

  function WriteAwaits(ps: seq<Packet>, start: bool): bool {
    if ps == [] then start
    else if Last(ps).Ptw? then Last(ps).fup
    else if IsFup(Last(ps)) then false
    else WriteAwaits(Init(ps), start)
  }

  lemma AddressBooks(env: Env, s: Sys, op: IpOp, mode: nat, ip: nat)
    requires SysOk(env, s) && HandleAddress(env, s, op, mode, ip).Some?
    ensures var r := HandleAddress(env, s, op, mode, ip).value;
            r.psb == s.psb && r.mach.pgd == s.mach.pgd && r.bepFup == s.bepFup && r.ptwFup == s.ptwFup
  {
    hide Ticks.Record, L.Opener, L.Claim, Machine.StartMach, Machine.EnterMach, Machine.FeedMach, Machine.MachOk;
    var enabled := Machine.EnableMach(env, s.mach, ip);
    assert enabled.Some? ==> enabled.value.pgd == s.mach.pgd;
  }

  lemma StepBooks(env: Env, cfg: Config, s: Sys, p: Packet)
    requires SysOk(env, s) && cfg.tscRatio > 0 && Handle(env, cfg, s, p).Some?
    ensures var r := Handle(env, cfg, s, p).value;
            && r.psb == (if p.Psb? then s.psb + 1 else if IsOp(p, PsbEnd) || IsOp(p, Ovf) then 0 else s.psb)
            && r.mach.pgd == (if p.Pip? then p.pgd else if IsOp(p, Ovf) then 0 else s.mach.pgd)
            && r.bepFup == (if p.Bep? then p.fup else if IsOp(p, Ovf) || IsFup(p) then false else s.bepFup)
            && r.ptwFup == (if p.Ptw? then p.fup else if IsFup(p) then false else s.ptwFup)
            && (IsOp(p, PsbEnd) ==> s.psb == 4)
  {
    hide Ticks.Record, Ticks.AtTsc, Ticks.AtTma, L.Latest, Machine.FeedMach, Machine.MachOk, HandleAddress, TntByte;
    if p.Address? {
      AddressBooks(env, s, p.ipOp, p.mode, p.ip);
    }
  }

  /** After any run: the PSB words counted, the process and the awaited addresses are those of the
      packet sequence, and every PSBEND ended exactly four PSB words. */
  lemma {:induction false} BooksHold(env: Env, cfg: Config, s: Sys, ps: seq<Packet>)
    requires SysOk(env, s) && cfg.tscRatio > 0 && HandleAll(env, cfg, s, ps).Some?
    ensures var r := HandleAll(env, cfg, s, ps).value;
            && r.psb == PsbWords(ps, s.psb)
            && r.mach.pgd == Process(ps, s.mach.pgd)
            && r.bepFup == BlockAwaits(ps, s.bepFup)
            && r.ptwFup == WriteAwaits(ps, s.ptwFup)
    ensures forall k | 0 <= k < |ps| && IsOp(ps[k], PsbEnd) :: PsbWords(ps[..k], s.psb) == 4
    decreases |ps|
  {
    hide Handle;
    if ps != [] {
      var init := Init(ps);
      assert ps == init + [Last(ps)];
      HandleAllSnoc(env, cfg, s, init, Last(ps));
      BooksHold(env, cfg, s, init);
      StepBooks(env, cfg, HandleAll(env, cfg, s, init).value, Last(ps));
      forall k | 0 <= k < |ps| && IsOp(ps[k], PsbEnd) ensures PsbWords(ps[..k], s.psb) == 4 {
        if k < |ps| - 1 {
          assert init[k] == ps[k] && init[..k] == ps[..k];
        }
      }
    }
  }

  /** A FUP closes an overflow of the history. */
  predicate ClosesOverflow(s: Sys, p: Packet) {
    IsFup(p) && L.Opener(L.Overflow, Valued(s, Fup, p.mode, p.ip).log).Some?
  }

  lemma FrontRuns(env: Env, cfg: Config, s: Sys, ps: seq<Packet>)
    requires SysOk(env, s) && cfg.tscRatio > 0 && ps != [] && HandleAll(env, cfg, s, ps).Some?
    ensures HandleAll(env, cfg, s, Init(ps)).Some?
  {
    hide Handle, HandleAll;
    assert ps == Init(ps) + [Last(ps)];
    HandleAllSnoc(env, cfg, s, Init(ps), Last(ps));
  }

  /** Whether returns may be compressed now: switched off by PSB words, overflows and the end of tracing, on
      by PSBEND, the start of tracing and a FUP that closes an overflow; read backwards. */
  ghost predicate Compresses(env: Env, cfg: Config, s: Sys, ps: seq<Packet>)
    requires SysOk(env, s) && cfg.tscRatio > 0 && HandleAll(env, cfg, s, ps).Some?
    decreases |ps|
  {
    if ps == [] then s.mach.en
    else
      var p := Last(ps);
      FrontRuns(env, cfg, s, ps);
      if p.Psb? || IsOp(p, Ovf) || (p.Address? && p.ipOp.TipPgd?) then false
      else if IsOp(p, PsbEnd) || (p.Address? && p.ipOp.TipPge?) then true
      else if ClosesOverflow(HandleAll(env, cfg, s, Init(ps)).value, p) then true
      else Compresses(env, cfg, s, Init(ps))
  }

  lemma AddressCompresses(env: Env, s: Sys, op: IpOp, mode: nat, ip: nat)
    requires SysOk(env, s) && HandleAddress(env, s, op, mode, ip).Some?
    ensures HandleAddress(env, s, op, mode, ip).value.mach.en ==
            match op
            case TipPgd => false
            case TipPge => true
            case Tip => s.mach.en
            case Fup => s.mach.en || L.Opener(L.Overflow, Valued(s, Fup, mode, ip).log).Some?
  {
    hide Ticks.Record, L.Opener, L.Claim, Machine.StartMach, Machine.EnterMach, Machine.FeedMach, Machine.MachOk;
    var enabled := Machine.EnableMach(env, s.mach, ip);
    assert enabled.Some? ==> enabled.value.en;
  }

  lemma StepCompresses(env: Env, cfg: Config, s: Sys, p: Packet)
    requires SysOk(env, s) && cfg.tscRatio > 0 && Handle(env, cfg, s, p).Some?
    ensures Handle(env, cfg, s, p).value.mach.en ==
            if p.Psb? || IsOp(p, Ovf) || (p.Address? && p.ipOp.TipPgd?) then false
            else if IsOp(p, PsbEnd) || (p.Address? && p.ipOp.TipPge?) || ClosesOverflow(s, p) then true
            else s.mach.en
  {
    hide Ticks.Record, Ticks.AtTsc, Ticks.AtTma, L.Latest, L.Opener, Machine.FeedMach, Machine.MachOk, HandleAddress,
         TntByte;
    if p.Address? {
      AddressCompresses(env, s, p.ipOp, p.mode, p.ip);
    }
  }

  /** After any run the decoder takes returns for compressed exactly as the packets say. */
  lemma {:induction false} CompressionHolds(env: Env, cfg: Config, s: Sys, ps: seq<Packet>)
    requires SysOk(env, s) && cfg.tscRatio > 0 && HandleAll(env, cfg, s, ps).Some?
    ensures HandleAll(env, cfg, s, ps).value.mach.en <==> Compresses(env, cfg, s, ps)
    decreases |ps|
  {
    hide Handle;
    if ps != [] {
      var init := Init(ps);
      assert ps == init + [Last(ps)];
      HandleAllSnoc(env, cfg, s, init, Last(ps));
      CompressionHolds(env, cfg, s, init);
      StepCompresses(env, cfg, HandleAll(env, cfg, s, init).value, Last(ps));
    }
  }

  // ---- Anchors ----

  lemma DivisionOf(n: nat, ratio: nat, r: nat)
    requires r < ratio
    ensures (n * ratio + r) / ratio == n
  {
    var x := n * ratio + r;
    DivisionUnique(ratio, x / ratio, x % ratio, n, r);
  }

  /** A TMA packet is accepted exactly when its counter value is the low part of the number n of counter
      ticks the latest time stamp stands for. */
  lemma TmaAgrees(cfg: Config, s: Sys, ctc: nat, fc: nat, k: nat, n: nat, r: nat)
    requires cfg.tscRatio > 0 && L.Latest(s.log, L.Kind.Tsc, |s.log|, L.Oldest(s.log)) == Some(k)
    requires s.log[k].val == cfg.tscAdj + fc + n * cfg.tscRatio + r && r < cfg.tscRatio && s.log[k].val < Bytes.TWO64
    ensures HandleTma(cfg, s, ctc, fc).Some? <==> n % 0x1_0000 == ctc
  {
    StampTicks(cfg, s.log[k].val, fc, n, r);
    hide Ticks.Minus, Ticks.AtTma, L.Latest, L.Oldest;
  }

  lemma StampTicks(cfg: Config, val: nat, fc: nat, n: nat, r: nat)
    requires cfg.tscRatio > 0 && r < cfg.tscRatio
    requires val == cfg.tscAdj + fc + n * cfg.tscRatio + r && val < Bytes.TWO64
    ensures Ticks.Minus(Ticks.Minus(val, cfg.tscAdj), fc) / cfg.tscRatio == n
  {
    NoBorrow(val, cfg.tscAdj);
    NoBorrow(val - cfg.tscAdj, fc);
    hide Ticks.Minus;
    DivisionOf(n, cfg.tscRatio, r);
  }

  lemma NoBorrow(a: nat, b: nat)
    requires b <= a < Bytes.TWO64
    ensures Ticks.Minus(a, b) == a - b
  {
  }

  /** The anchor is set back to the time stamp: the cycle part goes on from the counter noted with the
      latest TSC packet, and the ticks from the anchor's value. */
  lemma AnchorIsStamp(env: Env, cfg: Config, s: Sys, ctc: nat, fc: nat, k: nat)
    requires SysOk(env, s) && cfg.tscRatio > 0 && Handle(env, cfg, s, Packet.Tma(ctc, fc)).Some?
    requires k < |s.log| && |s.log| - k <= 8191 && s.log[k].kind.Tsc?
    requires forall j | k < j < |s.log| :: !s.log[j].kind.Tsc?
    ensures var r := Handle(env, cfg, s, Packet.Tma(ctc, fc)).value.clock;
            r.en && r.cycRef == s.log[k].cyc && r.cycs == 0 && r.base == ctc % 256 && r.ticks == 0 && r.wraps == 0
  {
    hide Machine.MachOk;
  }

  /** A TSC packet is noted with the cycle counter, and takes the anchor away. */
  lemma StampIsNoted(env: Env, cfg: Config, s: Sys, tsc: nat)
    requires SysOk(env, s) && cfg.tscRatio > 0
    ensures var r := Handle(env, cfg, s, Packet.Tsc(tsc));
            && r.Some? && r.value.log == s.log + [L.Entry(L.Kind.Tsc, tsc, s.cyc)]
            && !r.value.clock.en && r.value.clock.ticks == 0 && r.value.clock.cycs == 0
  {
    hide Machine.MachOk;
  }

  // ---- Ticks ----

  /** Packets after an anchor: a tick packet sent at tick n, an overflow, or any packet that is no
      time stamp, anchor, tick or overflow. */
  datatype Sent = TickAt(n: nat) | Lost | Quiet(p: Packet)

  predicate IsQuiet(p: Packet) {
    !p.Mtc? && !p.Tma? && !p.Tsc? && !IsOp(p, Ovf)
  }

  function PacketOf(base: nat, e: Sent): Packet {
    match e
    case TickAt(n) => Packet.Mtc((base + n) % 256)
    case Lost => Packet.Plain(Op.Ovf, [])
    case Quiet(p) => p
  }

  function PacketsOf(base: nat, es: seq<Sent>): seq<Packet> {
    if es == [] then [] else [PacketOf(base, es[0])] + PacketsOf(base, es[1..])
  }

  /** The ticks come close enough to each other to be counted. */
  predicate Steady(es: seq<Sent>, n: nat, ticked: bool, lossy: bool)
    decreases |es|
  {
    es == [] ||
    match es[0]
    case TickAt(n') =>
      && n < n'
      && Ticks.InTime(n, n', lossy)
      && Steady(es[1..], n', true, false)
    case Lost => ticked && Steady(es[1..], n, ticked, true)
    case Quiet(p) => IsQuiet(p) && Steady(es[1..], n, ticked, lossy)
  }

  /** Ticks, losses and quiet packets as the clock sees them. */
  function EventsOf(es: seq<Sent>): seq<Ticks.Event> {
    if es == [] then []
    else
      [match es[0]
       case TickAt(n) => Ticks.Tick(n, 0)
       case Lost => Ticks.Loss(0)
       case Quiet(_) => Ticks.Other(L.Kind.Pad, 0, 0)]
      + EventsOf(es[1..])
  }

  /** So they do exactly if the clock can count them. */
  lemma {:induction false} SteadyIffCountable(es: seq<Sent>, n: nat, ticked: bool, lossy: bool)
    ensures Steady(es, n, ticked, lossy) <==>
            && (forall e | e in es && e.Quiet? :: !e.p.Mtc? && !e.p.Tma? && !e.p.Tsc? && !IsOp(e.p, Ovf))
            && Ticks.Countable(EventsOf(es), n, ticked, lossy)
    decreases |es|
  {
    hide Ticks.InTime;
    if es != [] {
      assert EventsOf(es)[1..] == EventsOf(es[1..]);
      match es[0]
      case TickAt(n') => SteadyIffCountable(es[1..], n', true, false);
      case Lost => SteadyIffCountable(es[1..], n, ticked, true);
      case Quiet(p) => SteadyIffCountable(es[1..], n, ticked, lossy);
    }
  }

  function LastTickOf(es: seq<Sent>, n: nat): nat
    decreases |es|
  {
    if es == [] then n else LastTickOf(es[1..], if es[0].TickAt? then es[0].n else n)
  }

  /** How a quiet packet reaches the clock. */
  function QuietEvent(s: Sys, p: Packet): Ticks.Event
    requires IsQuiet(p) && !IsOp(p, LongTnt)
  {
    if IsMark(p) then Ticks.Other(MarkOf(p).0, MarkOf(p).1, Flagged(s, p).cyc)
    else if p.Psb? then Ticks.Other(L.Kind.Psb, s.psb + 1, s.cyc)
    else if p.Plain? then Ticks.Other(OpKind(p.op), 0, s.cyc)
    else if p.Pip? then Ticks.Other(L.Kind.Pip, p.pgd, s.cyc)
    else if p.Address? then Ticks.Other(IpKind(p.ipOp), ALL_ONES, s.cyc)
    else Ticks.Other(L.Kind.ShortTnt, TntByte(p.bits, p.len), s.cyc)
  }

  lemma AddressClock(env: Env, s: Sys, op: IpOp, mode: nat, ip: nat)
    requires SysOk(env, s) && HandleAddress(env, s, op, mode, ip).Some?
    ensures HandleAddress(env, s, op, mode, ip).value.clock == Ticks.Record(s.clock, IpKind(op), ALL_ONES, s.cyc)
  {
    hide Ticks.Record, L.Opener, L.Claim, Machine.EnableMach, Machine.EnterMach, Machine.FeedMach, Machine.MachOk;
  }

  lemma QuietClock(env: Env, cfg: Config, s: Sys, p: Packet)
    requires SysOk(env, s) && cfg.tscRatio > 0 && Handle(env, cfg, s, p).Some? && IsQuiet(p)
    ensures !IsOp(p, LongTnt) && Handle(env, cfg, s, p).value.clock == Ticks.Happens(s.clock, QuietEvent(s, p))
    ensures var e := QuietEvent(s, p);
            e.Other? && !e.kind.Mtc? && !e.kind.Tma? && !e.kind.Tsc? && !e.kind.Ovf?
  {
    hide Ticks.Record, Machine.FeedMach, Machine.MachOk, HandleAddress, TntByte;
    if p.Address? {
      AddressClock(env, s, p.ipOp, p.mode, p.ip);
    }
  }

  /** A clock that knows the tick count, before or after the first tick since the anchor. */
  predicate Knows(c: Ticks.Clock, n: nat, ticked: bool, lossy: bool) {
    && c.en && c.base < 256 && c.ticks == n && c.wraps == n / 256
    && (ticked ==> Ticks.Exact(c, n)) && lossy == (c.lost > 0) && (lossy ==> ticked)
  }

  lemma QuietKnows(c: Ticks.Clock, e: Ticks.Event, n: nat, ticked: bool, lossy: bool)
    requires Knows(c, n, ticked, lossy) && e.Other?
    requires !e.kind.Mtc? && !e.kind.Tma? && !e.kind.Tsc? && !e.kind.Ovf?
    ensures Knows(Ticks.Happens(c, e), n, ticked, lossy) && Ticks.Happens(c, e).base == c.base
  {
  }

  lemma QuietStep(env: Env, cfg: Config, s: Sys, p: Packet, n: nat, ticked: bool, lossy: bool)
    requires SysOk(env, s) && cfg.tscRatio > 0 && Knows(s.clock, n, ticked, lossy)
    requires Handle(env, cfg, s, p).Some? && IsQuiet(p)
    ensures var r := Handle(env, cfg, s, p).value.clock;
            Knows(r, n, ticked, lossy) && r.base == s.clock.base
  {
    hide Handle, Knows, QuietEvent, Ticks.Happens;
    QuietClock(env, cfg, s, p);
    QuietKnows(s.clock, QuietEvent(s, p), n, ticked, lossy);
  }

  lemma TickStep(env: Env, cfg: Config, s: Sys, n: nat, ticked: bool, lossy: bool, n': nat, ctc: nat)
    requires SysOk(env, s) && cfg.tscRatio > 0 && Knows(s.clock, n, ticked, lossy) && n < n'
    requires Ticks.InTime(n, n', lossy) && ctc == (s.clock.base + n') % 256
    ensures var r := Handle(env, cfg, s, Packet.Mtc(ctc));
            r.Some? && Knows(r.value.clock, n', true, false) && r.value.clock.base == s.clock.base
  {
    TickKnows(s.clock, n, ticked, lossy, n', s.cyc, ctc);
    TickNoted(env, cfg, s, ctc);
    hide Ticks.Record, Machine.MachOk, Knows, Handle, Ticks.InTime;
  }

  lemma TickNoted(env: Env, cfg: Config, s: Sys, ctc: nat)
    requires SysOk(env, s) && cfg.tscRatio > 0
    ensures var r := Handle(env, cfg, s, Packet.Mtc(ctc));
            r.Some? && r.value.clock == Ticks.Record(s.clock, L.Mtc, ctc, s.cyc)
  {
    HandleIsMark(env, cfg, s, Packet.Mtc(ctc));
    hide Ticks.Record, Machine.MachOk, Handle;
  }

  lemma TickKnows(c: Ticks.Clock, n: nat, ticked: bool, lossy: bool, n': nat, cyc: nat, ctc: nat)
    requires Knows(c, n, ticked, lossy) && n < n'
    requires Ticks.InTime(n, n', lossy)
    requires ctc == (c.base + n') % 256
    ensures var r := Ticks.Record(c, L.Mtc, ctc, cyc);
            Knows(r, n', true, false) && r.base == c.base
  {
    if lossy {
      Ticks.LostTickCounts(c, n, n', cyc);
    } else {
      Ticks.TickCounts(c, n, n', cyc);
    }
  }

  lemma LostStep(env: Env, cfg: Config, s: Sys, n: nat, ticked: bool, lossy: bool)
    requires SysOk(env, s) && cfg.tscRatio > 0 && Knows(s.clock, n, ticked, lossy) && ticked
    ensures var r := Handle(env, cfg, s, Packet.Plain(Op.Ovf, []));
            r.Some? && Knows(r.value.clock, n, ticked, true) && r.value.clock.base == s.clock.base
  {
    hide Machine.MachOk, Machine.Reset;
  }

  lemma {:induction false} TicksKnown(env: Env, cfg: Config, s: Sys, es: seq<Sent>, n: nat, ticked: bool, lossy: bool)
    requires SysOk(env, s) && cfg.tscRatio > 0 && Knows(s.clock, n, ticked, lossy) && Steady(es, n, ticked, lossy)
    requires HandleAll(env, cfg, s, PacketsOf(s.clock.base, es)).Some?
    ensures HandleAll(env, cfg, s, PacketsOf(s.clock.base, es)).value.clock.ticks == LastTickOf(es, n)
    decreases |es|
  {
    hide Knows, Ticks.Record, MarkOf, Handle, QuietEvent, Ticks.Happens;
    KnowsTicks(s.clock, n, ticked, lossy);
    if es != [] {
      var p := PacketOf(s.clock.base, es[0]);
      assert PacketsOf(s.clock.base, es)[1..] == PacketsOf(s.clock.base, es[1..]);
      var next := Handle(env, cfg, s, p).value;
      match es[0] {
        case TickAt(n') =>
          TickStep(env, cfg, s, n, ticked, lossy, n', p.ctc);
          TicksKnown(env, cfg, next, es[1..], n', true, false);
        case Lost =>
          LostStep(env, cfg, s, n, ticked, lossy);
          TicksKnown(env, cfg, next, es[1..], n, ticked, true);
        case Quiet(_) =>
          QuietStep(env, cfg, s, p, n, ticked, lossy);
          TicksKnown(env, cfg, next, es[1..], n, ticked, lossy);
      }
    }
  }

  lemma KnowsTicks(c: Ticks.Clock, n: nat, ticked: bool, lossy: bool)
    requires Knows(c, n, ticked, lossy)
    ensures c.ticks == n
  {
  }

  /** After an anchor, whatever other packets arrive in between, the decoder's tick count is the true
      number of ticks at the latest tick packet. */
  lemma PacketTicks(env: Env, cfg: Config, s: Sys, ctc: nat, fc: nat, es: seq<Sent>)
    requires SysOk(env, s) && cfg.tscRatio > 0 && Steady(es, 0, false, false)
    requires HandleAll(env, cfg, s, [Packet.Tma(ctc, fc)] + PacketsOf(ctc % 256, es)).Some?
    ensures HandleAll(env, cfg, s, [Packet.Tma(ctc, fc)] + PacketsOf(ctc % 256, es)).value.clock.ticks
            == LastTickOf(es, 0)
  {
    hide L.Latest, Ticks.Minus, Steady, PacketsOf;
    var ps := [Packet.Tma(ctc, fc)] + PacketsOf(ctc % 256, es);
    assert ps[0] == Packet.Tma(ctc, fc) && ps[1..] == PacketsOf(ctc % 256, es);
    var next := Handle(env, cfg, s, ps[0]).value;
    assert Knows(next.clock, 0, false, false) && next.clock.base == ctc % 256;
    TicksKnown(env, cfg, next, es, 0, false, false);
  }
}
