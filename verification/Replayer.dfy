/** The replay as the source runs it (src/xed.c): contexts updated in place, a lookup with its hint
    and caches, and a branch log. Every method is proved against the machine of the specification;
    a false result stands for the deliberate stop after an error message. */
module Replayer {
  import opened Options
  import opened Program
  import opened Lookup
  import opened Replay
  import opened ReplayTheory
  import opened Machine
  import opened Contexts
  import opened Turns
  import Silent

  /** What a turn of the loop means for the rest of the replay. */
  ghost predicate TurnMeans(env: Env, before: Mach, t: Turn, after: Mach)
    requires Silent.NoSilentCycle(env) && MachOk(env, before) && MachOk(env, after)
  {
    match t
    case Stops => RunMach(env, before) == None
    case Waits => RunMach(env, before) == Some(after)
    case Moved => RunMach(env, before) == RunMach(env, after) && Nearer(env, before, after)
    case Exits(tip) => RunMach(env, before) == AfterExit(env, after, tip) && Nearer(env, before, after)
  }

  predicate Nearer(env: Env, before: Mach, after: Mach)
    requires before.idx < |before.ctxs|
  {
    && after.idx == before.idx && |after.ctxs| == |before.ctxs|
    && Below(CtxMeasure(env, after.ctxs[after.idx]), CtxMeasure(env, before.ctxs[before.idx]))
  }

  /** The machine once the active context has become `after`. */
  function Commit(m: Mach, t: Turn, after: Ctx): Mach
    requires m.idx < |m.ctxs| && m.ctxs[m.idx].last >= 0
  {
    m.(ctxs := m.ctxs[m.idx := after],
       log := if t.Moved? || t.Exits? then m.log + [Visit(m.idx, m.ctxs[m.idx].last)] else m.log)
  }

  lemma TurnDone(env: Env, m: Mach, t: Turn, after: Ctx)
    requires Silent.NoSilentCycle(env) && MachOk(env, m) && m.ctxs[m.idx].last != -1
    requires LooksLike(env, m, t, after)
    requires t.Stops? ==> after == m.ctxs[m.idx]
    ensures MachOk(env, Commit(m, t, after)) && TurnMeans(env, m, t, Commit(m, t, after))
  {
    hide Decide, RunMach, Silent.Ends;
    Silent.RunEnds(env, m.ctxs[m.idx].last);
    if t.Moved? || t.Exits? {
      TurnOk(env, m);
      assert Commit(m, t, after) == Turned(env, m) by {
        assert Visits(m.idx, [m.ctxs[m.idx].last]) == [Visit(m.idx, m.ctxs[m.idx].last)];
      }
      if t.Moved? {
        TurnMoves(env, m);
      } else {
        TurnExits(env, m);
      }
    } else {
      TurnStays(env, m);
      assert m.ctxs[m.idx := m.ctxs[m.idx]] == m.ctxs;
    }
  }

  /** The active context took this turn, after looking at its queues. */
  ghost predicate LooksLike(env: Env, m: Mach, t: Turn, after: Ctx) {
    && m.idx < |m.ctxs| && 0 <= m.ctxs[m.idx].last < |env.insts|
    && Did(env, m.pgd, m.en, Look(env, m.ctxs[m.idx]), t, after)
  }

  /** Contexts without packets, position or calls, with nothing in common. */
  method MakeContexts(n: nat) returns (made: seq<Context>, ghost all: set<object>)
    ensures |made| == n && fresh(all)
    ensures forall j | 0 <= j < n ::
              made[j] in all && made[j].parts <= all && made[j].Valid() && made[j].Value() == Blank(0)
    ensures forall i, j | 0 <= i < j < n :: made[i].parts !! made[j].parts
  {
    made, all := [], {};
    while |made| < n
      invariant |made| <= n && fresh(all)
      invariant forall j | 0 <= j < |made| ::
                  made[j] in all && made[j].parts <= all && made[j].Valid() && made[j].Value() == Blank(0)
      invariant forall i, j | 0 <= i < j < |made| :: made[i].parts !! made[j].parts
    {
      var c := new Context();
      hide Context.Valid, Context.Value;
      assert c.parts !! all;
      made, all := made + [c], all + c.parts;
    }
  }

  lemma InitialOk(env: Env)
    ensures MachOk(env, Initial())
  {
  }

  class Session {
    const finder: Finder
    const ctxs: seq<Context>
    var idx: nat
    var pgd: nat
    var en: bool
    /** The branch log. */
    var log: seq<Visit>
    /** The value of this session in the specification. */
    ghost var m: Mach
    /** The contexts and everything they are made of. */
    ghost const ctxParts: set<object>

    ghost function Parts(): set<object> {
      {this, finder, finder.high, finder.low} + ctxParts
    }

    ghost predicate Separate() {
      && |ctxs| == MAX_NO_CTXS
      && finder.high != finder.low
      && this !in ctxParts && finder !in ctxParts && finder.high !in ctxParts && finder.low !in ctxParts
      && (forall i, j | 0 <= i < j < |ctxs| :: ctxs[i].parts !! ctxs[j].parts)
      && (forall j | 0 <= j < |ctxs| :: ctxs[j] in ctxParts && ctxs[j].parts <= ctxParts)
    }

    ghost function TheEnv(): Env
      reads finder
    {
      finder.TheEnv()
    }

    ghost predicate Shows(j: nat, c: Ctx)
      requires j < |ctxs|
      reads ctxs[j], ctxs[j].parts
    {
      ctxs[j].Valid() && ctxs[j].Value() == c
    }

    ghost predicate Agrees()
      requires Separate()
      reads this, ctxParts
    {
      && |m.ctxs| == MAX_NO_CTXS && idx < MAX_NO_CTXS
      && m.idx == idx && m.pgd == pgd && m.en == en && m.log == log
      && forall j | 0 <= j < MAX_NO_CTXS :: Shows(j, m.ctxs[j])
    }

    ghost predicate Valid()
      reads Parts()
    {
      && Separate() && Agrees() && finder.Valid()
      && Silent.NoSilentCycle(TheEnv()) && MachOk(TheEnv(), m)
    }

    constructor (finder: Finder)
      requires finder.Valid() && Silent.NoSilentCycle(finder.TheEnv())
      ensures Valid() && this.finder == finder && m == Initial()
      ensures fresh(Parts() - {finder, finder.high, finder.low})
    {
      assert finder.high != finder.low;
      hide Context.Valid, Context.Value, Finder.Valid, MachOk, Silent.NoSilentCycle;
      InitialOk(finder.TheEnv());
      var made, all := MakeContexts(MAX_NO_CTXS);
      this.finder := finder;
      ctxs, ctxParts := made, all;
      idx, pgd, en, log, m := 0, 0, false, [], Initial();
    }

    /** The active context takes a turn; the others show what they did. */
    method StepActive() returns (t: Turn)
      requires Valid() && m.ctxs[idx].last != -1
      modifies finder`hint, finder.high, finder.low, ctxs[idx].parts
      ensures TheEnv() == old(TheEnv()) && finder.Valid()
      ensures AgreesBut() && m.ctxs[idx].last >= 0
      ensures t.Stops? || ctxs[idx].Valid()
      ensures LooksLike(TheEnv(), m, t, if t.Stops? then m.ctxs[idx] else ctxs[idx].Value())
    {
      var c := ctxs[idx];
      assert Shows(idx, m.ctxs[idx]) && 0 <= m.ctxs[idx].last < |finder.insts|;
      hide Did, MachOk, Look;
      t := Step(finder, c, pgd, en);
      forall k | 0 <= k < MAX_NO_CTXS && k != idx ensures Shows(k, m.ctxs[k]) {
        assert ctxs[k].parts !! c.parts;
        assert old(Shows(k, m.ctxs[k]));
      }
    }

    /** Everything but the active context is as the specification has it. */
    ghost predicate AgreesBut()
      requires Separate()
      reads this, ctxParts
    {
      && |m.ctxs| == MAX_NO_CTXS && idx < MAX_NO_CTXS
      && m.idx == idx && m.pgd == pgd && m.en == en && m.log == log
      && forall k | 0 <= k < MAX_NO_CTXS && k != idx :: Shows(k, m.ctxs[k])
    }

    /** Log the executed instruction, if the turn executed one. */
    method Note(t: Turn, i: nat, ghost after: Ctx)
      requires Separate() && AgreesBut() && m.ctxs[idx].last == i && Shows(idx, after)
      modifies this`log, this`m
      ensures Agrees() && m == Commit(old(m), t, after)
    {
      if t.Moved? || t.Exits? {
        log := log + [Visit(idx, i)];
      }
      m := Commit(m, t, after);
    }

    /** One turn of the loop. */
    method Turn() returns (t: Turn)
      requires Valid() && m.ctxs[idx].last != -1
      modifies this`log, this`m, finder`hint, finder.high, finder.low, ctxs[idx].parts
      ensures TheEnv() == old(TheEnv())
      ensures t.Stops? || Valid()
      ensures MachOk(TheEnv(), m) && TurnMeans(TheEnv(), old(m), t, m)
    {
      assert Shows(idx, m.ctxs[idx]);
      hide LooksLike, MachOk, TurnMeans, Look;
      var i := ctxs[idx].last;
      t := StepActive();
      ghost var after := if t.Stops? then m.ctxs[idx] else ctxs[idx].Value();
      TurnDone(TheEnv(), m, t, after);
      if t.Stops? {
        m := Commit(m, t, after);
      } else {
        Note(t, i, after);
      }
    }

    /** The specification takes over what the active context shows now. */
    ghost method Adopt(after: Ctx)
      requires Separate() && AgreesBut() && Shows(idx, after)
      modifies this`m
      ensures Agrees() && m == old(m).(ctxs := old(m).ctxs[idx := after])
    {
      m := m.(ctxs := m.ctxs[idx := after]);
    }

    /** `xed_async_reset`: the active context and all below it lose everything. */
    method ResetAll()
      requires Valid()
      modifies this`idx, this`m, ctxParts
      ensures Valid() && m == Reset(old(m))
    {
      ResetOk(TheEnv(), m);
      hide MachOk, Silent.NoSilentCycle, Finder.Valid, Shows, Reset;
      BlankUpTo(idx);
      Fall();
    }

    /** The outermost context becomes active once the others are blank. */
    method Fall()
      requires Separate() && |m.ctxs| == MAX_NO_CTXS && idx < MAX_NO_CTXS
      requires m.idx == idx && m.pgd == pgd && m.en == en && m.log == log
      requires forall k | 0 <= k < MAX_NO_CTXS :: Shows(k, if k <= idx then Blank(m.ctxs[k].src) else m.ctxs[k])
      modifies this`idx, this`m
      ensures Agrees() && m == Reset(old(m))
    {
      hide Shows;
      idx, m := 0, Reset(m);
    }

    method BlankUpTo(top: nat)
      requires Separate() && Agrees() && top < MAX_NO_CTXS
      modifies ctxParts
      ensures forall k | 0 <= k < MAX_NO_CTXS :: Shows(k, if k <= top then Blank(m.ctxs[k].src) else m.ctxs[k])
    {
      hide Shows;
      var i := 0;
      while i <= top
        invariant i <= top + 1
        invariant forall k | 0 <= k < MAX_NO_CTXS :: Shows(k, if k < i then Blank(m.ctxs[k].src) else m.ctxs[k])
      {
        assert Shows(i, m.ctxs[i]);
        ResetOne(i);
        i := i + 1;
      }
    }

    method ResetOne(i: nat)
      requires Separate() && i < MAX_NO_CTXS && |m.ctxs| == MAX_NO_CTXS && Shows(i, m.ctxs[i])
      modifies ctxs[i].parts
      ensures Shows(i, Blank(m.ctxs[i].src))
      ensures forall k, v | 0 <= k < MAX_NO_CTXS && k != i && old(Shows(k, v)) :: Shows(k, v)
    {
      ctxs[i].Reset();
      forall k, v | 0 <= k < MAX_NO_CTXS && k != i && old(Shows(k, v)) ensures Shows(k, v) {
        assert ctxs[k].parts !! ctxs[i].parts;
      }
    }

    /** After an interrupt return: check that the handler is finished, then go back to the context
        below, or forget everything when the return leads elsewhere. */
    method LeaveHandler(tip: nat) returns (ok: bool, again: bool)
      requires Valid()
      modifies this`idx, this`m, ctxParts
      ensures !ok ==> AfterExit(TheEnv(), old(m), tip) == None
      ensures ok ==> Valid()
      ensures ok && !again ==> AfterExit(TheEnv(), old(m), tip) == Some(m)
      ensures ok && again ==> AfterExit(TheEnv(), old(m), tip) == RunMach(TheEnv(), m)
      ensures ok && again ==> m == old(m).(idx := if old(idx) >= 1 then old(idx) - 1 else 0)
    {
      hide RunMach, Reset, MachOk, Silent.NoSilentCycle, Finder.Valid;
      var c := ctxs[idx];
      assert Shows(idx, m.ctxs[idx]);
      if c.depth != 0 {
        return false, false;
      }
      var drained := c.IsDrained();
      if !drained {
        return false, false;
      }
      if (c.src != 0 && c.src != tip) || c.last == -1 {
        ResetAll();
        return true, false;
      }
      LeaveOk(TheEnv(), m);
      if idx >= 1 {
        idx := idx - 1;
      }
      m := m.(idx := idx);
      return true, true;
    }

    method IsKnown() returns (known: bool)
      requires Valid()
      ensures known <==> m.ctxs[idx].last != -1
    {
      assert Shows(idx, m.ctxs[idx]);
      known := ctxs[idx].last != -1;
    }

    lemma SlotsLeft()
      requires Valid()
      ensures CtxMeasure(TheEnv(), m.ctxs[idx]).slots > 0
    {
      hide BitCount, Distance;
    }

    /** One turn of the loop, with what follows an interrupt return. */
    method Advance() returns (ok: bool, more: bool)
      requires Valid() && m.ctxs[idx].last != -1
      modifies this`idx, this`log, this`m, finder`hint, finder.high, finder.low, ctxParts
      ensures TheEnv() == old(TheEnv())
      ensures !ok ==> RunMach(TheEnv(), old(m)) == None
      ensures ok ==> Valid()
      ensures ok && !more ==> RunMach(TheEnv(), old(m)) == Some(m)
      ensures ok && more ==> RunMach(TheEnv(), old(m)) == RunMach(TheEnv(), m)
                             && (idx < old(idx) || Nearer(TheEnv(), old(m), m))
    {
      hide RunMach, MachOk, AfterExit, Silent.NoSilentCycle, Finder.Valid, BitCount, Distance;
      var t := Turn();
      match t {
        case Stops => ok, more := false, false;
        case Waits => ok, more := true, false;
        case Moved => ok, more := true, true;
        case Exits(tip) => ok, more := LeaveHandler(tip);
      }
    }

    /** The loop of `xed_process_branches`: replay until a packet is missing, the position is lost or
        the program stops, across any number of interrupt returns. */
    method Resume() returns (ok: bool)
      requires Valid()
      modifies this`idx, this`log, this`m, finder`hint, finder.high, finder.low, ctxParts
      ensures TheEnv() == old(TheEnv())
      ensures ok <==> RunMach(TheEnv(), old(m)).Some?
      ensures ok ==> Valid() && RunMach(TheEnv(), old(m)) == Some(m)
    {
      hide RunMach, MachOk, Silent.NoSilentCycle, Finder.Valid, BitCount, Distance, Shows;
      ghost var env := TheEnv();
      ok := true;
      var more := true;
      SlotsLeft();
      while more
        invariant TheEnv() == env && ok && Valid() && CtxMeasure(env, m.ctxs[idx]).slots >= 0
        invariant if more then RunMach(env, m) == RunMach(env, old(m)) else RunMach(env, old(m)) == Some(m)
        decreases more, idx, CtxMeasure(env, m.ctxs[idx]).packets, CtxMeasure(env, m.ctxs[idx]).slots,
                  CtxMeasure(env, m.ctxs[idx]).distance
      {
        var known := IsKnown();
        if known {
          ok, more := Advance();
          if !ok {
            return;
          }
          SlotsLeft();
        } else {
          LostStays(env, m);
          more := false;
        }
      }
    }

    // ---- Packets ----

    /** `add_tnt` or `add_tip` on the active context; the others show what they did. */
    method AddToActive(f: Feed) returns (ok: bool)
      requires Separate() && Agrees() && |finder.insts| > 0
      modifies ctxs[idx].parts
      ensures AgreesBut()
      ensures var c := m.ctxs[idx];
              && ok == (match f
                        case Bits(bits, len) => len == 0 || |c.tnt| + 1 < TNT_QUEUE_LEN
                        case Target(addr) =>
                          addr == 0 || (addr <= finder.insts[|finder.insts| - 1].addr && |c.tip| + 1 < TIP_QUEUE_LEN))
              && (ok ==> Shows(idx, match f
                                    case Bits(bits, len) => if len == 0 then c
                                      else c.(tnt := c.tnt + [Tnt(bits, len, en)])
                                    case Target(addr) => if addr == 0 then c else c.(tip := c.tip + [addr])))
    {
      var c := ctxs[idx];
      assert Shows(idx, m.ctxs[idx]);
      match f {
        case Bits(bits, len) => ok := c.AddTnt(bits, len, en);
        case Target(addr) => ok := c.AddTip(addr, finder.insts[|finder.insts| - 1].addr);
      }
      forall k | 0 <= k < MAX_NO_CTXS && k != idx ensures Shows(k, m.ctxs[k]) {
        assert ctxs[k].parts !! c.parts;
        assert old(Shows(k, m.ctxs[k]));
      }
    }

    method QueuePacket(f: Feed) returns (ok: bool)
      requires Valid() && m.ctxs[idx].last != -1
      modifies this`m, ctxs[idx].parts
      ensures ok <==> Queue(TheEnv(), en, old(m).ctxs[idx], f).Some?
      ensures ok ==> Valid() && m == old(m).(ctxs := old(m).ctxs[idx := Queue(TheEnv(), en, old(m).ctxs[idx], f).value])
    {
      hide MachOk, Silent.NoSilentCycle, Finder.Valid, CtxOk, Shows;
      QueueOk(TheEnv(), m, f);
      ghost var q := Queue(TheEnv(), en, m.ctxs[idx], f);
      ok := AddToActive(f);
      if ok {
        Adopt(q.value);
      }
    }

    /** `xed_process_branches`: queue what came and replay as far as possible. */
    method ProcessBranches(bits: nat, len: nat, tip: nat) returns (ok: bool)
      requires Valid()
      modifies this`idx, this`log, this`m, finder`hint, finder.high, finder.low, ctxParts
      ensures TheEnv() == old(TheEnv())
      ensures ok <==> ProcessMach(TheEnv(), old(m), bits, len, tip).Some?
      ensures ok ==> Valid() && ProcessMach(TheEnv(), old(m), bits, len, tip) == Some(m)
    {
      hide MachOk, Silent.NoSilentCycle, Finder.Valid, CtxOk, RunMach;
      var known := IsKnown();
      if !known {
        return true;
      }
      ok := QueuePacket(Bits(bits, len));
      if ok {
        ghost var q := m.ctxs[idx];
        ok := QueuePacket(Target(tip));
        assert ok ==> old(m).ctxs[idx := q][idx := m.ctxs[idx]] == old(m).ctxs[idx := m.ctxs[idx]];
      }
      if ok {
        ok := Resume();
      }
    }

    /** Move the active context to an address; the others show what they did. */
    method RelocateActive(addr: nat) returns (ok: bool)
      requires Separate() && Agrees() && finder.Valid()
      modifies finder`hint, finder.high, finder.low, ctxs[idx].parts
      ensures TheEnv() == old(TheEnv()) && finder.Valid() && AgreesBut()
      ensures var p := Resolve(TheEnv(), pgd, addr);
              && (ok <==> p != Stop)
              && (ok ==> Shows(idx, m.ctxs[idx].(last := match p case At(i) => i case _ => -1)))
    {
      hide Resolve, Finder.Valid;
      var c := ctxs[idx];
      assert Shows(idx, m.ctxs[idx]);
      ok := Relocate(finder, c, pgd, addr);
      forall k | 0 <= k < MAX_NO_CTXS && k != idx ensures Shows(k, m.ctxs[k]) {
        assert ctxs[k].parts !! c.parts;
        assert old(Shows(k, m.ctxs[k]));
      }
    }

    /** `xed_update_last_inst`. */
    method UpdateLastInst(addr: nat) returns (ok: bool)
      requires Valid()
      modifies this`m, finder`hint, finder.high, finder.low, ctxs[idx].parts
      ensures TheEnv() == old(TheEnv())
      ensures ok <==> Position(TheEnv(), old(m), addr).Some?
      ensures ok ==> Valid() && Position(TheEnv(), old(m), addr) == Some(m)
    {
      hide MachOk, Silent.NoSilentCycle, CtxOk, Resolve, Finder.Valid;
      PositionOk(TheEnv(), m, addr);
      ok := RelocateActive(addr);
      if ok {
        var c := ctxs[idx];
        Adopt(c.Value());
      }
    }

    /** Take up a position and replay as far as that alone allows. */
    method StartAt(addr: nat) returns (ok: bool)
      requires Valid()
      modifies this`idx, this`log, this`m, finder`hint, finder.high, finder.low, ctxParts
      ensures TheEnv() == old(TheEnv())
      ensures ok <==> StartMach(TheEnv(), old(m), addr).Some?
      ensures ok ==> Valid() && StartMach(TheEnv(), old(m), addr) == Some(m)
    {
      hide MachOk, Silent.NoSilentCycle, Finder.Valid, CtxOk, Position, RunMach, Queue;
      ok := UpdateLastInst(addr);
      if ok {
        FeedNothing(TheEnv(), m);
        ok := ProcessBranches(0, 0, 0);
      }
    }

    /** `xed_async_enter`, then start at the handler. */
    method AsyncEnter(src: nat, dst: nat) returns (ok: bool)
      requires Valid()
      modifies this`idx, this`log, this`m, finder`hint, finder.high, finder.low, ctxParts
      ensures TheEnv() == old(TheEnv())
      ensures ok <==> EnterMach(TheEnv(), old(m), src, dst).Some?
      ensures ok ==> Valid() && EnterMach(TheEnv(), old(m), src, dst) == Some(m)
    {
      hide MachOk, Silent.NoSilentCycle, CtxOk, StartMach, Finder.Valid;
      assert Shows(idx, m.ctxs[idx]);
      var drained := ctxs[idx].IsDrained();
      if !drained {
        return false;
      }
      if idx + 1 >= MAX_NO_CTXS {
        return false;
      }
      RaiseOk(TheEnv(), m, src);
      RaiseActive(src);
      ok := StartAt(dst);
    }

    method RaiseActive(src: nat)
      requires Separate() && Agrees() && idx + 1 < MAX_NO_CTXS
      modifies this`idx, this`m, ctxs[idx + 1].parts
      ensures Agrees() && m == Raise(old(m), src)
    {
      assert Shows(idx + 1, m.ctxs[idx + 1]);
      hide Shows;
      SetSource(idx + 1, src);
      forall k | 0 <= k < MAX_NO_CTXS && k != idx + 1 ensures Shows(k, m.ctxs[k]) {
        assert old(Shows(k, m.ctxs[k]));
      }
      Rise(src);
    }

    method Rise(src: nat)
      requires Separate() && |m.ctxs| == MAX_NO_CTXS && idx + 1 < MAX_NO_CTXS
      requires m.idx == idx && m.pgd == pgd && m.en == en && m.log == log
      requires forall k | 0 <= k < MAX_NO_CTXS :: Shows(k, if k == idx + 1 then m.ctxs[k].(src := src) else m.ctxs[k])
      modifies this`idx, this`m
      ensures Agrees() && m == Raise(old(m), src)
    {
      hide Shows;
      idx, m := idx + 1, Raise(m, src);
    }

    method SetSource(i: nat, src: nat)
      requires Separate() && i < MAX_NO_CTXS && |m.ctxs| == MAX_NO_CTXS && Shows(i, m.ctxs[i])
      modifies ctxs[i].parts
      ensures Shows(i, m.ctxs[i].(src := src))
      ensures forall k, v | 0 <= k < MAX_NO_CTXS && k != i && old(Shows(k, v)) :: Shows(k, v)
    {
      ctxs[i].src := src;
      forall k, v | 0 <= k < MAX_NO_CTXS && k != i && old(Shows(k, v)) ensures Shows(k, v) {
        assert ctxs[k].parts !! ctxs[i].parts;
      }
    }

    /** `xed_intel_pt_ovf`. */
    method Overflow()
      requires Valid()
      modifies this`idx, this`pgd, this`en, this`m, ctxParts
      ensures TheEnv() == old(TheEnv())
      ensures Valid() && m == OverflowMach(old(m))
    {
      ResetAll();
      SetGlobals(0, false);
    }

    /** `xed_intel_pt_pip`, `xed_intel_pt_psb`: which process runs, whether returns are compressed. */
    method SetGlobals(pgd: nat, en: bool)
      requires Valid()
      modifies this`pgd, this`en, this`m
      ensures Valid() && m == old(m).(pgd := pgd, en := en)
    {
      GlobalsOk(TheEnv(), m, pgd, en);
      hide MachOk, Silent.NoSilentCycle, Finder.Valid;
      this.pgd, this.en := pgd, en;
      m := m.(pgd := pgd, en := en);
      forall k | 0 <= k < MAX_NO_CTXS ensures Shows(k, m.ctxs[k]) {
        assert old(Shows(k, m.ctxs[k]));
      }
    }

    /** `xed_intel_pt_psb`: whether returns are compressed. */
    method SetCompression(en: bool)
      requires Valid()
      modifies this`pgd, this`en, this`m
      ensures Valid() && m == old(m).(en := en)
    {
      SetGlobals(pgd, en);
    }

    /** `xed_intel_pt_pip`: which process runs. */
    method SetProcess(pgd: nat)
      requires Valid()
      modifies this`pgd, this`en, this`m
      ensures Valid() && m == old(m).(pgd := pgd)
    {
      SetGlobals(pgd, en);
    }

    /** Whether the address is traced code that no instruction contains. */
    method IsUnmapped(addr: nat) returns (unmapped: bool)
      requires Valid()
      modifies finder`hint, finder.high, finder.low
      ensures Valid() && TheEnv() == old(TheEnv()) && m == old(m)
      ensures unmapped <==> Enabled(TheEnv().layout, m.pgd, addr) && addr != 0 && Find(TheEnv(), addr).None?
    {
      hide MachOk, Silent.NoSilentCycle, Find;
      if !Enabled(finder.layout, pgd, addr) || addr == 0 {
        return false;
      }
      var found := finder.FindInst(addr);
      unmapped := found.None?;
      forall k | 0 <= k < MAX_NO_CTXS ensures Shows(k, m.ctxs[k]) {
        assert old(Shows(k, m.ctxs[k]));
      }
    }

    /** `xed_intel_pt_tip_enable`, then take up the position. */
    method Enable(addr: nat) returns (ok: bool)
      requires Valid()
      modifies this`idx, this`en, this`pgd, this`log, this`m, finder`hint, finder.high, finder.low, ctxParts
      ensures TheEnv() == old(TheEnv())
      ensures ok <==> EnableMach(TheEnv(), old(m), addr).Some?
      ensures ok ==> Valid() && EnableMach(TheEnv(), old(m), addr) == Some(m)
    {
      hide MachOk, Silent.NoSilentCycle, CtxOk, StartMach, Finder.Valid;
      SetGlobals(pgd, true);
      ok := StartAt(addr);
    }

    /** `xed_intel_pt_tip_disable`. */
    method Disable() returns (ok: bool)
      requires Valid()
      modifies this`en, this`pgd, this`m
      ensures ok <==> DisableMach(old(m)).Some?
      ensures ok ==> Valid() && DisableMach(old(m)) == Some(m)
    {
      assert Shows(idx, m.ctxs[idx]);
      ok := ctxs[idx].IsDrained();
      if ok {
        SetGlobals(pgd, false);
      }
    }
  }
}
