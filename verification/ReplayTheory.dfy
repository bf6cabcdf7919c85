/** What the replay of one context guarantees: it depends only on the sequence of bits and the
    sequence of targets, partial replays compose, and a paused context is truly stuck. */
module ReplayTheory {
  import opened Options
  import opened Program
  import opened Replay
  import Silent

  function ViewOutcome(o: Outcome<Ctx>): Outcome<View> {
    match o
    case Paused(c, p) => Paused(ViewOf(c), p)
    case Exited(c, t, p) => Exited(ViewOf(c), t, p)
    case Halted => Halted
  }

  // ---- Packet grouping does not matter ----

  lemma FlatDropSpent(tnt: seq<Tnt>)
    ensures Flat(DropSpent(tnt)) == Flat(tnt)
  {
  }

  lemma {:induction false} FlatFront(tnt: seq<Tnt>)
    requires forall k | 0 <= k < |tnt| :: tnt[k].len > 0
    ensures FrontBit(tnt) == Front(Flat(tnt))
    ensures tnt != [] ==> Flat(UseBit(tnt)) == Flat(tnt)[1..]
  {
    hide BitSet;
    if tnt != [] {
      var used := UseBit(tnt);
      assert used[1..] == tnt[1..];
      var bit := FrontBit(tnt).value;
      var rest := BitsOf(used[0]) + Flat(tnt[1..]);
      assert Flat(tnt) == [bit] + rest by {
        assert BitsOf(tnt[0]) == [bit] + BitsOf(used[0]);
        assert [bit] + BitsOf(used[0]) + Flat(tnt[1..]) == [bit] + rest;
      }
    }
  }

  lemma LookMatchesView(env: Env, pgd: nat, en: bool, c: Ctx)
    requires CtxOk(env, c) && c.last >= 0
    ensures DecideCtx(env, pgd, en, c) == DecideView(env, pgd, en, ViewOf(c))
    ensures ViewOf(Look(env, c)) == ViewOf(c)
    ensures var d := DecideCtx(env, pgd, en, c);
            d.Go? ==> ViewOf(Apply(env, c, d)) == ApplyView(ViewOf(c), d)
  {
    FlatDropSpent(c.tnt);
    if !env.insts[c.last].kind.Plain? {
      FlatFront(DropSpent(c.tnt));
    }
  }

  /** The loop on packets computes what the loop on plain bits computes. */
  lemma {:induction false} RunRefines(env: Env, pgd: nat, en: bool, c: Ctx)
    requires CtxOk(env, c)
    ensures ViewOutcome(Run(env, pgd, en, c)) == RunView(env, pgd, en, ViewOf(c))
    decreases CtxMeasure(env, c).packets, CtxMeasure(env, c).slots, CtxMeasure(env, c).distance
  {
    hide Decide;
    if c.last >= 0 && Silent.Ends(env, c.last) {
      LookMatchesView(env, pgd, en, c);
      var d := DecideCtx(env, pgd, en, c);
      if d.Go? && !d.exits {
        CtxKeeps(env, pgd, en, c);
        CtxProgress(env, pgd, en, c);
        RunRefines(env, pgd, en, Apply(env, c, d));
      }
    }
  }

  // ---- A pause is final until a packet arrives ----

  /** The loop has nothing left to do. */
  ghost predicate Settled(env: Env, pgd: nat, en: bool, c: Ctx)
    requires CtxOk(env, c)
  {
    Run(env, pgd, en, c) == Paused(c, [])
  }

  /** The instructions that cannot be passed with these queues. */
  predicate Starved(env: Env, last: int, bits: seq<Bit>, tips: seq<nat>) {
    0 <= last < |env.insts| &&
    match env.insts[last].kind
    case Cond(_) => bits == []
    case Plain | Jump(_) | Call(_) => false
    case _ => tips == []
  }

  lemma WaitIsStarved(env: Env, pgd: nat, en: bool, v: View)
    requires ViewOk(env, v) && v.last >= 0 && DecideView(env, pgd, en, v).Wait?
    ensures Starved(env, v.last, v.bits, v.tips)
  {
  }

  lemma LookTwice(env: Env, c: Ctx)
    requires CtxOk(env, c) && c.last >= 0 && !env.insts[c.last].kind.Plain?
    ensures var w := Look(env, c);
            CtxOk(env, w) && Look(env, w) == w && forall t | t in w.tnt :: t.len > 0
  {
    forall t | t in Look(env, c).tnt ensures t.len > 0 {
      var k :| 0 <= k < |Look(env, c).tnt| && Look(env, c).tnt[k] == t;
    }
  }

  /** A replay that returns has lost its position, or sits at a conditional branch without bits or
      at an indirect or far transfer without a target, with no used-up packet left in the queue;
      and it would not move if it were called again. */
  lemma {:induction false} PauseIsStarved(env: Env, pgd: nat, en: bool, c: Ctx)
    requires CtxOk(env, c) && Run(env, pgd, en, c).Paused?
    ensures var w := Run(env, pgd, en, c).state;
            && Settled(env, pgd, en, w)
            && (w.last >= 0 ==> Starved(env, w.last, Flat(w.tnt), w.tip))
            && (w.last >= 0 ==> forall t | t in w.tnt :: t.len > 0)
    decreases CtxMeasure(env, c).packets, CtxMeasure(env, c).slots, CtxMeasure(env, c).distance
  {
    hide Decide;
    if c.last >= 0 {
      var d := DecideCtx(env, pgd, en, c);
      if d.Go? {
        CtxKeeps(env, pgd, en, c);
        CtxProgress(env, pgd, en, c);
        PauseIsStarved(env, pgd, en, Apply(env, c, d));
      } else {
        LookMatchesView(env, pgd, en, c);
        WaitIsStarved(env, pgd, en, ViewOf(c));
        LookTwice(env, c);
        LookMatchesView(env, pgd, en, Look(env, c));
      }
    }
  }

  /** A silent step needs no packet, takes none and leaves the call stack alone; so a silent cycle
      (Silent.CycleNeverEnds) keeps the loop going for ever whatever is queued. */
  lemma SilentStepAlwaysMoves(env: Env, pgd: nat, en: bool, i: nat, stack: seq<Frame>, bit: Option<Bit>,
                              tip: Option<nat>)
    requires i < |env.insts| && Silent.Next(env, i).Some?
    ensures Decide(env, pgd, en, i, stack, bit, tip) == Go(Silent.Next(env, i).value, stack, false, false, false)
  {
  }

  // ---- Partial replays compose ----

  function Plus(v: View, bits: seq<Bit>, tips: seq<nat>): View {
    v.(bits := v.bits + bits, tips := v.tips + tips)
  }

  function PlusOutcome(o: Outcome<View>, bits: seq<Bit>, tips: seq<nat>): Outcome<View> {
    match o
    case Paused(v, p) => Paused(Plus(v, bits, tips), p)
    case Exited(v, t, p) => Exited(Plus(v, bits, tips), t, p)
    case Halted => Halted
  }

  /** A decision to move or stop is not changed by packets that arrive later. */
  lemma DecisionStands(env: Env, pgd: nat, en: bool, i: nat, stack: seq<Frame>,
                       bit: Option<Bit>, tip: Option<nat>, bit': Option<Bit>, tip': Option<nat>)
    requires i < |env.insts|
    requires (bit.Some? ==> bit' == bit) && (tip.Some? ==> tip' == tip)
    requires env.layout.retCompression ==> tip.None?
    ensures var d := Decide(env, pgd, en, i, stack, bit, tip);
            !d.Wait? ==> Decide(env, pgd, en, i, stack, bit', tip') == d
  {
    hide Resolve;
  }

  lemma MoreQueued(env: Env, pgd: nat, en: bool, v: View, bits: seq<Bit>, tips: seq<nat>)
    requires ViewOk(env, v) && v.last >= 0
    requires env.layout.retCompression ==> v.tips == []
    ensures var d := DecideView(env, pgd, en, v);
            !d.Wait? ==> DecideView(env, pgd, en, Plus(v, bits, tips)) == d
    ensures var d := DecideView(env, pgd, en, v);
            d.Go? ==> ApplyView(Plus(v, bits, tips), d) == Plus(ApplyView(v, d), bits, tips)
  {
    hide Decide;
    DecisionStands(env, pgd, en, v.last, v.stack, Front(v.bits), Front(v.tips), Front(v.bits + bits),
      Front(v.tips + tips));
  }

  /** Replaying what is there and then the rest is replaying everything at once. With compressed
      returns this needs that no target is queued yet. */
  lemma {:induction false} RunComposes(env: Env, pgd: nat, en: bool, v: View, bits: seq<Bit>, tips: seq<nat>)
    requires ViewOk(env, v)
    requires env.layout.retCompression ==> v.tips == []
    ensures var now := RunView(env, pgd, en, v);
            RunView(env, pgd, en, Plus(v, bits, tips)) ==
              if now.Paused? then Prefix(now.path, RunView(env, pgd, en, Plus(now.state, bits, tips)))
              else PlusOutcome(now, bits, tips)
    decreases ViewMeasure(env, v).packets, ViewMeasure(env, v).slots, ViewMeasure(env, v).distance
  {
    hide Decide;
    if v.last >= 0 && Silent.Ends(env, v.last) {
      var d := DecideView(env, pgd, en, v);
      var more := Plus(v, bits, tips);
      MoreQueued(env, pgd, en, v, bits, tips);
      if d.Go? {
        if !d.exits {
          ViewProgress(env, pgd, en, v);
          var next := ApplyView(v, d);
          RunComposes(env, pgd, en, next, bits, tips);
          var now := RunView(env, pgd, en, next);
          if now.Paused? {
            PrefixPrefix([v.last], now.path, RunView(env, pgd, en, Plus(now.state, bits, tips)));
          }
        }
      }
    }
  }

  // ---- Feeding packets ----

  /** One call of `xed_process_branches`: some branch bits or one target. */
  datatype Feed = Bits(bits: nat, len: nat) | Target(addr: nat)

  function FeedBits(en: bool, f: Feed): seq<Bit> {
    if f.Bits? then BitsOf(Tnt(f.bits, f.len, en)) else []
  }

  function FeedTips(f: Feed): seq<nat> {
    if f.Target? && f.addr != 0 then [f.addr] else []
  }

  /** Queue a packet: empty ones are ignored; a full queue and a target above the last instruction
      stop the program. */
  function Queue(env: Env, en: bool, c: Ctx, f: Feed): Option<Ctx>
    requires 0 <= c.last < |env.insts|
  {
    match f
    case Bits(bits, len) =>
      if len == 0 then Some(c)
      else if |c.tnt| + 1 >= TNT_QUEUE_LEN then None
      else Some(c.(tnt := c.tnt + [Tnt(bits, len, en)]))
    case Target(addr) =>
      if addr == 0 then Some(c)
      else if addr > env.insts[|env.insts| - 1].addr then None
      else if |c.tip| + 1 >= TIP_QUEUE_LEN then None
      else Some(c.(tip := c.tip + [addr]))
  }

  /** Only a full queue of 1023 packets, or a target above the last instruction, stops the program. */
  lemma QueueStops(env: Env, en: bool, c: Ctx, f: Feed)
    requires 0 <= c.last < |env.insts|
    ensures Queue(env, en, c, f) == None <==>
            match f
            case Bits(_, len) => len != 0 && |c.tnt| >= 1023
            case Target(addr) => addr != 0 && (addr > env.insts[|env.insts| - 1].addr || |c.tip| >= 1023)
  {
  }

  ghost function FeedCtx(env: Env, pgd: nat, en: bool, c: Ctx, f: Feed): (o: Outcome<Ctx>)
    requires CtxOk(env, c)
    ensures !o.Halted? ==> CtxOk(env, o.state) && o.state.src == c.src
  {
    if c.last == -1 then Paused(c, [])
    else match Queue(env, en, c, f)
      case None => Halted
      case Some(q) => Run(env, pgd, en, q)
  }

  /** Feed packets one by one, as long as the context neither stops nor leaves. */
  ghost function FeedAll(env: Env, pgd: nat, en: bool, c: Ctx, fs: seq<Feed>): (o: Outcome<Ctx>)
    requires CtxOk(env, c)
    ensures !o.Halted? ==> CtxOk(env, o.state)
    decreases |fs|
  {
    if fs == [] then Paused(c, [])
    else match FeedCtx(env, pgd, en, c, fs[0])
      case Paused(next, path) => Prefix(path, FeedAll(env, pgd, en, next, fs[1..]))
      case other => other
  }

  function AllBits(en: bool, fs: seq<Feed>): seq<Bit> {
    if fs == [] then [] else FeedBits(en, fs[0]) + AllBits(en, fs[1..])
  }

  function AllTips(fs: seq<Feed>): seq<nat> {
    if fs == [] then [] else FeedTips(fs[0]) + AllTips(fs[1..])
  }

  lemma {:induction false} FlatAppend(tnt: seq<Tnt>, t: Tnt)
    ensures Flat(tnt + [t]) == Flat(tnt) + BitsOf(t)
  {
    if tnt == [] {
      assert [t][1..] == [];
    } else {
      assert (tnt + [t])[1..] == tnt[1..] + [t];
      FlatAppend(tnt[1..], t);
    }
  }

  lemma QueueView(env: Env, en: bool, c: Ctx, f: Feed)
    requires CtxOk(env, c) && c.last >= 0 && Queue(env, en, c, f).Some?
    ensures var q := Queue(env, en, c, f).value;
            CtxOk(env, q) && ViewOf(q) == Plus(ViewOf(c), FeedBits(en, f), FeedTips(f))
  {
    if f.Bits? {
      FlatAppend(c.tnt, Tnt(f.bits, f.len, en));
    }
  }

  /** Same position, same call stack, same path; and the same packets left over unless the position
      is lost (then later packets are dropped instead of queued). */
  ghost predicate Agree(c: View, path: seq<nat>, o: Outcome<View>) {
    && o.Paused? && o.path == path
    && o.state.last == c.last && o.state.stack == c.stack
    && (c.last >= 0 ==> o.state == c)
  }

  lemma PlusPlus(v: View, b1: seq<Bit>, t1: seq<nat>, b2: seq<Bit>, t2: seq<nat>)
    ensures Plus(Plus(v, b1, t1), b2, t2) == Plus(v, b1 + b2, t1 + t2)
  {
    assert v.bits + b1 + b2 == v.bits + (b1 + b2);
    assert v.tips + t1 + t2 == v.tips + (t1 + t2);
  }

  /** Feeding one packet is the first part of the replay of that packet and all later ones. */
  lemma FeedThenRest(env: Env, pgd: nat, en: bool, c: Ctx, f: Feed, bits: seq<Bit>, tips: seq<nat>)
    requires CtxOk(env, c) && c.last >= 0
    requires env.layout.retCompression ==> c.tip == [] && FeedTips(f) == []
    requires FeedCtx(env, pgd, en, c, f).Paused?
    ensures var now := FeedCtx(env, pgd, en, c, f);
            && Settled(env, pgd, en, now.state)
            && RunView(env, pgd, en, Plus(ViewOf(c), FeedBits(en, f) + bits, FeedTips(f) + tips))
               == Prefix(now.path, RunView(env, pgd, en, Plus(ViewOf(now.state), bits, tips)))
  {
    hide Decide, RunView, Run;
    var q := Queue(env, en, c, f).value;
    QueueView(env, en, c, f);
    RunRefines(env, pgd, en, q);
    PauseIsStarved(env, pgd, en, q);
    RunComposes(env, pgd, en, ViewOf(q), bits, tips);
    PlusPlus(ViewOf(c), FeedBits(en, f), FeedTips(f), bits, tips);
  }

  /** Feeding packet by packet ends where one replay of all bits and all targets ends. */
  lemma {:induction false} FeedingIsOneRun(env: Env, pgd: nat, en: bool, c: Ctx, fs: seq<Feed>)
    requires CtxOk(env, c) && !env.layout.retCompression
    requires Settled(env, pgd, en, c) && FeedAll(env, pgd, en, c, fs).Paused?
    ensures var o := FeedAll(env, pgd, en, c, fs);
            Agree(ViewOf(o.state), o.path, RunView(env, pgd, en, Plus(ViewOf(c), AllBits(en, fs), AllTips(fs))))
    decreases |fs|
  {
    hide Decide, Run;
    if fs == [] {
      RunRefines(env, pgd, en, c);
      assert Plus(ViewOf(c), [], []) == ViewOf(c);
    } else if c.last == -1 {
      FeedingIsOneRun(env, pgd, en, c, fs[1..]);
    } else {
      FeedThenRest(env, pgd, en, c, fs[0], AllBits(en, fs[1..]), AllTips(fs[1..]));
      FeedingIsOneRun(env, pgd, en, FeedCtx(env, pgd, en, c, fs[0]).state, fs[1..]);
    }
  }

  /** The order in which bits and targets arrive relative to each other, and how bits are grouped
      into packets, is irrelevant. */
  lemma FeedOrderIrrelevant(env: Env, pgd: nat, en: bool, c: Ctx, fs: seq<Feed>, gs: seq<Feed>)
    requires CtxOk(env, c) && !env.layout.retCompression
    requires Settled(env, pgd, en, c)
    requires AllBits(en, fs) == AllBits(en, gs) && AllTips(fs) == AllTips(gs)
    requires FeedAll(env, pgd, en, c, fs).Paused? && FeedAll(env, pgd, en, c, gs).Paused?
    ensures var f, g := FeedAll(env, pgd, en, c, fs), FeedAll(env, pgd, en, c, gs);
            && f.path == g.path
            && f.state.last == g.state.last && f.state.stack == g.state.stack
            && (f.state.last >= 0 ==> ViewOf(f.state) == ViewOf(g.state))
  {
    FeedingIsOneRun(env, pgd, en, c, fs);
    FeedingIsOneRun(env, pgd, en, c, gs);
  }
}
