/** Which process the processor is said to run matters only for addresses outside the table: a replay
    that knows its position throughout does the same under any page directory. So the packets of an
    execution may change the page directory anywhere. */
module AnyProcess {
  import opened Options
  import opened Program
  import opened Replay
  import opened ReplayTheory
  import opened Machine
  import opened Interrupts

  lemma LandAnyProcess(env: Env, pgd: nat, pgd': nat, addr: nat, stack: seq<Frame>, bit: bool, tip: bool, exits: bool)
    ensures var d := Land(env, pgd, addr, stack, bit, tip, exits);
            d.Go? && d.last >= 0 ==> Land(env, pgd', addr, stack, bit, tip, exits) == d
  {
  }

  lemma DecideAnyProcess(env: Env, pgd: nat, pgd': nat, en: bool, i: nat, stack: seq<Frame>, bit: Option<Bit>,
                         tip: Option<nat>)
    requires i < |env.insts|
    ensures var d := Decide(env, pgd, en, i, stack, bit, tip);
            d.Wait? || (d.Go? && d.last >= 0) ==> Decide(env, pgd', en, i, stack, bit, tip) == d
  {
    hide Resolve;
    forall addr, s, b, t, x ensures
      var d := Land(env, pgd, addr, s, b, t, x); d.Go? && d.last >= 0 ==> Land(env, pgd', addr, s, b, t, x) == d
    {
      LandAnyProcess(env, pgd, pgd', addr, s, b, t, x);
    }
    hide Land;
  }

  lemma {:induction false} RunAnyProcess(env: Env, pgd: nat, pgd': nat, en: bool, c: Ctx)
    requires CtxOk(env, c)
    requires var o := Run(env, pgd, en, c); !o.Halted? && o.state.last >= 0
    ensures Run(env, pgd', en, c) == Run(env, pgd, en, c)
    decreases CtxMeasure(env, c).packets, CtxMeasure(env, c).slots, CtxMeasure(env, c).distance
  {
    hide Decide;
    if c.last >= 0 {
      DecideAnyProcess(env, pgd, pgd', en, c.last, c.stack, FrontBit(Look(env, c).tnt), Front(c.tip));
      var d := DecideCtx(env, pgd, en, c);
      if d.Go? && !d.exits {
        CtxProgress(env, pgd, en, c);
        LostRun(env, pgd, en, Apply(env, c, d));
        RunAnyProcess(env, pgd, pgd', en, Apply(env, c, d));
      }
    }
  }

  lemma LostRun(env: Env, pgd: nat, en: bool, c: Ctx)
    requires CtxOk(env, c)
    ensures c.last == -1 ==> Run(env, pgd, en, c) == Paused(c, [])
  {
  }

  lemma WaitAnyProcess(env: Env, pgd: nat, pgd': nat, en: bool, en': bool, i: nat, stack: seq<Frame>,
                       bit: Option<Bit>, tip: Option<nat>)
    requires i < |env.insts| && Decide(env, pgd, en, i, stack, bit, tip).Wait?
    ensures Decide(env, pgd', en', i, stack, bit, tip).Wait?
  {
  }

  lemma SettledAnyProcess(env: Env, pgd: nat, pgd': nat, en: bool, c: Ctx)
    requires CtxOk(env, c) && Settled(env, pgd, en, c)
    ensures Settled(env, pgd', en, c)
  {
    hide Decide;
    if c.last >= 0 {
      WaitAnyProcess(env, pgd, pgd', en, en, c.last, c.stack, FrontBit(Look(env, c).tnt), Front(c.tip));
    }
  }

  lemma FeedAnyProcess(env: Env, pgd: nat, pgd': nat, en: bool, c: Ctx, f: Feed)
    requires CtxOk(env, c)
    requires var o := FeedCtx(env, pgd, en, c, f); !o.Halted? && o.state.last >= 0
    ensures FeedCtx(env, pgd', en, c, f) == FeedCtx(env, pgd, en, c, f)
  {
    hide Run;
    if c.last >= 0 {
      var q := Queue(env, en, c, f);
      if q.Some? {
        QueueView(env, en, c, f);
        RunAnyProcess(env, pgd, pgd', en, q.value);
      }
    }
  }

  // ---- Steps of the machine that do the same under any page directory ----

  ghost predicate FeedSure(env: Env, m: Mach, f: Feed)
    requires MachOk(env, m)
  {
    && FeedMach(env, m, f).Some?
    && forall pgd: nat :: FeedMach(env, m.(pgd := pgd), f) == Some(FeedMach(env, m, f).value.(pgd := pgd))
  }

  ghost predicate EnterSure(env: Env, m: Mach, src: nat, dst: nat)
    requires MachOk(env, m)
  {
    && EnterMach(env, m, src, dst).Some?
    && forall pgd: nat ::
         EnterMach(env, m.(pgd := pgd), src, dst) == Some(EnterMach(env, m, src, dst).value.(pgd := pgd))
  }

  lemma PauseSure(env: Env, m: Mach, f: Feed)
    requires MachOk(env, m) && Settled(env, m.pgd, m.en, m.ctxs[m.idx])
    requires var o := FeedCtx(env, m.pgd, m.en, m.ctxs[m.idx], f); o.Paused? && o.state.last >= 0
    ensures FeedSure(env, m, f)
  {
    hide FeedCtx, FeedMach, Settled, CtxOk;
    FeedPauses(env, m, f);
    forall pgd: nat ensures FeedMach(env, m.(pgd := pgd), f) == Some(FeedMach(env, m, f).value.(pgd := pgd)) {
      GlobalsOk(env, m, pgd, m.en);
      ActiveOk(env, m);
      FeedAnyProcess(env, m.pgd, pgd, m.en, m.ctxs[m.idx], f);
      SettledAnyProcess(env, m.pgd, pgd, m.en, m.ctxs[m.idx]);
      FeedPauses(env, m.(pgd := pgd), f);
    }
  }

  lemma ActiveOk(env: Env, m: Mach)
    requires MachOk(env, m)
    ensures |m.ctxs| == MAX_NO_CTXS && m.idx < MAX_NO_CTXS && CtxOk(env, m.ctxs[m.idx])
    ensures m.idx >= 1 ==> CtxOk(env, m.ctxs[m.idx - 1])
  {
  }

  lemma ReturnSure(env: Env, m: Mach, f: Feed)
    requires MachOk(env, m)
    requires var o := FeedCtx(env, m.pgd, m.en, m.ctxs[m.idx], f); o.Exited? && ReturnsHome(env, m, o)
    ensures FeedSure(env, m, f)
  {
    hide FeedCtx, FeedMach, Settled, CtxOk;
    FeedReturns(env, m, f);
    forall pgd: nat ensures FeedMach(env, m.(pgd := pgd), f) == Some(FeedMach(env, m, f).value.(pgd := pgd)) {
      GlobalsOk(env, m, pgd, m.en);
      ActiveOk(env, m);
      FeedAnyProcess(env, m.pgd, pgd, m.en, m.ctxs[m.idx], f);
      SettledAnyProcess(env, m.pgd, pgd, m.en, m.ctxs[m.idx - 1]);
      FeedReturns(env, m.(pgd := pgd), f);
    }
  }

  lemma StartSure(env: Env, m: Mach, src: nat, dst: nat, i: nat)
    requires MachOk(env, m) && m.idx + 1 < MAX_NO_CTXS
    requires Drained(m.ctxs[m.idx]) && Resolve(env, m.pgd, dst) == At(i)
    requires var o := Run(env, m.pgd, m.en, Ctx(src, i, [], [], [])); o.Paused? && o.state.last >= 0
    ensures EnterSure(env, m, src, dst)
  {
    hide Run, EnterMach, Settled;
    EnterStarts(env, m, src, dst, i);
    forall pgd: nat
      ensures EnterMach(env, m.(pgd := pgd), src, dst) == Some(EnterMach(env, m, src, dst).value.(pgd := pgd))
    {
      GlobalsOk(env, m, pgd, m.en);
      RunAnyProcess(env, m.pgd, pgd, m.en, Ctx(src, i, [], [], []));
      EnterStarts(env, m.(pgd := pgd), src, dst, i);
    }
  }
}
