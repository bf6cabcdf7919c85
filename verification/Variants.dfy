/** The same execution reported differently: deferred packets, and compressed returns. */
module Variants {
  import opened Options
  import opened Program
  import opened Replay
  import opened ReplayTheory
  import opened Machine
  import opened Interrupts
  import opened Execution
  import opened Outcomes
  import opened Reconstruction

  /** Without return compression the packets of an execution may arrive in any relative order and
      grouping: once all have arrived, the executed path is recovered up to the first instruction
      whose packet is missing. */
  lemma PathRecoveredInAnyOrder(env: Env, pgd: nat, en: bool, p: Point, acts: seq<Act>, c: Ctx, ahead: seq<nat>,
                                fs: seq<Feed>)
    requires Sorted(env.insts) && !env.layout.retCompression && CtxOk(env, c)
    requires p.at < |env.insts| && |p.stack| < CALL_STACK_LEN && PerformAll(env, en, p, acts).Some?
    requires Starved(env, PerformAll(env, en, p, acts).value.at, [], [])
    requires Ahead(env, pgd, en, p, c, ahead)
    requires CarryAll(fs, Outs(acts), TipsOfActs(acts))
    requires FeedAll(env, pgd, en, c, fs).Paused?
    ensures var o := FeedAll(env, pgd, en, c, fs);
            && ahead + o.path == Path(env, en, p, acts)
            && ViewOf(o.state) == Here(PerformAll(env, en, p, acts).value, [], [])
  {
    hide Decide, Run, RunView, PerformAll, Path, FeedAll;
    var bits, tips := AllBits(en, fs), AllTips(fs);
    CarryAllFeeds(en, fs, Outs(acts), TipsOfActs(acts));
    OutsAreBits(en, acts);
    FeedingIsOneRun(env, pgd, en, c, fs);
    RunComposes(env, pgd, en, Here(p, [], []), bits, tips);
    assert Plus(Here(p, [], []), bits, tips) == Here(p, bits, tips);
    assert BitsOfActs(en, acts) + [] == bits && TipsOfActs(acts) + [] == tips;
    Follows(env, pgd, en, p, acts, [], []);
    StarvedHalts(env, pgd, en, PerformAll(env, en, p, acts).value);
    assert Path(env, en, p, acts) + [] == Path(env, en, p, acts);
  }

  // ---- Compressed returns ----

  function Plain(act: Act): Act {
    if act.Went? then Went(act.target, false) else act
  }

  function PlainAll(acts: seq<Act>): seq<Act> {
    seq(|acts|, k requires 0 <= k < |acts| => Plain(acts[k]))
  }

  /** Which returns were compressed has no influence on what was executed. */
  lemma {:induction false} PlainSame(env: Env, en: bool, p: Point, acts: seq<Act>)
    requires p.at < |env.insts| && |p.stack| < CALL_STACK_LEN && PerformAll(env, en, p, acts).Some?
    ensures PerformAll(env, en, p, PlainAll(acts)) == PerformAll(env, en, p, acts)
    ensures Path(env, en, p, PlainAll(acts)) == Path(env, en, p, acts)
    decreases |acts|
  {
    if acts != [] {
      assert Perform(env, en, p, Plain(acts[0])) == Perform(env, en, p, acts[0]);
      assert PlainAll(acts)[1..] == PlainAll(acts[1..]);
      PlainSame(env, en, Perform(env, en, p, acts[0]).value, acts[1..]);
    }
  }

  /** All acts of a level, whatever packets report them. */
  function LevelActs(tr: Trace): seq<Act> {
    match tr
    case End(acts) => acts
    case Leave(acts, _) => acts
    case Sent(acts, _, rest) => acts + LevelActs(rest)
    case Irq(acts, _, _, rest) => acts + LevelActs(rest)
  }

  lemma {:induction false} PerformConcat(env: Env, en: bool, p: Point, a: seq<Act>, b: seq<Act>)
    requires p.at < |env.insts| && |p.stack| < CALL_STACK_LEN && PerformAll(env, en, p, a).Some?
    requires PerformAll(env, en, PerformAll(env, en, p, a).value, b).Some?
    ensures PerformAll(env, en, p, a + b) == PerformAll(env, en, PerformAll(env, en, p, a).value, b)
    ensures Path(env, en, p, a + b) == Path(env, en, p, a) + Path(env, en, PerformAll(env, en, p, a).value, b)
    decreases |a|
  {
    hide Perform;
    if a == [] {
      assert a + b == b;
    } else {
      assert (a + b)[1..] == a[1..] + b;
      PerformConcat(env, en, Perform(env, en, p, a[0]).value, a[1..], b);
    }
  }

  lemma {:induction false} LevelIsOnePath(env: Env, en: bool, p: Point, tr: Trace)
    requires p.at < |env.insts| && |p.stack| < CALL_STACK_LEN && Valid(env, en, p, tr, None)
    ensures PerformAll(env, en, p, LevelActs(tr)) == Some(Final(env, en, p, tr))
    ensures Path(env, en, p, LevelActs(tr)) == Own(env, en, p, tr, None)
    decreases tr
  {
    hide PerformAll, Path;
    var q := PerformAll(env, en, p, tr.acts).value;
    match tr {
      case End(acts) =>
        assert Path(env, en, p, acts) + [] == Path(env, en, p, acts);
      case Sent(acts, _, rest) =>
        LevelIsOnePath(env, en, q, rest);
        PerformConcat(env, en, p, acts, LevelActs(rest));
      case Irq(acts, _, _, rest) =>
        LevelIsOnePath(env, en, q, rest);
        PerformConcat(env, en, p, acts, LevelActs(rest));
    }
  }

  /** Acts that differ only in which returns are compressed have the same path. */
  lemma SamePath(env: Env, en: bool, p: Point, tr: Trace, tr': Trace)
    requires p.at < |env.insts| && |p.stack| < CALL_STACK_LEN
    requires Valid(env, en, p, tr, None) && Valid(env, en, p, tr', None)
    requires PlainAll(LevelActs(tr)) == PlainAll(LevelActs(tr'))
    ensures Own(env, en, p, tr, None) == Own(env, en, p, tr', None)
    ensures Final(env, en, p, tr) == Final(env, en, p, tr')
  {
    hide PerformAll, Path;
    LevelIsOnePath(env, en, p, tr);
    LevelIsOnePath(env, en, p, tr');
    PlainSame(env, en, p, LevelActs(tr));
    PlainSame(env, en, p, LevelActs(tr'));
  }

  /** Two reports of the same acts that differ in which returns are compressed, in how outcomes are
      grouped into packets and in the interrupts served on the way: the replay of either goes through, and
      both log the same path at the level and below, and leave the same position and call stack. */
  lemma CompressionPreserves(env: Env, m: Mach, addr: nat, i: nat, tr: Trace, tr': Trace)
    requires Sorted(env.insts) && MachOk(env, m)
    requires StartsAt(env, addr, i) && Drained(m.ctxs[m.idx])
    requires m.idx + Depth(tr) < MAX_NO_CTXS && m.idx + Depth(tr') < MAX_NO_CTXS
    requires var p := Point(i, m.ctxs[m.idx].stack); Valid(env, m.en, p, tr, None) && Valid(env, m.en, p, tr', None)
    requires PlainAll(LevelActs(tr)) == PlainAll(LevelActs(tr'))
    ensures StartMach(env, m, addr).Some?
    ensures var p, start := Point(i, m.ctxs[m.idx].stack), StartMach(env, m, addr).value;
            var r := PlayAll(env, start, Emit(env, m.en, p, tr, None));
            var r' := PlayAll(env, start, Emit(env, m.en, p, tr', None));
            && r.Some? && r'.Some?
            && (forall d: nat | d <= m.idx :: AtDepth(r.value.log, d) == AtDepth(r'.value.log, d))
            && r.value.idx == r'.value.idx == m.idx
            && ViewOf(r.value.ctxs[m.idx]) == ViewOf(r'.value.ctxs[m.idx])
            && r.value.ctxs[..m.idx] == r'.value.ctxs[..m.idx]
  {
    hide Valid, Emit, Own, Final, LevelActs, PlayAll, StartMach, AtDepth, ViewOf;
    PathRecovered(env, m, addr, i, tr);
    PathRecovered(env, m, addr, i, tr');
    SamePath(env, m.en, Point(i, m.ctxs[m.idx].stack), tr, tr');
  }

  // ---- The same at every depth ----

  /** What remains of a trace when compression and the grouping of acts into packets are forgotten. */
  datatype Shape =
    | Stops(acts: seq<Act>)
    | Leaves(acts: seq<Act>, target: nat)
    | Breaks(acts: seq<Act>, dst: nat, handler: Shape, rest: Shape)

  /** The shape of a trace after some acts. */
  function ShapeOf(before: seq<Act>, tr: Trace): Shape
    decreases tr
  {
    var acts := before + PlainAll(tr.acts);
    match tr
    case End(_) => Stops(acts)
    case Leave(_, target) => Leaves(acts, target)
    case Sent(_, _, rest) => ShapeOf(acts, rest)
    case Irq(_, dst, handler, rest) => Breaks(acts, dst, ShapeOf([], handler), ShapeOf([], rest))
  }

  predicate Possible(env: Env, en: bool, p: Point, sh: Shape)
    requires p.at < |env.insts| && |p.stack| < CALL_STACK_LEN
    decreases sh
  {
    && PerformAll(env, en, p, sh.acts).Some?
    && (sh.Breaks? ==>
          && EntryPoint(env, sh.dst).Some? && Possible(env, en, EntryPoint(env, sh.dst).value, sh.handler)
          && Possible(env, en, PerformAll(env, en, p, sh.acts).value, sh.rest))
  }

  /** What is executed at the level, d levels above it, and where the level ends. */
  function ShapeOwn(env: Env, en: bool, p: Point, sh: Shape): seq<nat>
    requires p.at < |env.insts| && |p.stack| < CALL_STACK_LEN && Possible(env, en, p, sh)
    decreases sh
  {
    var q := PerformAll(env, en, p, sh.acts).value;
    Path(env, en, p, sh.acts) +
    match sh
    case Stops(_) => []
    case Leaves(_, _) => [q.at]
    case Breaks(_, _, _, rest) => ShapeOwn(env, en, q, rest)
  }

  function ShapeInner(env: Env, en: bool, p: Point, sh: Shape, d: nat): seq<nat>
    requires p.at < |env.insts| && |p.stack| < CALL_STACK_LEN && Possible(env, en, p, sh) && d > 0
    decreases sh
  {
    match sh
    case Breaks(acts, dst, handler, rest) =>
      var entry := EntryPoint(env, dst).value;
      (if d > 1 then ShapeInner(env, en, entry, handler, d - 1) else ShapeOwn(env, en, entry, handler))
      + ShapeInner(env, en, PerformAll(env, en, p, acts).value, rest, d)
    case _ => []
  }

  function ShapeFinal(env: Env, en: bool, p: Point, sh: Shape): Point
    requires p.at < |env.insts| && |p.stack| < CALL_STACK_LEN && Possible(env, en, p, sh)
    decreases sh
  {
    var q := PerformAll(env, en, p, sh.acts).value;
    if sh.Breaks? then ShapeFinal(env, en, q, sh.rest) else q
  }

  lemma ActsAfter(env: Env, en: bool, p: Point, before: seq<Act>, acts: seq<Act>)
    requires p.at < |env.insts| && |p.stack| < CALL_STACK_LEN && PerformAll(env, en, p, before).Some?
    requires PerformAll(env, en, PerformAll(env, en, p, before).value, acts).Some?
    ensures var all, q := before + PlainAll(acts), PerformAll(env, en, p, before).value;
            && PerformAll(env, en, p, all) == PerformAll(env, en, q, acts)
            && Path(env, en, p, all) == Path(env, en, p, before) + Path(env, en, q, acts)
  {
    PlainSame(env, en, PerformAll(env, en, p, before).value, acts);
    PerformConcat(env, en, p, before, PlainAll(acts));
  }

  /** The shape says what a trace from q executes, and what was executed before it. */
  ghost predicate Describes(env: Env, en: bool, p: Point, sh: Shape, mine: seq<nat>, q: Point, tr: Trace,
                            home: Option<nat>)
    requires p.at < |env.insts| && |p.stack| < CALL_STACK_LEN && q.at < |env.insts| && |q.stack| < CALL_STACK_LEN
    requires Valid(env, en, q, tr, home)
  {
    && Possible(env, en, p, sh)
    && ShapeOwn(env, en, p, sh) == mine + Own(env, en, q, tr, home)
    && (forall d: nat | d > 0 :: ShapeInner(env, en, p, sh, d) == Inner(env, en, q, tr, home, d))
    && (home.None? ==> ShapeFinal(env, en, p, sh) == Final(env, en, q, tr))
  }

  /** A trace executes what its shape says. */
  lemma {:induction false} ShapeMeans(env: Env, en: bool, p: Point, before: seq<Act>, tr: Trace, home: Option<nat>)
    requires p.at < |env.insts| && |p.stack| < CALL_STACK_LEN && PerformAll(env, en, p, before).Some?
    requires Valid(env, en, PerformAll(env, en, p, before).value, tr, home)
    ensures Describes(env, en, p, ShapeOf(before, tr), Path(env, en, p, before), PerformAll(env, en, p, before).value,
                      tr, home)
    decreases tr
  {
    hide PerformAll, Path, Describes;
    var q := PerformAll(env, en, p, before).value;
    ActsAfter(env, en, p, before, tr.acts);
    var all, next := before + PlainAll(tr.acts), PerformAll(env, en, q, tr.acts).value;
    match tr {
      case End(_) => LastMeans(env, en, p, before, tr, home);
      case Leave(_, _) => LastMeans(env, en, p, before, tr, home);
      case Sent(_, _, rest) =>
        ShapeMeans(env, en, p, all, rest, home);
        SentMeans(env, en, p, before, tr, home);
      case Irq(_, dst, handler, rest) =>
        NoActs(env, en, EntryPoint(env, dst).value);
        NoActs(env, en, next);
        ShapeMeans(env, en, EntryPoint(env, dst).value, [], handler, Some(env.insts[next.at].addr));
        ShapeMeans(env, en, next, [], rest, home);
        IrqMeans(env, en, p, before, tr, home);
    }
  }

  lemma LastMeans(env: Env, en: bool, p: Point, before: seq<Act>, tr: Trace, home: Option<nat>)
    requires p.at < |env.insts| && |p.stack| < CALL_STACK_LEN && PerformAll(env, en, p, before).Some?
    requires Valid(env, en, PerformAll(env, en, p, before).value, tr, home) && (tr.End? || tr.Leave?)
    ensures Describes(env, en, p, ShapeOf(before, tr), Path(env, en, p, before), PerformAll(env, en, p, before).value,
                      tr, home)
  {
    hide PerformAll, Path;
    var q := PerformAll(env, en, p, before).value;
    ActsAfter(env, en, p, before, tr.acts);
    var last := if tr.End? then [] else [PerformAll(env, en, q, tr.acts).value.at];
    Regroup(Path(env, en, p, before), Path(env, en, q, tr.acts), last);
  }

  lemma Regroup(a: seq<nat>, b: seq<nat>, c: seq<nat>)
    ensures a + b + c == a + (b + c)
  {
  }

  lemma SentMeans(env: Env, en: bool, p: Point, before: seq<Act>, tr: Trace, home: Option<nat>)
    requires p.at < |env.insts| && |p.stack| < CALL_STACK_LEN && PerformAll(env, en, p, before).Some?
    requires Valid(env, en, PerformAll(env, en, p, before).value, tr, home) && tr.Sent?
    requires PerformAll(env, en, p, before + PlainAll(tr.acts))
             == PerformAll(env, en, PerformAll(env, en, p, before).value, tr.acts)
    requires var all := before + PlainAll(tr.acts);
             Describes(env, en, p, ShapeOf(all, tr.rest), Path(env, en, p, all), PerformAll(env, en, p, all).value,
                       tr.rest, home)
    ensures Describes(env, en, p, ShapeOf(before, tr), Path(env, en, p, before), PerformAll(env, en, p, before).value,
                      tr, home)
  {
    hide PerformAll, Path;
    var q := PerformAll(env, en, p, before).value;
    ActsAfter(env, en, p, before, tr.acts);
    Regroup(Path(env, en, p, before), Path(env, en, q, tr.acts),
            Own(env, en, PerformAll(env, en, q, tr.acts).value, tr.rest, home));
    hide ShapeOwn, ShapeInner, ShapeFinal, Possible;
  }

  lemma IrqMeans(env: Env, en: bool, p: Point, before: seq<Act>, tr: Trace, home: Option<nat>)
    requires p.at < |env.insts| && |p.stack| < CALL_STACK_LEN && PerformAll(env, en, p, before).Some?
    requires Valid(env, en, PerformAll(env, en, p, before).value, tr, home) && tr.Irq?
    requires var next := PerformAll(env, en, PerformAll(env, en, p, before).value, tr.acts).value;
             var entry := EntryPoint(env, tr.dst).value;
             && Describes(env, en, entry, ShapeOf([], tr.handler), [], entry, tr.handler, Some(env.insts[next.at].addr))
             && Describes(env, en, next, ShapeOf([], tr.rest), [], next, tr.rest, home)
    ensures Describes(env, en, p, ShapeOf(before, tr), Path(env, en, p, before), PerformAll(env, en, p, before).value,
                      tr, home)
  {
    hide PerformAll, Path;
    var q := PerformAll(env, en, p, before).value;
    var next := PerformAll(env, en, q, tr.acts).value;
    var entry, src := EntryPoint(env, tr.dst).value, env.insts[next.at].addr;
    ActsAfter(env, en, p, before, tr.acts);
    assert ShapeOwn(env, en, next, ShapeOf([], tr.rest)) == Own(env, en, next, tr.rest, home);
    assert ShapeOwn(env, en, entry, ShapeOf([], tr.handler)) == Own(env, en, entry, tr.handler, Some(src));
    Regroup(Path(env, en, p, before), Path(env, en, q, tr.acts), Own(env, en, next, tr.rest, home));
    var sh := ShapeOf(before, tr);
    assert sh == Breaks(before + PlainAll(tr.acts), tr.dst, ShapeOf([], tr.handler), ShapeOf([], tr.rest));
    forall d: nat | d > 0 ensures ShapeInner(env, en, p, sh, d) == Inner(env, en, q, tr, home, d) {
      assert ShapeInner(env, en, next, sh.rest, d) == Inner(env, en, next, tr.rest, home, d);
      if d > 1 {
        assert ShapeInner(env, en, entry, sh.handler, d - 1) == Inner(env, en, entry, tr.handler, Some(src), d - 1);
      }
    }
  }

  lemma NoActs(env: Env, en: bool, p: Point)
    requires p.at < |env.insts| && |p.stack| < CALL_STACK_LEN
    ensures PerformAll(env, en, p, []) == Some(p) && Path(env, en, p, []) == []
    ensures forall path: seq<nat> :: [] + path == path
  {
  }

  /** If the same interrupts are served with the same handlers, whatever is compressed in them and however
      it is grouped, the two logs agree at every depth. */
  lemma CompressionPreservesAll(env: Env, m: Mach, addr: nat, i: nat, tr: Trace, tr': Trace)
    requires Sorted(env.insts) && MachOk(env, m) && StartsAt(env, addr, i) && Drained(m.ctxs[m.idx])
    requires m.idx + Depth(tr) < MAX_NO_CTXS && m.idx + Depth(tr') < MAX_NO_CTXS
    requires var p := Point(i, m.ctxs[m.idx].stack); Valid(env, m.en, p, tr, None) && Valid(env, m.en, p, tr', None)
    requires ShapeOf([], tr) == ShapeOf([], tr')
    ensures StartMach(env, m, addr).Some?
    ensures var p, start := Point(i, m.ctxs[m.idx].stack), StartMach(env, m, addr).value;
            var r := PlayAll(env, start, Emit(env, m.en, p, tr, None));
            var r' := PlayAll(env, start, Emit(env, m.en, p, tr', None));
            && r.Some? && r'.Some?
            && (forall d: nat :: AtDepth(r.value.log, d) == AtDepth(r'.value.log, d))
            && ViewOf(r.value.ctxs[m.idx]) == ViewOf(r'.value.ctxs[m.idx])
  {
    PathRecovered(env, m, addr, i, tr);
    PathRecovered(env, m, addr, i, tr');
    hide Valid, Emit, Final, PlayAll, StartMach, AtDepth, ViewOf, ShapeOf, MachOk, Executed;
    SameExecuted(env, m.en, Point(i, m.ctxs[m.idx].stack), tr, tr', m.idx);
  }

  lemma SameExecuted(env: Env, en: bool, p: Point, tr: Trace, tr': Trace, level: nat)
    requires p.at < |env.insts| && |p.stack| < CALL_STACK_LEN
    requires Valid(env, en, p, tr, None) && Valid(env, en, p, tr', None) && ShapeOf([], tr) == ShapeOf([], tr')
    ensures forall d: nat :: Executed(env, en, p, tr, level, d) == Executed(env, en, p, tr', level, d)
    ensures Final(env, en, p, tr) == Final(env, en, p, tr')
  {
    NoActs(env, en, p);
    ShapeMeans(env, en, p, [], tr, None);
    ShapeMeans(env, en, p, [], tr', None);
    hide Valid, Own, Inner, Final, ShapeOf, ShapeOwn, ShapeInner, ShapeFinal, PerformAll, Path, Possible;
    forall d: nat ensures Executed(env, en, p, tr, level, d) == Executed(env, en, p, tr', level, d) {
      if d > level {
        assert ShapeInner(env, en, p, ShapeOf([], tr), d - level) == Inner(env, en, p, tr, None, d - level);
        assert ShapeInner(env, en, p, ShapeOf([], tr'), d - level) == Inner(env, en, p, tr', None, d - level);
      }
    }
  }

  /** Feeding in order is necessary exactly here: a return that could have been compressed, reported
      by its target, is replayed from that target if and only if no later bit is queued. */
  lemma EarlyBitMisread(env: Env, pgd: nat, en: bool, p: Point, target: nat, bit: Option<Bit>)
    requires Sorted(env.insts) && p.at < |env.insts| && env.insts[p.at].kind.Ret?
    requires Perform(env, en, p, Went(target, false)).Some?
    ensures var q := Perform(env, en, p, Went(target, false)).value;
            Decide(env, pgd, en, p.at, p.stack, bit, Some(target)) == Go(q.at, q.stack, false, true, false)
            <==> bit.None? || !(env.layout.retCompression && p.stack != [] && p.stack[|p.stack| - 1].en)
  {
    hide Find;
  }
}
