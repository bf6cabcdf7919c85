/** The whole path, through nested interrupts and optionally compressed returns, is recovered from
    the packets of an execution. */
module Reconstruction {
  import opened Options
  import opened Program
  import opened Replay
  import opened ReplayTheory
  import opened Machine
  import opened Interrupts
  import opened Execution
  import opened Outcomes

  /** An execution at one level. `Sent` acts are reported together by one packet; an interrupt
      arrives after some acts that need no packet, at the instruction that would come next; a
      handler ends with the interrupt return; the outermost level ends at an instruction whose
      packet never comes. */
  datatype Trace =
    | End(acts: seq<Act>)
    | Leave(acts: seq<Act>, target: nat)
    | Sent(acts: seq<Act>, f: Feed, rest: Trace)
    | Irq(acts: seq<Act>, dst: nat, handler: Trace, rest: Trace)

  predicate Unreported(acts: seq<Act>) {
    forall a | a in acts :: a == Fall
  }

  /** The handler's entry instruction, with nothing called yet. */
  function EntryPoint(env: Env, dst: nat): (r: Option<Point>)
    ensures r.Some? ==> r.value.at < |env.insts| && StartsAt(env, dst, r.value.at) && r.value.stack == []
  {
    match StartIndex(env, dst)
    case None => None
    case Some(i) => Some(Point(i, []))
  }

  /** The execution is one of this program; `home` is where its last interrupt return must lead. */
  predicate Valid(env: Env, en: bool, p: Point, tr: Trace, home: Option<nat>)
    requires p.at < |env.insts| && |p.stack| < CALL_STACK_LEN
    decreases tr
  {
    PerformAll(env, en, p, tr.acts).Some? &&
    var q := PerformAll(env, en, p, tr.acts).value;
    match tr
    case End(acts) => Unreported(acts) && home.None? && Starved(env, q.at, [], [])
    case Leave(acts, target) =>
      && Unreported(acts) && env.insts[q.at].kind.Iret? && q.stack == []
      && home == Some(target) && StartIndex(env, target).Some?
    case Sent(acts, f, rest) => Carries(f, acts) && Valid(env, en, q, rest, home)
    case Irq(acts, dst, handler, rest) =>
      && Unreported(acts)
      && EntryPoint(env, dst).Some?
      && Valid(env, en, EntryPoint(env, dst).value, handler, Some(env.insts[q.at].addr))
      && Valid(env, en, q, rest, home)
  }

  function Depth(tr: Trace): nat {
    match tr
    case End(_) => 0
    case Leave(_, _) => 0
    case Sent(_, _, rest) => Depth(rest)
    case Irq(_, _, handler, rest) =>
      var inner := 1 + Depth(handler);
      if inner > Depth(rest) then inner else Depth(rest)
  }

  /** What is executed at the level itself. */
  function Own(env: Env, en: bool, p: Point, tr: Trace, home: Option<nat>): seq<nat>
    requires p.at < |env.insts| && |p.stack| < CALL_STACK_LEN && Valid(env, en, p, tr, home)
    decreases tr
  {
    var q := PerformAll(env, en, p, tr.acts).value;
    Path(env, en, p, tr.acts) +
    match tr
    case End(_) => []
    case Leave(_, _) => [q.at]
    case Sent(_, _, rest) => Own(env, en, q, rest, home)
    case Irq(_, _, _, rest) => Own(env, en, q, rest, home)
  }

  /** What is executed d levels above it. */
  function Inner(env: Env, en: bool, p: Point, tr: Trace, home: Option<nat>, d: nat): seq<nat>
    requires p.at < |env.insts| && |p.stack| < CALL_STACK_LEN && Valid(env, en, p, tr, home) && d > 0
    decreases tr
  {
    var q := PerformAll(env, en, p, tr.acts).value;
    match tr
    case End(_) => []
    case Leave(_, _) => []
    case Sent(_, _, rest) => Inner(env, en, q, rest, home, d)
    case Irq(_, dst, handler, rest) =>
      var entry := EntryPoint(env, dst).value;
      var back := Some(env.insts[q.at].addr);
      (if d > 1 then Inner(env, en, entry, handler, back, d - 1) else Own(env, en, entry, handler, back))
      + Inner(env, en, q, rest, home, d)
  }

  /** The packets a tracer sends: one per reported group, and the pair of addresses of an interrupt. */
  function Emit(env: Env, en: bool, p: Point, tr: Trace, home: Option<nat>): Events
    requires p.at < |env.insts| && |p.stack| < CALL_STACK_LEN && Valid(env, en, p, tr, home)
    decreases tr
  {
    var q := PerformAll(env, en, p, tr.acts).value;
    match tr
    case End(_) => Done
    case Leave(_, target) => Fed(Target(target), Done)
    case Sent(_, f, rest) => Fed(f, Emit(env, en, q, rest, home))
    case Irq(_, dst, handler, rest) =>
      var src := env.insts[q.at].addr;
      Int(src, dst, Emit(env, en, EntryPoint(env, dst).value, handler, Some(src)), Emit(env, en, q, rest, home))
  }

  /** Where the outermost level ends. */
  function Final(env: Env, en: bool, p: Point, tr: Trace): Point
    requires p.at < |env.insts| && |p.stack| < CALL_STACK_LEN && Valid(env, en, p, tr, None)
    decreases tr
  {
    var q := PerformAll(env, en, p, tr.acts).value;
    match tr
    case End(_) => q
    case Sent(_, _, rest) => Final(env, en, q, rest)
    case Irq(_, _, _, rest) => Final(env, en, q, rest)
  }

  // ---- The replay runs ahead of the execution, but never past a missing packet ----

  /** With nothing queued the replay pauses at a known instruction. */
  ghost predicate Halts(env: Env, pgd: nat, en: bool, p: Point)
    requires p.at < |env.insts| && |p.stack| < CALL_STACK_LEN
  {
    var o := RunView(env, pgd, en, Here(p, [], []));
    o.Paused? && o.state.last >= 0 && o.state.bits == [] && o.state.tips == []
  }

  lemma StarvedWaits(env: Env, pgd: nat, en: bool, p: Point)
    requires p.at < |env.insts| && |p.stack| < CALL_STACK_LEN && Starved(env, p.at, [], [])
    ensures DecideView(env, pgd, en, Here(p, [], [])).Wait?
  {
  }

  lemma {:induction false} ActsHalt(env: Env, pgd: nat, en: bool, p: Point, acts: seq<Act>)
    requires Sorted(env.insts)
    requires p.at < |env.insts| && |p.stack| < CALL_STACK_LEN && PerformAll(env, en, p, acts).Some?
    requires Halts(env, pgd, en, PerformAll(env, en, p, acts).value)
    ensures Halts(env, pgd, en, p)
    decreases |acts|
  {
    hide Decide, Stacked;
    if acts != [] {
      if acts[0] == Fall {
        ActsHalt(env, pgd, en, Perform(env, en, p, acts[0]).value, acts[1..]);
        FollowsOne(env, pgd, en, p, Fall, [], []);
      } else {
        StarvedWaits(env, pgd, en, p);
      }
    }
  }

  lemma {:induction false} TraceHalts(env: Env, pgd: nat, en: bool, p: Point, tr: Trace, home: Option<nat>)
    requires Sorted(env.insts)
    requires p.at < |env.insts| && |p.stack| < CALL_STACK_LEN && Valid(env, en, p, tr, home)
    ensures Halts(env, pgd, en, p)
    decreases tr
  {
    hide Decide, PerformAll;
    var q := PerformAll(env, en, p, tr.acts).value;
    match tr {
      case End(_) => StarvedWaits(env, pgd, en, q);
      case Leave(_, _) => StarvedWaits(env, pgd, en, q);
      case Sent(_, _, rest) => TraceHalts(env, pgd, en, q, rest, home);
      case Irq(_, _, _, rest) => TraceHalts(env, pgd, en, q, rest, home);
    }
    ActsHalt(env, pgd, en, p, tr.acts);
  }

  /** The context c has already executed `ahead` beyond the point p, and waits. */
  ghost predicate Ahead(env: Env, pgd: nat, en: bool, p: Point, c: Ctx, ahead: seq<nat>)
    requires CtxOk(env, c) && p.at < |env.insts| && |p.stack| < CALL_STACK_LEN
  {
    && RunView(env, pgd, en, Here(p, [], [])) == Paused(ViewOf(c), ahead)
    && c.last >= 0 && Drained(c) && Settled(env, pgd, en, c)
  }

  lemma FlatEmpty(tnt: seq<Tnt>)
    requires Flat(tnt) == [] && forall t | t in tnt :: t.len > 0
    ensures tnt == []
  {
  }

  /** A run of a context whose view is the run from a point is a context ahead of that point. */
  lemma RunIsAhead(env: Env, pgd: nat, en: bool, c: Ctx, p: Point, from: seq<nat>, acts: seq<nat>)
    requires CtxOk(env, c) && p.at < |env.insts| && |p.stack| < CALL_STACK_LEN
    requires Halts(env, pgd, en, p)
    requires Prefix(from, RunView(env, pgd, en, ViewOf(c))) == Prefix(acts, RunView(env, pgd, en, Here(p, [], [])))
    ensures var o, ahead := Run(env, pgd, en, c), RunView(env, pgd, en, Here(p, [], [])).path;
            && o.Paused?
            && Ahead(env, pgd, en, p, o.state, ahead)
            && from + o.path == acts + ahead
  {
    hide Decide, Run, RunView;
    RunRefines(env, pgd, en, c);
    PauseIsStarved(env, pgd, en, c);
    FlatEmpty(Run(env, pgd, en, c).state.tnt);
  }

  lemma {:induction false} TipsKnown(env: Env, en: bool, p: Point, acts: seq<Act>, t: nat)
    requires Sorted(env.insts) && p.at < |env.insts| && |p.stack| < CALL_STACK_LEN
    requires PerformAll(env, en, p, acts).Some? && t in TipsOfActs(acts)
    ensures t <= env.insts[|env.insts| - 1].addr
    decreases |acts|
  {
    if t in ActTips(acts[0]) {
      StartsBelowEnd(env, t);
    } else {
      TipsKnown(env, en, Perform(env, en, p, acts[0]).value, acts[1..], t);
    }
  }

  lemma StartsBelowEnd(env: Env, t: nat)
    requires Sorted(env.insts) && StartIndex(env, t).Some?
    ensures t <= env.insts[|env.insts| - 1].addr
  {
    var i, n := StartIndex(env, t).value, |env.insts|;
    assert i < n - 1 ==> env.insts[i].addr + env.insts[i].length <= env.insts[n - 1].addr;
  }

  lemma PacketFits(env: Env, en: bool, p: Point, acts: seq<Act>, f: Feed, c: Ctx)
    requires Sorted(env.insts) && p.at < |env.insts| && |p.stack| < CALL_STACK_LEN
    requires PerformAll(env, en, p, acts).Some? && Carries(f, acts)
    requires CtxOk(env, c) && c.last >= 0 && Drained(c)
    ensures Queue(env, en, c, f).Some?
    ensures var q := Queue(env, en, c, f).value;
            CtxOk(env, q) && ViewOf(q) == Plus(ViewOf(c), FeedBits(en, f), FeedTips(f))
  {
    hide PerformAll, BitsOf, Flat, Carries, Sorted, BitsOfActs;
    CarriesFeeds(en, f, acts);
    if f.Target? && f.addr != 0 {
      assert f.addr in FeedTips(f);
      TipsKnown(env, en, p, acts, f.addr);
    }
    QueueView(env, en, c, f);
  }

  /** One packet takes a context that is ahead of p to one that is ahead of the point after the acts. */
  lemma PacketFollows(env: Env, pgd: nat, en: bool, p: Point, acts: seq<Act>, f: Feed, c: Ctx, ahead: seq<nat>)
    requires Sorted(env.insts)
    requires CtxOk(env, c) && p.at < |env.insts| && |p.stack| < CALL_STACK_LEN
    requires PerformAll(env, en, p, acts).Some? && Carries(f, acts)
    requires Ahead(env, pgd, en, p, c, ahead) && Halts(env, pgd, en, PerformAll(env, en, p, acts).value)
    ensures var o := FeedCtx(env, pgd, en, c, f);
            var q := PerformAll(env, en, p, acts).value;
            var next := RunView(env, pgd, en, Here(q, [], [])).path;
            && o.Paused?
            && Ahead(env, pgd, en, q, o.state, next)
            && ahead + o.path == Path(env, en, p, acts) + next
  {
    hide Decide, Run, RunView, PerformAll, Path;
    var bits, tips := FeedBits(en, f), FeedTips(f);
    CarriesFeeds(en, f, acts);
    PacketFits(env, en, p, acts, f, c);
    var qc := Queue(env, en, c, f).value;
    RunComposes(env, pgd, en, Here(p, [], []), bits, tips);
    assert Plus(Here(p, [], []), bits, tips) == Here(p, bits, tips);
    assert BitsOfActs(en, acts) + [] == bits && TipsOfActs(acts) + [] == tips;
    Follows(env, pgd, en, p, acts, [], []);
    RunIsAhead(env, pgd, en, qc, PerformAll(env, en, p, acts).value, ahead, Path(env, en, p, acts));
  }

  /** Acts that need no packet only shorten what the context is ahead by. */
  lemma UnreportedFollows(env: Env, pgd: nat, en: bool, p: Point, acts: seq<Act>, c: Ctx, ahead: seq<nat>)
    requires Sorted(env.insts)
    requires CtxOk(env, c) && p.at < |env.insts| && |p.stack| < CALL_STACK_LEN
    requires PerformAll(env, en, p, acts).Some? && Unreported(acts)
    requires Ahead(env, pgd, en, p, c, ahead) && Halts(env, pgd, en, PerformAll(env, en, p, acts).value)
    ensures var q := PerformAll(env, en, p, acts).value;
            var next := RunView(env, pgd, en, Here(q, [], [])).path;
            Ahead(env, pgd, en, q, c, next) && ahead == Path(env, en, p, acts) + next
  {
    hide Decide, Run, RunView, PerformAll, Path;
    UnreportedSendsNothing(en, acts);
    var nothing: seq<Bit>, nowhere: seq<nat> := [], [];
    assert BitsOfActs(en, acts) + nothing == [] && TipsOfActs(acts) + nowhere == [];
    Follows(env, pgd, en, p, acts, [], []);
  }

  lemma {:induction false} UnreportedSendsNothing(en: bool, acts: seq<Act>)
    requires Unreported(acts)
    ensures BitsOfActs(en, acts) == [] && TipsOfActs(acts) == []
  {
    if acts != [] {
      assert acts[0] in acts;
      assert forall a | a in acts[1..] :: a in acts;
      UnreportedSendsNothing(en, acts[1..]);
    }
  }

  // ---- A level, and the whole machine ----

  /** The outcome of a level that has executed exactly `own` (of which `ahead` beforehand): it waits
      at the end point, or has returned home. */
  predicate Completed(own: seq<nat>, end: Option<Point>, home: Option<nat>, ahead: seq<nat>, o: Outcome<Ctx>) {
    && !o.Halted?
    && ahead + o.path == own
    && (match home
        case None => o.Paused? && end.Some? && ViewOf(o.state) == Here(end.value, [], [])
        case Some(back) =>
          && o.Exited? && o.tip == back && back != 0
          && o.state.last >= 0 && o.state.stack == [] && Drained(o.state))
  }

  lemma CompletedPrefix(own: seq<nat>, end: Option<Point>, home: Option<nat>, next: seq<nat>, o: Outcome<Ctx>,
                        ahead: seq<nat>, path: seq<nat>, acts: seq<nat>)
    requires Completed(own, end, home, next, o) && ahead + path == acts + next
    ensures Completed(acts + own, end, home, ahead, Prefix(path, o))
  {
    assert ahead + (path + o.path) == ahead + path + o.path;
    assert acts + next + o.path == acts + (next + o.path);
  }

  /** The end of a level: the last instruction waits, or returns from the interrupt. */
  lemma LastFollows(env: Env, pgd: nat, en: bool, p: Point, tr: Trace, home: Option<nat>, c: Ctx, ahead: seq<nat>)
    requires Sorted(env.insts) && CtxOk(env, c)
    requires p.at < |env.insts| && |p.stack| < CALL_STACK_LEN && Valid(env, en, p, tr, home)
    requires Ahead(env, pgd, en, p, c, ahead) && (tr.End? || tr.Leave?)
    ensures Completed(Own(env, en, p, tr, home), if home.None? then Some(Final(env, en, p, tr)) else None, home, ahead,
                      PlayLevel(env, pgd, en, c, Emit(env, en, p, tr, home)))
  {
    hide Decide, Run, RunView, PerformAll, Path, FeedCtx, Served, Completed;
    var q := PerformAll(env, en, p, tr.acts).value;
    StarvedHalts(env, pgd, en, q);
    UnreportedFollows(env, pgd, en, p, tr.acts, c, ahead);
    if tr.End? {
      EndCompletes(q, Path(env, en, p, tr.acts), c, ahead);
    } else {
      ReturnLeaves(env, pgd, en, q, c, tr.target);
      LeaveCompletes(env, q, Path(env, en, p, tr.acts), c, ahead, tr.target);
    }
  }

  lemma {:induction false} LevelFollows(env: Env, pgd: nat, en: bool, p: Point, tr: Trace, home: Option<nat>, c: Ctx,
                                        ahead: seq<nat>)
    requires Sorted(env.insts) && CtxOk(env, c)
    requires p.at < |env.insts| && |p.stack| < CALL_STACK_LEN && Valid(env, en, p, tr, home)
    requires Ahead(env, pgd, en, p, c, ahead)
    ensures Completed(Own(env, en, p, tr, home), if home.None? then Some(Final(env, en, p, tr)) else None, home, ahead,
                      PlayLevel(env, pgd, en, c, Emit(env, en, p, tr, home)))
    decreases tr, 0
  {
    hide Decide, Run, RunView, PerformAll, Path, FeedCtx, Served, Completed, Carries, Unreported, Starved, Find, Sorted;
    var q := PerformAll(env, en, p, tr.acts).value;
    var end := if home.None? then Some(Final(env, en, p, tr)) else None;
    match tr {
      case End(_) =>
        LastFollows(env, pgd, en, p, tr, home, c, ahead);
      case Leave(_, _) =>
        LastFollows(env, pgd, en, p, tr, home, c, ahead);
      case Sent(acts, f, rest) =>
        TraceHalts(env, pgd, en, q, rest, home);
        PacketFollows(env, pgd, en, p, acts, f, c, ahead);
        var o := FeedCtx(env, pgd, en, c, f);
        var next := RunView(env, pgd, en, Here(q, [], [])).path;
        LevelFollows(env, pgd, en, q, rest, home, o.state, next);
        var o2 := PlayLevel(env, pgd, en, o.state, Emit(env, en, q, rest, home));
        CompletedPrefix(Own(env, en, q, rest, home), end, home, next, o2, ahead, o.path, Path(env, en, p, acts));
      case Irq(acts, dst, handler, rest) =>
        TraceHalts(env, pgd, en, q, rest, home);
        UnreportedFollows(env, pgd, en, p, acts, c, ahead);
        var next := RunView(env, pgd, en, Here(q, [], [])).path;
        HandlerFollows(env, pgd, en, env.insts[q.at].addr, dst, handler);
        LevelFollows(env, pgd, en, q, rest, home, c, next);
        var o2 := PlayLevel(env, pgd, en, c, Emit(env, en, q, rest, home));
        CompletedPrefix(Own(env, en, q, rest, home), end, home, next, o2, ahead, [], Path(env, en, p, acts));
        NoPrefix(o2);
    }
  }

  lemma NoPrefix<S>(o: Outcome<S>)
    ensures Prefix([], o) == o
  {
    if !o.Halted? {
      assert [] + o.path == o.path;
    }
  }

  lemma EndCompletes(q: Point, acts: seq<nat>, c: Ctx, ahead: seq<nat>)
    requires ahead == acts && ViewOf(c) == Here(q, [], [])
    ensures Completed(acts + [], Some(q), None, ahead, Paused(c, []))
  {
  }

  lemma LeaveCompletes(env: Env, q: Point, acts: seq<nat>, c: Ctx, ahead: seq<nat>, target: nat)
    requires ahead == acts && ViewOf(c) == Here(q, [], []) && q.stack == [] && Drained(c)
    requires StartIndex(env, target).Some?
    ensures Completed(acts + [q.at], None, Some(target), ahead,
            Exited(c.(last := StartIndex(env, target).value), target, [q.at]))
  {
  }

  lemma StarvedHalts(env: Env, pgd: nat, en: bool, p: Point)
    requires p.at < |env.insts| && |p.stack| < CALL_STACK_LEN && Starved(env, p.at, [], [])
    ensures RunView(env, pgd, en, Here(p, [], [])) == Paused(Here(p, [], []), [])
  {
    StarvedWaits(env, pgd, en, p);
  }

  /** At an interrupt return the next target leaves the handler. */
  lemma ReturnLeaves(env: Env, pgd: nat, en: bool, p: Point, c: Ctx, target: nat)
    requires Sorted(env.insts) && CtxOk(env, c)
    requires p.at < |env.insts| && env.insts[p.at].kind.Iret? && |p.stack| < CALL_STACK_LEN
    requires ViewOf(c) == Here(p, [], []) && Drained(c) && StartIndex(env, target).Some?
    ensures FeedCtx(env, pgd, en, c, Target(target))
            == Exited(c.(last := StartIndex(env, target).value), target, [p.at])
  {
    hide Find;
    StartsBelowEnd(env, target);
    var q := c.(tip := [target]);
    assert c.tip + [target] == [target];
    assert Queue(env, en, c, Target(target)) == Some(q);
    assert Look(env, q) == q;
    assert [target][1..] == [];
    assert Apply(env, q, DecideCtx(env, pgd, en, q)) == c.(last := StartIndex(env, target).value);
  }

  /** A handler of the execution is served by the replay of its packets. */
  lemma {:induction false} HandlerFollows(env: Env, pgd: nat, en: bool, src: nat, dst: nat, handler: Trace)
    requires Sorted(env.insts)
    requires EntryPoint(env, dst).Some? && Valid(env, en, EntryPoint(env, dst).value, handler, Some(src))
    ensures var entry := EntryPoint(env, dst).value;
            var body := Emit(env, en, entry, handler, Some(src));
            && Served(env, pgd, en, src, dst, body)
            && PlayHandler(env, pgd, en, src, dst, body).path == Own(env, en, entry, handler, Some(src))
    decreases handler, 1
  {
    hide Decide, Run, RunView, PerformAll, Path, FeedCtx, Valid, Own, Emit;
    var entry := EntryPoint(env, dst).value;
    var c := Ctx(src, entry.at, [], [], []);
    TraceHalts(env, pgd, en, entry, handler, Some(src));
    assert ViewOf(c) == Here(entry, [], []);
    RunIsAhead(env, pgd, en, c, entry, [], []);
    var start := Run(env, pgd, en, c);
    var ahead := RunView(env, pgd, en, Here(entry, [], [])).path;
    assert start.path == ahead by {
      assert [] + start.path == start.path && [] + ahead == ahead;
    }
    LevelFollows(env, pgd, en, entry, handler, Some(src), start.state, ahead);
  }

  lemma {:induction false} InnerIsAbove(env: Env, pgd: nat, en: bool, p: Point, tr: Trace, home: Option<nat>, d: nat)
    requires Sorted(env.insts)
    requires p.at < |env.insts| && |p.stack| < CALL_STACK_LEN && Valid(env, en, p, tr, home) && d > 0
    ensures Above(env, pgd, en, Emit(env, en, p, tr, home), d) == Inner(env, en, p, tr, home, d)
    decreases tr
  {
    hide PerformAll, PlayHandler, Own;
    var q := PerformAll(env, en, p, tr.acts).value;
    match tr {
      case End(_) =>
      case Leave(_, _) =>
      case Sent(_, _, rest) => InnerIsAbove(env, pgd, en, q, rest, home, d);
      case Irq(_, dst, handler, rest) =>
        var src := env.insts[q.at].addr;
        HandlerFollows(env, pgd, en, src, dst, handler);
        InnerIsAbove(env, pgd, en, q, rest, home, d);
        if d > 1 {
          InnerIsAbove(env, pgd, en, EntryPoint(env, dst).value, handler, Some(src), d - 1);
        }
    }
  }

  lemma {:induction false} NestingIsDepth(env: Env, en: bool, p: Point, tr: Trace, home: Option<nat>)
    requires p.at < |env.insts| && |p.stack| < CALL_STACK_LEN && Valid(env, en, p, tr, home)
    ensures Nesting(Emit(env, en, p, tr, home)) == Depth(tr)
    decreases tr
  {
    hide PerformAll;
    var q := PerformAll(env, en, p, tr.acts).value;
    match tr {
      case End(_) =>
      case Leave(_, _) =>
      case Sent(_, _, rest) => NestingIsDepth(env, en, q, rest, home);
      case Irq(_, dst, handler, rest) =>
        NestingIsDepth(env, en, q, rest, home);
        NestingIsDepth(env, en, EntryPoint(env, dst).value, handler, Some(env.insts[q.at].addr));
    }
  }

  /** What the log gains at depth d. */
  ghost function Executed(env: Env, en: bool, p: Point, tr: Trace, level: nat, d: nat): seq<nat>
    requires p.at < |env.insts| && |p.stack| < CALL_STACK_LEN && Valid(env, en, p, tr, None)
  {
    if d < level then []
    else if d == level then Own(env, en, p, tr, None)
    else Inner(env, en, p, tr, None, d - level)
  }

  /** Taking up a position brings the active context ahead of that point. */
  lemma StartFollows(env: Env, m: Mach, addr: nat, i: nat) returns (start: Ctx, ahead: seq<nat>)
    requires MachOk(env, m) && StartsAt(env, addr, i) && Drained(m.ctxs[m.idx])
    requires Halts(env, m.pgd, m.en, Point(i, m.ctxs[m.idx].stack))
    ensures CtxOk(env, start) && start.src == m.ctxs[m.idx].src
    ensures Ahead(env, m.pgd, m.en, Point(i, m.ctxs[m.idx].stack), start, ahead)
    ensures StartMach(env, m, addr) == Some(Put(m, start, ahead))
  {
    hide Decide, Run, RunView, Find;
    var p := Point(i, m.ctxs[m.idx].stack);
    var c := m.ctxs[m.idx].(last := i);
    assert ViewOf(c) == Here(p, [], []);
    RunIsAhead(env, m.pgd, m.en, c, p, [], []);
    start := Run(env, m.pgd, m.en, c).state;
    ahead := RunView(env, m.pgd, m.en, Here(p, [], [])).path;
    assert Run(env, m.pgd, m.en, c).path == ahead by {
      assert [] + Run(env, m.pgd, m.en, c).path == Run(env, m.pgd, m.en, c).path && [] + ahead == ahead;
    }
    assert m.ctxs[m.idx := c][m.idx := start] == m.ctxs[m.idx := start];
  }

  lemma SettledDrained(env: Env, pgd: nat, en: bool, c: Ctx)
    requires CtxOk(env, c) && Settled(env, pgd, en, c)
    requires c.last >= 0 && Flat(c.tnt) == [] && c.tip == []
    ensures Drained(c)
  {
    hide Run;
    PauseIsStarved(env, pgd, en, c);
    FlatEmpty(c.tnt);
  }

  lemma GrowsAsExecuted(env: Env, m: Mach, p: Point, tr: Trace, start: Ctx, ahead: seq<nat>, own: seq<nat>, d: nat)
    requires Sorted(env.insts) && m.idx < |m.ctxs|
    requires p.at < |env.insts| && |p.stack| < CALL_STACK_LEN && Valid(env, m.en, p, tr, None)
    requires ahead + own == Own(env, m.en, p, tr, None)
    ensures var m0 := Put(m, start, ahead);
            AtDepth(m0.log, d) + Grown(env, m0, m.idx, own, Emit(env, m.en, p, tr, None), d)
            == AtDepth(m.log, d) + Executed(env, m.en, p, tr, m.idx, d)
  {
    hide AtDepth, Valid, Own, Emit, Inner, Above;
    PutGrows(env, m, start, ahead, d);
    if d > m.idx {
      InnerIsAbove(env, m.pgd, m.en, p, tr, None, d - m.idx);
    }
  }

  /** From the address where tracing starts, the packets of any execution make the replay execute,
      at every depth, exactly what was executed there, and end where the execution ended, with the
      same call stack. The replay does not stop on the way. */
  lemma PathRecovered(env: Env, m: Mach, addr: nat, i: nat, tr: Trace)
    requires Sorted(env.insts) && MachOk(env, m)
    requires StartsAt(env, addr, i) && Drained(m.ctxs[m.idx])
    requires m.idx + Depth(tr) < MAX_NO_CTXS
    requires Valid(env, m.en, Point(i, m.ctxs[m.idx].stack), tr, None)
    ensures StartMach(env, m, addr).Some?
    ensures var p := Point(i, m.ctxs[m.idx].stack);
            var r := PlayAll(env, StartMach(env, m, addr).value, Emit(env, m.en, p, tr, None));
            && r.Some?
            && r.value.idx == m.idx
            && ViewOf(r.value.ctxs[m.idx]) == Here(Final(env, m.en, p, tr), [], []) && Drained(r.value.ctxs[m.idx])
            && r.value.ctxs[..m.idx] == m.ctxs[..m.idx]
            && forall d: nat :: AtDepth(r.value.log, d) == AtDepth(m.log, d) + Executed(env, m.en, p, tr, m.idx, d)
  {
    hide Decide, Run, RunView, PerformAll, Path, FeedCtx, Valid, Own, Emit, PlayLevel, PlayAll, StartMach, AtDepth,
         Executed, Grown;
    var p := Point(i, m.ctxs[m.idx].stack);
    var evs := Emit(env, m.en, p, tr, None);
    TraceHalts(env, m.pgd, m.en, p, tr, None);
    var start, ahead := StartFollows(env, m, addr, i);
    var m0 := Put(m, start, ahead);
    LevelFollows(env, m.pgd, m.en, p, tr, None, start, ahead);
    NestingIsDepth(env, m.en, p, tr, None);
    LevelPlays(env, m0, evs);
    var r := PlayAll(env, m0, evs).value;
    var own := PlayLevel(env, m.pgd, m.en, start, evs).path;
    SettledDrained(env, m.pgd, m.en, r.ctxs[m.idx]);
    assert m0.ctxs[..m.idx] == m.ctxs[..m.idx];
    forall d: nat ensures AtDepth(r.log, d) == AtDepth(m.log, d) + Executed(env, m.en, p, tr, m.idx, d) {
      assert AtDepth(r.log, d) == AtDepth(m0.log, d) + Grown(env, m0, m.idx, own, evs, d);
      GrowsAsExecuted(env, m, p, tr, start, ahead, own, d);
    }
  }
}
