/** Whole executions, deed by deed: packets, interrupts whose handlers return, end elsewhere or never end,
    pauses of tracing and lost packets; and what the replay of their reports logs at every depth. */
module Stories {
  import opened Options
  import opened Program
  import opened Replay
  import opened ReplayTheory
  import opened Machine
  import opened Interrupts
  import opened Execution
  import opened Outcomes
  import opened Reconstruction
  import AnyProcess

  // ---- Events in a row ----

  /** A packet with outcomes or a target, an asynchronous transfer, tracing stopped and started again at an
      address, or packets lost and the address where the tracer goes on. */
  datatype Step = Given(f: Feed) | Entered(src: nat, dst: nat) | Resumed(addr: nat) | Restarted(addr: nat)

  function Flatten(evs: Events): seq<Step> {
    match evs
    case Done => []
    case Fed(f, rest) => [Given(f)] + Flatten(rest)
    case Int(src, dst, body, rest) => [Entered(src, dst)] + Flatten(body) + Flatten(rest)
  }

  ghost function TakeStep(env: Env, m: Mach, step: Step): (r: Option<Mach>)
    requires MachOk(env, m)
    ensures r.Some? ==> MachOk(env, r.value) && r.value.en == m.en
  {
    match step
    case Given(f) => FeedMach(env, m, f)
    case Entered(src, dst) => EnterMach(env, m, src, dst)
    case Resumed(addr) => if Drained(m.ctxs[m.idx]) then StartMach(env, m, addr) else None
    case Restarted(addr) => ResetOk(env, m); StartMach(env, Reset(m), addr)
  }

  ghost function PlaySteps(env: Env, m: Mach, steps: seq<Step>): (r: Option<Mach>)
    requires MachOk(env, m)
    ensures r.Some? ==> MachOk(env, r.value) && r.value.en == m.en
    decreases |steps|
  {
    if steps == [] then Some(m)
    else match TakeStep(env, m, steps[0])
      case None => None
      case Some(next) => PlaySteps(env, next, steps[1..])
  }

  lemma {:induction false} StepsConcat(env: Env, m: Mach, a: seq<Step>, b: seq<Step>)
    requires MachOk(env, m)
    ensures PlaySteps(env, m, a + b) == match PlaySteps(env, m, a)
                                        case None => None
                                        case Some(mid) => PlaySteps(env, mid, b)
    decreases |a|
  {
    hide TakeStep, MachOk;
    if a == [] {
      assert a + b == b;
    } else {
      assert (a + b)[0] == a[0] && (a + b)[1..] == a[1..] + b;
      var next := TakeStep(env, m, a[0]);
      if next.Some? {
        StepsConcat(env, next.value, a[1..], b);
      }
    }
  }

  /** Nesting matters only for the order of events. */
  lemma {:induction false} PlayInARow(env: Env, m: Mach, evs: Events)
    requires MachOk(env, m)
    ensures PlayAll(env, m, evs) == PlaySteps(env, m, Flatten(evs))
    decreases evs
  {
    hide FeedMach, EnterMach, MachOk;
    match evs {
      case Done =>
      case Fed(f, rest) =>
        assert ([Given(f)] + Flatten(rest))[1..] == Flatten(rest);
        if FeedMach(env, m, f).Some? {
          PlayInARow(env, FeedMach(env, m, f).value, rest);
        }
      case Int(src, dst, body, rest) =>
        var inner, outer := Flatten(body), Flatten(rest);
        assert [Entered(src, dst)] + inner + outer == [Entered(src, dst)] + (inner + outer);
        assert ([Entered(src, dst)] + (inner + outer))[1..] == inner + outer;
        if EnterMach(env, m, src, dst).Some? {
          var entered := EnterMach(env, m, src, dst).value;
          PlayInARow(env, entered, body);
          StepsConcat(env, entered, inner, outer);
          if PlayAll(env, entered, body).Some? {
            PlayInARow(env, PlayAll(env, entered, body).value, rest);
          }
        }
    }
  }

  // ---- Steps that do the same under any page directory ----

  ghost predicate SureStep(env: Env, m: Mach, step: Step)
    requires MachOk(env, m)
  {
    match step
    case Given(f) => AnyProcess.FeedSure(env, m, f)
    case Entered(src, dst) => AnyProcess.EnterSure(env, m, src, dst)
    case Resumed(addr) => Drained(m.ctxs[m.idx]) && StartSure(env, m, addr)
    case Restarted(addr) => ResetOk(env, m); StartSure(env, Reset(m), addr)
  }

  ghost predicate StartSure(env: Env, m: Mach, addr: nat)
    requires MachOk(env, m)
  {
    && StartMach(env, m, addr).Some?
    && forall pgd: nat :: StartMach(env, m.(pgd := pgd), addr) == Some(StartMach(env, m, addr).value.(pgd := pgd))
  }

  ghost predicate SureSteps(env: Env, m: Mach, steps: seq<Step>)
    requires MachOk(env, m)
    decreases |steps|
  {
    steps == [] ||
    (SureStep(env, m, steps[0]) && TakeStep(env, m, steps[0]).Some?
      && SureSteps(env, TakeStep(env, m, steps[0]).value, steps[1..]))
  }

  // ---- Running on without a packet ----

  /** Acts that need no packet, up to an instruction that waits for one. */
  predicate Coasts(env: Env, en: bool, p: Point, acts: seq<Act>)
    requires p.at < |env.insts| && |p.stack| < CALL_STACK_LEN
  {
    && PerformAll(env, en, p, acts).Some? && Unreported(acts)
    && Starved(env, PerformAll(env, en, p, acts).value.at, [], [])
  }

  ghost predicate Settles(env: Env, en: bool, p: Point)
    requires p.at < |env.insts| && |p.stack| < CALL_STACK_LEN
  {
    exists acts :: Coasts(env, en, p, acts)
  }

  ghost function CoastActs(env: Env, en: bool, p: Point): (acts: seq<Act>)
    requires p.at < |env.insts| && |p.stack| < CALL_STACK_LEN && Settles(env, en, p)
    ensures Coasts(env, en, p, acts)
  {
    var acts :| Coasts(env, en, p, acts);
    acts
  }

  /** The instructions from p on up to the one that waits, without it: what the replay executes ahead. */
  ghost function Coast(env: Env, en: bool, p: Point): seq<nat>
    requires p.at < |env.insts| && |p.stack| < CALL_STACK_LEN && Settles(env, en, p)
  {
    Path(env, en, p, CoastActs(env, en, p))
  }

  ghost function CoastEnd(env: Env, en: bool, p: Point): (q: Point)
    requires p.at < |env.insts| && |p.stack| < CALL_STACK_LEN && Settles(env, en, p)
    ensures q.at < |env.insts| && |q.stack| < CALL_STACK_LEN
  {
    PerformAll(env, en, p, CoastActs(env, en, p)).value
  }

  /** The replay runs ahead exactly there, under any page directory. */
  lemma CoastIs(env: Env, pgd: nat, en: bool, p: Point)
    requires Sorted(env.insts) && p.at < |env.insts| && |p.stack| < CALL_STACK_LEN && Settles(env, en, p)
    ensures RunView(env, pgd, en, Here(p, [], [])) == Paused(Here(CoastEnd(env, en, p), [], []), Coast(env, en, p))
    ensures Halts(env, pgd, en, p)
  {
    hide Decide, RunView, PerformAll, Path;
    var acts := CoastActs(env, en, p);
    UnreportedSendsNothing(en, acts);
    var nothing: seq<Bit>, nowhere: seq<nat> := [], [];
    assert BitsOfActs(en, acts) + nothing == [] && TipsOfActs(acts) + nowhere == [];
    Follows(env, pgd, en, p, acts, [], []);
    StarvedHalts(env, pgd, en, CoastEnd(env, en, p));
    assert Coast(env, en, p) + [] == Coast(env, en, p);
  }

  /** There is only one way on. */
  lemma CoastUnique(env: Env, en: bool, p: Point, acts: seq<Act>)
    requires Sorted(env.insts) && p.at < |env.insts| && |p.stack| < CALL_STACK_LEN && Coasts(env, en, p, acts)
    ensures Settles(env, en, p) && Coast(env, en, p) == Path(env, en, p, acts)
    ensures CoastEnd(env, en, p) == PerformAll(env, en, p, acts).value
  {
    hide Decide, RunView, PerformAll, Path;
    CoastIs(env, 0, en, p);
    UnreportedSendsNothing(en, acts);
    var nothing: seq<Bit>, nowhere: seq<nat> := [], [];
    assert BitsOfActs(en, acts) + nothing == [] && TipsOfActs(acts) + nowhere == [];
    Follows(env, 0, en, p, acts, [], []);
    StarvedHalts(env, 0, en, PerformAll(env, en, p, acts).value);
    assert Path(env, en, p, acts) + [] == Path(env, en, p, acts);
  }

  /** Nothing is executed ahead exactly at an instruction that waits. */
  lemma CoastsNowhere(env: Env, en: bool, p: Point)
    requires Sorted(env.insts) && p.at < |env.insts| && |p.stack| < CALL_STACK_LEN && Settles(env, en, p)
    ensures Coast(env, en, p) == [] <==> Starved(env, p.at, [], [])
    ensures Starved(env, p.at, [], []) ==> CoastEnd(env, en, p) == p
  {
    CoastIs(env, 0, en, p);
    if Starved(env, p.at, [], []) {
      StarvedHalts(env, 0, en, p);
    }
    hide RunView;
  }

  lemma StarvedSettles(env: Env, en: bool, p: Point)
    requires p.at < |env.insts| && |p.stack| < CALL_STACK_LEN && Starved(env, p.at, [], [])
    ensures Settles(env, en, p)
  {
    assert Coasts(env, en, p, []);
  }

  /** Where some acts lead to a point that settles, they began at one that does. */
  lemma {:induction false} SettlesBefore(env: Env, en: bool, p: Point, acts: seq<Act>)
    requires p.at < |env.insts| && |p.stack| < CALL_STACK_LEN && PerformAll(env, en, p, acts).Some?
    requires Settles(env, en, PerformAll(env, en, p, acts).value)
    ensures Settles(env, en, p)
    decreases |acts|
  {
    hide Stacked;
    if acts != [] {
      if acts[0] == Fall {
        var q := Perform(env, en, p, Fall).value;
        SettlesBefore(env, en, q, acts[1..]);
        var more := CoastActs(env, en, q);
        var all := [Fall] + more;
        assert all[0] == Fall && all[1..] == more;
        assert Coasts(env, en, p, all);
      } else {
        StarvedSettles(env, en, p);
      }
    }
  }

  // ---- The processor's side ----

  /** Where a level is: at a point; nowhere the replay could know, after everything was forgotten; or at a
      context from before the execution, which it does not touch. */
  datatype Spot = On(p: Point) | Lost | Kept(c: Ctx)

  /** A level of nested interrupts, with the address its handler is to return to. */
  datatype Level = Level(src: nat, place: Spot)

  /** An instruction, with its depth, that was executed, or that was only run ahead over before its level
      was given up. */
  datatype Mark = Mark(depth: nat, inst: nat, done: bool)

  /** The open levels, the outermost first, and what happened so far. */
  datatype World = World(levels: seq<Level>, log: seq<Mark>)

  function Marks(depth: nat, path: seq<nat>, done: bool): seq<Mark> {
    seq(|path|, k requires 0 <= k < |path| => Mark(depth, path[k], done))
  }

  function LoggedAt(log: seq<Mark>, d: nat): seq<nat> {
    if log == [] then [] else (if log[0].depth == d then [log[0].inst] else []) + LoggedAt(log[1..], d)
  }

  function ExecutedAt(log: seq<Mark>, d: nat): seq<nat> {
    if log == [] then []
    else (if log[0].depth == d && log[0].done then [log[0].inst] else []) + ExecutedAt(log[1..], d)
  }

  /** What a processor does next: acts reported together by one packet; a packet where the position is
      lost; an interrupt after some acts that need no packet; an interrupt return; tracing stopped and
      started again; packets lost, and the address where the tracer goes on. */
  datatype Deed =
    | Reported(acts: seq<Act>, f: Feed)
    | Missed(f: Feed)
    | Struck(acts: seq<Act>, src: nat, dst: nat)
    | Left(acts: seq<Act>, target: nat)
    | Stopped(acts: seq<Act>, addr: nat)
    | Overflowed(acts: seq<Act>, addr: nat)

  predicate PlaceOk(env: Env, place: Spot) {
    place.On? ==> place.p.at < |env.insts| && |place.p.stack| < CALL_STACK_LEN
  }

  predicate WorldOk(env: Env, w: World) {
    && 0 < |w.levels| <= MAX_NO_CTXS && w.levels[0].src == 0
    && forall k | 0 <= k < |w.levels| :: PlaceOk(env, w.levels[k].place)
  }

  function Top(w: World): Level
    requires |w.levels| > 0
  {
    w.levels[|w.levels| - 1]
  }

  function SetTop(w: World, place: Spot): World
    requires |w.levels| > 0
  {
    w.(levels := w.levels[|w.levels| - 1 := Top(w).(place := place)])
  }

  function Noted(w: World, path: seq<nat>, done: bool): World
    requires |w.levels| > 0
  {
    w.(log := w.log + Marks(|w.levels| - 1, path, done))
  }

  /** The active level executes some acts. */
  function Walk(env: Env, en: bool, w: World, acts: seq<Act>): (r: Option<World>)
    requires WorldOk(env, w)
    ensures r.Some? ==> WorldOk(env, r.value)
  {
    match Top(w).place
    case On(p) =>
      (match PerformAll(env, en, p, acts)
       case None => None
       case Some(q) => Some(Noted(SetTop(w, On(q)), Path(env, en, p, acts), true)))
    case _ => None
  }

  /** Acts that need no packet; of a lost level nothing is known. */
  function Idle(env: Env, en: bool, w: World, acts: seq<Act>): (r: Option<World>)
    requires WorldOk(env, w)
    ensures r.Some? ==> WorldOk(env, r.value)
  {
    if !Unreported(acts) then None
    else if Top(w).place.Lost? && acts == [] then Some(w)
    else Walk(env, en, w, acts)
  }

  ghost predicate PlaceSettles(env: Env, en: bool, place: Spot)
    requires PlaceOk(env, place)
  {
    place.On? ==> Settles(env, en, place.p)
  }

  ghost predicate AllSettle(env: Env, en: bool, levels: seq<Level>)
    requires forall k | 0 <= k < |levels| :: PlaceOk(env, levels[k].place)
  {
    forall k | 0 <= k < |levels| :: PlaceSettles(env, en, levels[k].place)
  }

  /** What the replay has run ahead over at a place. */
  ghost function Pending(env: Env, en: bool, place: Spot): seq<nat>
    requires PlaceOk(env, place) && PlaceSettles(env, en, place)
  {
    if place.On? then Coast(env, en, place.p) else []
  }

  /** What had been run ahead over in the open levels, when they are given up. */
  ghost function GivenUp(env: Env, en: bool, levels: seq<Level>): seq<Mark>
    requires (forall k | 0 <= k < |levels| :: PlaceOk(env, levels[k].place)) && AllSettle(env, en, levels)
  {
    if levels == [] then []
    else
      var top := |levels| - 1;
      GivenUp(env, en, levels[..top]) + Marks(top, Pending(env, en, levels[top].place), false)
  }

  /** An interrupt return was executed: to where the handler was called from, in the outermost level to
      anywhere; any other return makes the replay forget everything. */
  ghost function Leave(env: Env, en: bool, w: World, target: nat): (r: Option<World>)
    requires WorldOk(env, w) && StartIndex(env, target).Some?
    ensures r.Some? ==> WorldOk(env, r.value)
  {
    var top := |w.levels| - 1;
    if top == 0 then Some(SetTop(w, On(Point(StartIndex(env, target).value, []))))
    else if Top(w).src == 0 then None
    else if Top(w).src == target then
      if w.levels[top - 1].place.Kept? then None else Some(w.(levels := w.levels[..top]))
    else if AllSettle(env, en, w.levels[..top]) then
      Some(World([Level(0, Lost)], w.log + GivenUp(env, en, w.levels[..top])))
    else None
  }

  ghost function DoDeed(env: Env, en: bool, w: World, deed: Deed): (r: Option<World>)
    requires WorldOk(env, w)
    ensures r.Some? ==> WorldOk(env, r.value)
  {
    match deed
    case Reported(acts, f) => if Carries(f, acts) then Walk(env, en, w, acts) else None
    case Missed(f) => if Top(w).place.Lost? then Some(w) else None
    case _ =>
      match Idle(env, en, w, deed.acts)
      case None => None
      case Some(v) => DoNext(env, en, v, deed)
  }

  /** The rest of a deed after its acts. */
  ghost function DoNext(env: Env, en: bool, w: World, deed: Deed): (r: Option<World>)
    requires WorldOk(env, w) && !deed.Reported? && !deed.Missed?
    ensures r.Some? ==> WorldOk(env, r.value)
  {
    var place := Top(w).place;
    match deed
    case Struck(_, src, dst) =>
      if |w.levels| < MAX_NO_CTXS && src != 0 && EntryPoint(env, dst).Some?
         && (place.On? ==> src == env.insts[place.p.at].addr)
      then Some(w.(levels := w.levels + [Level(src, On(EntryPoint(env, dst).value))]))
      else None
    case Left(_, target) =>
      if place.On? && env.insts[place.p.at].kind.Iret? && place.p.stack == [] && StartIndex(env, target).Some?
      then Leave(env, en, Noted(w, [place.p.at], true), target)
      else None
    case Stopped(_, addr) =>
      if StartIndex(env, addr).Some? && PlaceSettles(env, en, place) then
        var stack := if place.On? then CoastEnd(env, en, place.p).stack else [];
        Some(SetTop(Noted(w, Pending(env, en, place), false), On(Point(StartIndex(env, addr).value, stack))))
      else None
    case Overflowed(_, addr) =>
      if StartIndex(env, addr).Some? && AllSettle(env, en, w.levels) then
        Some(World([Level(0, On(Point(StartIndex(env, addr).value, [])))], w.log + GivenUp(env, en, w.levels)))
      else None
  }

  ghost function DoDeeds(env: Env, en: bool, w: World, deeds: seq<Deed>): (r: Option<World>)
    requires WorldOk(env, w)
    ensures r.Some? ==> WorldOk(env, r.value)
    decreases |deeds|
  {
    if deeds == [] then Some(w)
    else match DoDeed(env, en, w, deeds[0])
      case None => None
      case Some(next) => DoDeeds(env, en, next, deeds[1..])
  }

  /** What the tracer reports. */
  function StepOf(deed: Deed): Step {
    match deed
    case Reported(_, f) => Given(f)
    case Missed(f) => Given(f)
    case Struck(_, src, dst) => Entered(src, dst)
    case Left(_, target) => Given(Target(target))
    case Stopped(_, addr) => Resumed(addr)
    case Overflowed(_, addr) => Restarted(addr)
  }

  function StepsOf(deeds: seq<Deed>): seq<Step> {
    seq(|deeds|, k requires 0 <= k < |deeds| => StepOf(deeds[k]))
  }

  // ---- The replay shows the world ----

  ghost predicate Stands(env: Env, pgd: nat, en: bool, level: Level, c: Ctx)
    requires CtxOk(env, c)
  {
    && PlaceOk(env, level.place) && PlaceSettles(env, en, level.place) && c.src == level.src
    && match level.place
       case On(p) => Ahead(env, pgd, en, p, c, Coast(env, en, p))
       case Lost => c == Blank(level.src)
       case Kept(k) => c == k
  }

  /** What the replay has logged at a depth since the start. */
  ghost function Shown(env: Env, en: bool, w: World, d: nat): seq<nat>
    requires WorldOk(env, w) && AllSettle(env, en, w.levels)
  {
    LoggedAt(w.log, d) + if d < |w.levels| then Pending(env, en, w.levels[d].place) else []
  }

  ghost predicate ShowsLog(env: Env, m: Mach, w: World, from: seq<Visit>)
    requires WorldOk(env, w) && AllSettle(env, m.en, w.levels)
  {
    forall d: nat :: AtDepth(m.log, d) == AtDepth(from, d) + Shown(env, m.en, w, d)
  }

  /** Every context stands where its level is, run ahead as far as no packet is needed; and at every depth
      the log, from what it was at the start, is what was executed there and what was run ahead over. */
  ghost predicate Shows(env: Env, m: Mach, w: World, from: seq<Visit>)
    requires MachOk(env, m) && WorldOk(env, w)
  {
    && |w.levels| == m.idx + 1 && AllSettle(env, m.en, w.levels)
    && (forall k | 0 <= k <= m.idx :: Stands(env, m.pgd, m.en, w.levels[k], m.ctxs[k]))
    && ShowsLog(env, m, w, from)
  }

  // ---- Logs ----

  lemma {:induction false} LoggedConcat(a: seq<Mark>, b: seq<Mark>, d: nat)
    ensures LoggedAt(a + b, d) == LoggedAt(a, d) + LoggedAt(b, d)
  {
    if a == [] {
      assert a + b == b;
    } else {
      var first := if a[0].depth == d then [a[0].inst] else [];
      assert (a + b)[0] == a[0] && (a + b)[1..] == a[1..] + b;
      LoggedConcat(a[1..], b, d);
      assert first + (LoggedAt(a[1..], d) + LoggedAt(b, d)) == first + LoggedAt(a[1..], d) + LoggedAt(b, d);
    }
  }

  lemma {:induction false} ExecutedConcat(a: seq<Mark>, b: seq<Mark>, d: nat)
    ensures ExecutedAt(a + b, d) == ExecutedAt(a, d) + ExecutedAt(b, d)
  {
    if a == [] {
      assert a + b == b;
    } else {
      var first := if a[0].depth == d && a[0].done then [a[0].inst] else [];
      assert (a + b)[0] == a[0] && (a + b)[1..] == a[1..] + b;
      ExecutedConcat(a[1..], b, d);
      assert first + (ExecutedAt(a[1..], d) + ExecutedAt(b, d)) == first + ExecutedAt(a[1..], d) + ExecutedAt(b, d);
    }
  }

  lemma {:induction false} LoggedMarks(depth: nat, path: seq<nat>, done: bool, d: nat)
    ensures LoggedAt(Marks(depth, path, done), d) == if d == depth then path else []
    ensures ExecutedAt(Marks(depth, path, done), d) == if d == depth && done then path else []
  {
    if path != [] {
      assert Marks(depth, path, done)[1..] == Marks(depth, path[1..], done);
      LoggedMarks(depth, path[1..], done, d);
    }
  }

  lemma LoggedMore(log: seq<Mark>, depth: nat, path: seq<nat>, done: bool, d: nat)
    ensures LoggedAt(log + Marks(depth, path, done), d) == LoggedAt(log, d) + if d == depth then path else []
  {
    LoggedConcat(log, Marks(depth, path, done), d);
    LoggedMarks(depth, path, done, d);
  }

  /** Giving up the levels logs what had been run ahead over in each. */
  lemma {:induction false} LoggedGivenUp(env: Env, en: bool, levels: seq<Level>, d: nat)
    requires (forall k | 0 <= k < |levels| :: PlaceOk(env, levels[k].place)) && AllSettle(env, en, levels)
    ensures LoggedAt(GivenUp(env, en, levels), d) == if d < |levels| then Pending(env, en, levels[d].place) else []
    ensures ExecutedAt(GivenUp(env, en, levels), d) == []
    decreases |levels|
  {
    hide Pending, PlaceSettles;
    if levels != [] {
      var top := |levels| - 1;
      LoggedGivenUp(env, en, levels[..top], d);
      LoggedConcat(GivenUp(env, en, levels[..top]), Marks(top, Pending(env, en, levels[top].place), false), d);
      ExecutedConcat(GivenUp(env, en, levels[..top]), Marks(top, Pending(env, en, levels[top].place), false), d);
      LoggedMarks(top, Pending(env, en, levels[top].place), false, d);
    }
  }

  /** Nothing was run ahead over and given up, and nothing is pending, exactly when what was logged is what
      was executed. */
  lemma {:induction false} LoggedIsExecuted(log: seq<Mark>, d: nat)
    ensures |ExecutedAt(log, d)| <= |LoggedAt(log, d)|
    ensures LoggedAt(log, d) == ExecutedAt(log, d) <==> forall k | 0 <= k < |log| && log[k].depth == d :: log[k].done
    ensures LoggedAt(log, d) == ExecutedAt(log, d) <==> |LoggedAt(log, d)| == |ExecutedAt(log, d)|
  {
    if log != [] {
      LoggedIsExecuted(log[1..], d);
      assert forall k | 0 <= k < |log| - 1 :: log[1..][k] == log[k + 1];
      if forall k | 0 <= k < |log[1..]| && log[1..][k].depth == d :: log[1..][k].done {
        assert forall k | 1 <= k < |log| && log[k].depth == d :: log[1..][k - 1].done;
      }
    }
  }

  // ---- One deed ----

  lemma TopStands(env: Env, m: Mach, w: World, from: seq<Visit>)
    requires MachOk(env, m) && WorldOk(env, w) && Shows(env, m, w, from)
    ensures CtxOk(env, m.ctxs[m.idx]) && Stands(env, m.pgd, m.en, Top(w), m.ctxs[m.idx])
  {
  }

  /** Only the active level changes. */
  lemma ShowsTop(env: Env, m: Mach, w: World, from: seq<Visit>, c: Ctx, path: seq<nat>, v: World)
    requires MachOk(env, m) && WorldOk(env, w) && Shows(env, m, w, from)
    requires CtxOk(env, c) && MachOk(env, Put(m, c, path))
    requires WorldOk(env, v) && v.levels == w.levels[..m.idx] + [Top(v)] && |v.levels| == |w.levels|
    requires Stands(env, m.pgd, m.en, Top(v), c)
    requires forall d: nat :: LoggedAt(v.log, d) == LoggedAt(w.log, d) || d == m.idx
    requires LoggedAt(w.log, m.idx) + Pending(env, m.en, Top(w).place) + path
             == LoggedAt(v.log, m.idx) + Pending(env, m.en, Top(v).place)
    ensures Shows(env, Put(m, c, path), v, from)
  {
    hide CtxOk, Ahead, Pending, PlaceSettles;
    var r := Put(m, c, path);
    assert forall k | 0 <= k < m.idx :: v.levels[k] == w.levels[k] && r.ctxs[k] == m.ctxs[k];
    forall k | 0 <= k <= r.idx ensures Stands(env, r.pgd, r.en, v.levels[k], r.ctxs[k]) {
      if k < m.idx {
        assert Stands(env, m.pgd, m.en, w.levels[k], m.ctxs[k]);
      }
    }
    forall d: nat ensures AtDepth(r.log, d) == AtDepth(from, d) + Shown(env, m.en, v, d) {
      PutGrows(env, m, c, path, d);
      assert AtDepth(m.log, d) == AtDepth(from, d) + Shown(env, m.en, w, d);
      if d == m.idx {
        assert AtDepth(from, d) + Shown(env, m.en, w, d) + path == AtDepth(from, d) + (Shown(env, m.en, w, d) + path);
      }
    }
  }

  lemma WalkLogs(env: Env, en: bool, w: World, acts: seq<Act>)
    requires WorldOk(env, w) && Walk(env, en, w, acts).Some?
    ensures Top(w).place.On?
    ensures var p, v, top := Top(w).place.p, Walk(env, en, w, acts).value, |w.levels| - 1;
            && PerformAll(env, en, p, acts).Some?
            && |v.levels| == |w.levels| && v.levels == w.levels[..top] + [Top(v)]
            && Top(v) == Level(Top(w).src, On(PerformAll(env, en, p, acts).value))
            && forall d: nat ::
                 LoggedAt(v.log, d) == LoggedAt(w.log, d) + if d == top then Path(env, en, p, acts) else []
  {
    var p, top := Top(w).place.p, |w.levels| - 1;
    hide PerformAll, Path, LoggedAt;
    forall d: nat {
      LoggedMore(w.log, top, Path(env, en, p, acts), true, d);
    }
  }

  /** The active context has executed the acts and has run ahead of where they lead. */
  lemma WalkShows(env: Env, m: Mach, w: World, from: seq<Visit>, acts: seq<Act>, c: Ctx, path: seq<nat>)
    requires MachOk(env, m) && WorldOk(env, w) && Shows(env, m, w, from) && Walk(env, m.en, w, acts).Some?
    requires CtxOk(env, c) && c.src == m.ctxs[m.idx].src && Top(w).place.On?
    requires var p := Top(w).place.p;
             var q := PerformAll(env, m.en, p, acts).value;
             && Settles(env, m.en, p) && Settles(env, m.en, q) && Ahead(env, m.pgd, m.en, q, c, Coast(env, m.en, q))
             && Coast(env, m.en, p) + path == Path(env, m.en, p, acts) + Coast(env, m.en, q)
    ensures MachOk(env, Put(m, c, path)) && Shows(env, Put(m, c, path), Walk(env, m.en, w, acts).value, from)
  {
    var p, v := Top(w).place.p, Walk(env, m.en, w, acts).value;
    var q := PerformAll(env, m.en, p, acts).value;
    TopStands(env, m, w, from);
    WalkLogs(env, m.en, w, acts);
    PutOk(env, m, c, path);
    hide MachOk, CtxOk, Ahead, Settles, Coast, PerformAll, Path, Walk, LoggedAt, Shows, WorldOk;
    Rotate(LoggedAt(w.log, m.idx), Coast(env, m.en, p), path, Path(env, m.en, p, acts), Coast(env, m.en, q));
    ShowsTop(env, m, w, from, c, path, v);
  }

  lemma Rotate(log: seq<nat>, ahead: seq<nat>, path: seq<nat>, acts: seq<nat>, next: seq<nat>)
    requires ahead + path == acts + next
    ensures log + ahead + path == log + acts + next
  {
    assert log + ahead + path == log + (ahead + path);
  }

  /** Executing what was run ahead over already changes nothing. */
  lemma IdleShows(env: Env, m: Mach, w: World, from: seq<Visit>, acts: seq<Act>)
    requires Sorted(env.insts) && MachOk(env, m) && WorldOk(env, w) && Shows(env, m, w, from)
    requires Idle(env, m.en, w, acts).Some? && PlaceSettles(env, m.en, Top(Idle(env, m.en, w, acts).value).place)
    ensures Shows(env, m, Idle(env, m.en, w, acts).value, from)
  {
    TopStands(env, m, w, from);
    if Top(w).place.On? {
      WalkLogs(env, m.en, w, acts);
      var p, c := Top(w).place.p, m.ctxs[m.idx];
      var q := PerformAll(env, m.en, p, acts).value;
      CoastIs(env, m.pgd, m.en, q);
      hide Decide, Run, RunView, PerformAll, Path, CtxOk, Coast, Settles, Shows, Walk, MachOk, Starved, Settled, Halts;
      UnreportedFollows(env, m.pgd, m.en, p, acts, c, Coast(env, m.en, p));
      assert Coast(env, m.en, p) + [] == Coast(env, m.en, p);
      PutNothing(m);
      WalkShows(env, m, w, from, acts, c, []);
    }
  }

  lemma PutNothing(m: Mach)
    requires m.idx < |m.ctxs|
    ensures Put(m, m.ctxs[m.idx], []) == m
  {
    assert m.log + Visits(m.idx, []) == m.log;
  }

  /** A packet that reports some acts. */
  lemma ReportedShows(env: Env, m: Mach, w: World, from: seq<Visit>, acts: seq<Act>, f: Feed)
    requires Sorted(env.insts) && MachOk(env, m) && WorldOk(env, w) && Shows(env, m, w, from)
    requires Carries(f, acts) && Walk(env, m.en, w, acts).Some?
    requires PlaceSettles(env, m.en, Top(Walk(env, m.en, w, acts).value).place)
    ensures AnyProcess.FeedSure(env, m, f)
    ensures Shows(env, FeedMach(env, m, f).value, Walk(env, m.en, w, acts).value, from)
  {
    TopStands(env, m, w, from);
    WalkLogs(env, m.en, w, acts);
    var p, c := Top(w).place.p, m.ctxs[m.idx];
    var q := PerformAll(env, m.en, p, acts).value;
    CoastIs(env, m.pgd, m.en, q);
    hide Decide, Run, RunView, PerformAll, Path, CtxOk, Coast, Settles, Shows, Walk, MachOk, Starved, Halts, FeedCtx,
         FeedMach;
    PacketFollows(env, m.pgd, m.en, p, acts, f, c, Coast(env, m.en, p));
    var o := FeedCtx(env, m.pgd, m.en, c, f);
    FeedPauses(env, m, f);
    AnyProcess.PauseSure(env, m, f);
    WalkShows(env, m, w, from, acts, o.state, o.path);
  }

  /** A packet that reaches a context without a position. */
  lemma MissedShows(env: Env, m: Mach, w: World, from: seq<Visit>, f: Feed)
    requires MachOk(env, m) && WorldOk(env, w) && Shows(env, m, w, from) && Top(w).place.Lost?
    ensures AnyProcess.FeedSure(env, m, f) && FeedMach(env, m, f) == Some(m)
  {
    TopStands(env, m, w, from);
    forall pgd: nat ensures MachOk(env, m.(pgd := pgd)) && FeedMach(env, m.(pgd := pgd), f) == Some(m.(pgd := pgd)) {
      GlobalsOk(env, m, pgd, m.en);
    }
  }

  /** Taking up a position is the same under any page directory. */
  lemma StartAnyProcess(env: Env, m: Mach, addr: nat, i: nat, pgd: nat)
    requires MachOk(env, m) && StartsAt(env, addr, i) && Drained(m.ctxs[m.idx])
    requires Halts(env, m.pgd, m.en, Point(i, m.ctxs[m.idx].stack))
    ensures StartMach(env, m, addr).Some?
    ensures MachOk(env, m.(pgd := pgd))
    ensures StartMach(env, m.(pgd := pgd), addr) == Some(StartMach(env, m, addr).value.(pgd := pgd))
  {
    hide Decide, Run, RunView, Find;
    var p := Point(i, m.ctxs[m.idx].stack);
    var c := m.ctxs[m.idx].(last := i);
    assert ViewOf(c) == Here(p, [], []);
    RunIsAhead(env, m.pgd, m.en, c, p, [], []);
    AnyProcess.RunAnyProcess(env, m.pgd, pgd, m.en, c);
    GlobalsOk(env, m, pgd, m.en);
  }

  // ---- Interrupt returns of the outermost level ----

  /** The target of such a return makes the replay execute it and go on at the target. */
  lemma OuterReturn(env: Env, m: Mach, q: Point, target: nat)
    requires Sorted(env.insts) && MachOk(env, m) && m.idx == 0
    requires q.at < |env.insts| && env.insts[q.at].kind.Iret? && q.stack == []
    requires ViewOf(m.ctxs[0]) == Here(q, [], []) && Drained(m.ctxs[0]) && StartIndex(env, target).Some?
    ensures MachOk(env, Put(m, m.ctxs[0], [q.at]))
    ensures FeedMach(env, m, Target(target)) == StartMach(env, Put(m, m.ctxs[0], [q.at]), target)
  {
    hide Decide, Run, Find;
    var c, j := m.ctxs[0], StartIndex(env, target).value;
    PutOk(env, m, c, [q.at]);
    ReturnLeaves(env, m.pgd, m.en, q, c, target);
    var qc := Queue(env, m.en, c, Target(target)).value;
    var left := c.(last := j);
    assert m.ctxs[0 := qc][0 := left] == m.ctxs[0 := c][0 := left];
  }

  // ---- Contexts taken up and given up ----

  /** What was run ahead over in the active level counts as given up; the context stays. */
  ghost function Forgotten(env: Env, en: bool, w: World, c: Ctx): (r: World)
    requires WorldOk(env, w) && PlaceSettles(env, en, Top(w).place)
    ensures WorldOk(env, r)
  {
    SetTop(Noted(w, Pending(env, en, Top(w).place), false), Kept(c))
  }

  lemma ForgetShows(env: Env, m: Mach, w: World, from: seq<Visit>)
    requires MachOk(env, m) && WorldOk(env, w) && Shows(env, m, w, from)
    ensures Shows(env, m, Forgotten(env, m.en, w, m.ctxs[m.idx]), from)
  {
    TopStands(env, m, w, from);
    var c, v := m.ctxs[m.idx], Forgotten(env, m.en, w, m.ctxs[m.idx]);
    var ahead := Pending(env, m.en, Top(w).place);
    assert Top(v) == Level(Top(w).src, Kept(c)) && v.levels == w.levels[..m.idx] + [Top(v)];
    assert Stands(env, m.pgd, m.en, Top(v), c);
    PutNothing(m);
    hide CtxOk, Stands, Pending, PlaceSettles, LoggedAt;
    forall d: nat ensures LoggedAt(v.log, d) == LoggedAt(w.log, d) + if d == m.idx then ahead else [] {
      LoggedMore(w.log, m.idx, ahead, false, d);
    }
    assert Pending(env, m.en, Top(v).place) == [] by {
      NothingPending(env, m.en, Top(v).place);
    }
    assert LoggedAt(w.log, m.idx) + ahead + [] == LoggedAt(w.log, m.idx) + ahead;
    hide Shows, Forgotten;
    ShowsTop(env, m, w, from, c, [], v);
  }

  lemma NothingPending(env: Env, en: bool, place: Spot)
    requires !place.On?
    ensures PlaceOk(env, place) && PlaceSettles(env, en, place) && Pending(env, en, place) == []
  {
  }

  /** The replay starts at an address. */
  lemma StartShows(env: Env, m: Mach, w: World, from: seq<Visit>, addr: nat)
    requires Sorted(env.insts) && MachOk(env, m) && WorldOk(env, w) && Shows(env, m, w, from)
    requires Top(w).place == Kept(m.ctxs[m.idx]) && Drained(m.ctxs[m.idx]) && StartIndex(env, addr).Some?
    requires |m.ctxs[m.idx].stack| < CALL_STACK_LEN
    requires Settles(env, m.en, Point(StartIndex(env, addr).value, m.ctxs[m.idx].stack))
    ensures StartSure(env, m, addr)
    ensures var v := SetTop(w, On(Point(StartIndex(env, addr).value, m.ctxs[m.idx].stack)));
            WorldOk(env, v) && Shows(env, StartMach(env, m, addr).value, v, from)
  {
    var p := Point(StartIndex(env, addr).value, m.ctxs[m.idx].stack);
    var v := SetTop(w, On(p));
    TopStands(env, m, w, from);
    var start := StartsAhead(env, m, addr, p.at);
    PutOk(env, m, start, Coast(env, m.en, p));
    NothingPending(env, m.en, Top(w).place);
    assert Top(v) == Level(Top(w).src, On(p)) && v.levels == w.levels[..m.idx] + [Top(v)];
    hide StartMach, Shows, Ahead, Settled, Coast, Settles, StartIndex, MachOk, CtxOk, StartSure, LoggedAt;
    assert LoggedAt(w.log, m.idx) + [] == LoggedAt(w.log, m.idx);
    ShowsTop(env, m, w, from, start, Coast(env, m.en, p), v);
  }

  lemma StartsAhead(env: Env, m: Mach, addr: nat, i: nat) returns (start: Ctx)
    requires Sorted(env.insts) && MachOk(env, m) && StartsAt(env, addr, i) && Drained(m.ctxs[m.idx])
    requires Settles(env, m.en, Point(i, m.ctxs[m.idx].stack))
    ensures var p := Point(i, m.ctxs[m.idx].stack);
            && CtxOk(env, start) && start.src == m.ctxs[m.idx].src
            && Ahead(env, m.pgd, m.en, p, start, Coast(env, m.en, p))
            && StartMach(env, m, addr) == Some(Put(m, start, Coast(env, m.en, p)))
    ensures StartSure(env, m, addr)
  {
    var ahead: seq<nat>;
    CoastIs(env, m.pgd, m.en, Point(i, m.ctxs[m.idx].stack));
    hide Decide, Run, RunView, Find, StartMach, Coast, Settles, MachOk;
    start, ahead := StartFollows(env, m, addr, i);
    StartsSure(env, m, addr, i);
  }

  lemma StartsSure(env: Env, m: Mach, addr: nat, i: nat)
    requires MachOk(env, m) && StartsAt(env, addr, i) && Drained(m.ctxs[m.idx])
    requires Halts(env, m.pgd, m.en, Point(i, m.ctxs[m.idx].stack))
    ensures StartSure(env, m, addr)
  {
    hide StartMach, Halts, Find;
    StartAnyProcess(env, m, addr, i, m.pgd);
    forall pgd: nat ensures StartMach(env, m.(pgd := pgd), addr) == Some(StartMach(env, m, addr).value.(pgd := pgd)) {
      StartAnyProcess(env, m, addr, i, pgd);
    }
  }

  /** Everything is forgotten. */
  lemma ResetShows(env: Env, m: Mach, w: World, from: seq<Visit>)
    requires MachOk(env, m) && WorldOk(env, w) && Shows(env, m, w, from)
    ensures MachOk(env, Reset(m))
    ensures var v := World([Level(0, Lost)], w.log + GivenUp(env, m.en, w.levels));
            WorldOk(env, v) && Shows(env, Reset(m), v, from)
  {
    ResetOk(env, m);
    var v := World([Level(0, Lost)], w.log + GivenUp(env, m.en, w.levels));
    assert Reset(m).ctxs[0] == Blank(0);
    NothingPending(env, m.en, Lost);
    hide CtxOk, Pending, GivenUp, LoggedAt, Shown;
    forall d: nat ensures AtDepth(m.log, d) == AtDepth(from, d) + Shown(env, m.en, v, d) {
      GivenUpShown(env, m.en, w, d);
    }
  }

  lemma GivenUpShown(env: Env, en: bool, w: World, d: nat)
    requires WorldOk(env, w) && AllSettle(env, en, w.levels)
    ensures var v := World([Level(0, Lost)], w.log + GivenUp(env, en, w.levels));
            WorldOk(env, v) && AllSettle(env, en, v.levels) && Shown(env, en, v, d) == Shown(env, en, w, d)
  {
    hide Pending, GivenUp, LoggedAt;
    LoggedGivenUp(env, en, w.levels, d);
    LoggedConcat(w.log, GivenUp(env, en, w.levels), d);
    NothingPending(env, en, Lost);
  }

  /** The step takes the replay to the world, under any page directory. */
  ghost predicate StepShows(env: Env, m: Mach, step: Step, w: World, from: seq<Visit>)
    requires MachOk(env, m) && WorldOk(env, w)
  {
    && SureStep(env, m, step) && TakeStep(env, m, step).Some?
    && Shows(env, TakeStep(env, m, step).value, w, from)
  }

  lemma GivenShows(env: Env, m: Mach, f: Feed, w: World, from: seq<Visit>)
    requires MachOk(env, m) && WorldOk(env, w) && AnyProcess.FeedSure(env, m, f)
    requires Shows(env, FeedMach(env, m, f).value, w, from)
    ensures StepShows(env, m, Given(f), w, from)
  {
    hide Shows, MachOk, FeedMach;
  }

  lemma EnteredShows(env: Env, m: Mach, src: nat, dst: nat, w: World, from: seq<Visit>)
    requires MachOk(env, m) && WorldOk(env, w) && AnyProcess.EnterSure(env, m, src, dst)
    requires Shows(env, EnterMach(env, m, src, dst).value, w, from)
    ensures StepShows(env, m, Entered(src, dst), w, from)
  {
    hide Shows, MachOk, EnterMach;
  }

  lemma ResumedShows(env: Env, m: Mach, addr: nat, w: World, from: seq<Visit>)
    requires MachOk(env, m) && WorldOk(env, w) && m.idx < |m.ctxs| && Drained(m.ctxs[m.idx]) && StartSure(env, m, addr)
    requires Shows(env, StartMach(env, m, addr).value, w, from)
    ensures StepShows(env, m, Resumed(addr), w, from)
  {
    hide Shows, MachOk, StartMach;
  }

  lemma RestartedShows(env: Env, m: Mach, addr: nat, w: World, from: seq<Visit>)
    requires MachOk(env, m) && m.idx < |m.ctxs| && MachOk(env, Reset(m)) && WorldOk(env, w)
    requires StartSure(env, Reset(m), addr) && Shows(env, StartMach(env, Reset(m), addr).value, w, from)
    ensures StepShows(env, m, Restarted(addr), w, from)
  {
    hide Shows, MachOk, StartMach, Reset;
  }

  // ---- Interrupts and interrupt returns ----

  lemma StruckShows(env: Env, m: Mach, w: World, from: seq<Visit>, src: nat, dst: nat)
    requires Sorted(env.insts) && MachOk(env, m) && WorldOk(env, w) && Shows(env, m, w, from)
    requires DoNext(env, m.en, w, Struck([], src, dst)).Some? && !Top(w).place.Kept?
    requires Settles(env, m.en, EntryPoint(env, dst).value)
    ensures StepShows(env, m, Entered(src, dst), DoNext(env, m.en, w, Struck([], src, dst)).value, from)
  {
    TopStands(env, m, w, from);
    var entry := EntryPoint(env, dst).value;
    var start := EntersAhead(env, m, src, dst);
    hide MachOk, CtxOk, Ahead, Coast, Settles, EnterMach, EntryPoint, Shows;
    PushShows(env, m, w, from, src, entry, start);
    hide StepShows;
    EnteredShows(env, m, src, dst, DoNext(env, m.en, w, Struck([], src, dst)).value, from);
  }

  lemma EntersAhead(env: Env, m: Mach, src: nat, dst: nat) returns (start: Ctx)
    requires Sorted(env.insts) && MachOk(env, m) && m.idx + 1 < MAX_NO_CTXS && Drained(m.ctxs[m.idx])
    requires EntryPoint(env, dst).Some? && Settles(env, m.en, EntryPoint(env, dst).value)
    ensures var entry := EntryPoint(env, dst).value;
            && CtxOk(env, start) && start.src == src && Ahead(env, m.pgd, m.en, entry, start, Coast(env, m.en, entry))
            && EnterMach(env, m, src, dst) == Some(Put(m.(idx := m.idx + 1), start, Coast(env, m.en, entry)))
    ensures AnyProcess.EnterSure(env, m, src, dst)
  {
    var entry := EntryPoint(env, dst).value;
    var c := Ctx(src, entry.at, [], [], []);
    CoastIs(env, m.pgd, m.en, entry);
    assert ViewOf(c) == Here(entry, [], []);
    hide Decide, Run, RunView, Find, EnterMach, Coast, Settles, MachOk;
    RunIsAhead(env, m.pgd, m.en, c, entry, [], []);
    start := Run(env, m.pgd, m.en, c).state;
    var path := Run(env, m.pgd, m.en, c).path;
    assert [] + path == path && [] + Coast(env, m.en, entry) == Coast(env, m.en, entry);
    EnterStarts(env, m, src, dst, entry.at);
    AnyProcess.StartSure(env, m, src, dst, entry.at);
  }

  /** A handler on top. */
  lemma PushShows(env: Env, m: Mach, w: World, from: seq<Visit>, src: nat, entry: Point, start: Ctx)
    requires MachOk(env, m) && WorldOk(env, w) && Shows(env, m, w, from) && m.idx + 1 < MAX_NO_CTXS
    requires entry.at < |env.insts| && |entry.stack| < CALL_STACK_LEN && Settles(env, m.en, entry)
    requires CtxOk(env, start) && start.src == src && Ahead(env, m.pgd, m.en, entry, start, Coast(env, m.en, entry))
    requires MachOk(env, Put(m.(idx := m.idx + 1), start, Coast(env, m.en, entry)))
    ensures var v := w.(levels := w.levels + [Level(src, On(entry))]);
            WorldOk(env, v) && Shows(env, Put(m.(idx := m.idx + 1), start, Coast(env, m.en, entry)), v, from)
  {
    hide CtxOk, Ahead, Settles, Coast, LoggedAt;
    var up, v := m.(idx := m.idx + 1), w.(levels := w.levels + [Level(src, On(entry))]);
    var r := Put(up, start, Coast(env, m.en, entry));
    forall k | 0 <= k <= r.idx ensures Stands(env, r.pgd, r.en, v.levels[k], r.ctxs[k]) {
      if k <= m.idx {
        assert Stands(env, m.pgd, m.en, w.levels[k], m.ctxs[k]);
      }
    }
    forall d: nat ensures AtDepth(r.log, d) == AtDepth(from, d) + Shown(env, m.en, v, d) {
      PutGrows(env, up, start, Coast(env, m.en, entry), d);
      assert AtDepth(m.log, d) == AtDepth(from, d) + Shown(env, m.en, w, d);
    }
  }

  /** The context at an interrupt return is exactly there. */
  lemma StandsAtReturn(env: Env, m: Mach, w: World, from: seq<Visit>)
    requires Sorted(env.insts) && MachOk(env, m) && WorldOk(env, w) && Shows(env, m, w, from)
    requires Top(w).place.On? && env.insts[Top(w).place.p.at].kind.Iret?
    ensures var p, c := Top(w).place.p, m.ctxs[m.idx];
            && CtxOk(env, c) && ViewOf(c) == Here(p, [], []) && Drained(c) && c.src == Top(w).src
            && Pending(env, m.en, Top(w).place) == []
  {
    TopStands(env, m, w, from);
    var p := Top(w).place.p;
    CoastsNowhere(env, m.en, p);
    CoastIs(env, m.pgd, m.en, p);
    hide RunView, Coast, CoastEnd, Settles;
  }

  /** The world once the return was executed, its level not yet left. */
  ghost function Returned(w: World, c: Ctx): World
    requires |w.levels| > 0 && Top(w).place.On?
  {
    SetTop(Noted(w, [Top(w).place.p.at], true), Kept(c))
  }

  lemma ReturnedShows(env: Env, m: Mach, w: World, from: seq<Visit>, c: Ctx)
    requires Sorted(env.insts) && MachOk(env, m) && WorldOk(env, w) && Shows(env, m, w, from)
    requires Top(w).place.On? && env.insts[Top(w).place.p.at].kind.Iret?
    requires CtxOk(env, c) && c.src == m.ctxs[m.idx].src
    ensures var r := Put(m, c, [Top(w).place.p.at]);
            MachOk(env, r) && WorldOk(env, Returned(w, c)) && Shows(env, r, Returned(w, c), from)
  {
    StandsAtReturn(env, m, w, from);
    var path, v := [Top(w).place.p.at], Returned(w, c);
    PutOk(env, m, c, path);
    NothingPending(env, m.en, Kept(c));
    assert WorldOk(env, v) && Top(v) == Level(Top(w).src, Kept(c)) && v.levels == w.levels[..m.idx] + [Top(v)];
    hide MachOk, CtxOk, Pending, PlaceSettles, LoggedAt, Shows, WorldOk;
    forall d: nat ensures LoggedAt(v.log, d) == LoggedAt(w.log, d) + if d == m.idx then path else [] {
      LoggedMore(w.log, m.idx, path, true, d);
    }
    assert LoggedAt(w.log, m.idx) + [] + path == LoggedAt(w.log, m.idx) + path + [];
    ShowsTop(env, m, w, from, c, path, v);
  }

  lemma PopShows(env: Env, m: Mach, w: World, from: seq<Visit>)
    requires MachOk(env, m) && WorldOk(env, w) && Shows(env, m, w, from) && Top(w).place.Kept?
    requires m.idx >= 1 && MachOk(env, m.(idx := m.idx - 1))
    ensures var v := w.(levels := w.levels[..m.idx]);
            WorldOk(env, v) && Shows(env, m.(idx := m.idx - 1), v, from)
  {
    var v := w.(levels := w.levels[..m.idx]);
    NothingPending(env, m.en, Top(w).place);
    hide CtxOk, Ahead, LoggedAt, Pending, PlaceSettles;
    forall d: nat ensures AtDepth(m.log, d) == AtDepth(from, d) + Shown(env, m.en, v, d) {
      assert AtDepth(m.log, d) == AtDepth(from, d) + Shown(env, m.en, w, d);
    }
  }

  /** The active level is at an interrupt return to a known address. */
  ghost predicate AtReturn(env: Env, m: Mach, w: World, from: seq<Visit>, target: nat)
  {
    && Sorted(env.insts) && MachOk(env, m) && WorldOk(env, w) && Shows(env, m, w, from)
    && Top(w).place.On? && env.insts[Top(w).place.p.at].kind.Iret? && Top(w).place.p.stack == []
    && StartIndex(env, target).Some?
  }

  /** What the return makes of the active context. */
  function Landed(env: Env, c: Ctx, target: nat): Ctx
    requires StartIndex(env, target).Some?
  {
    c.(last := StartIndex(env, target).value)
  }

  lemma ReturnFed(env: Env, m: Mach, w: World, from: seq<Visit>, target: nat)
    requires AtReturn(env, m, w, from, target)
    ensures var c := m.ctxs[m.idx];
            && CtxOk(env, c) && CtxOk(env, Landed(env, c, target)) && c.src == Top(w).src && c.stack == [] && Drained(c)
            && FeedCtx(env, m.pgd, m.en, c, Target(target))
               == Exited(Landed(env, c, target), target, [Top(w).place.p.at])
  {
    StandsAtReturn(env, m, w, from);
    ReturnLeaves(env, m.pgd, m.en, Top(w).place.p, m.ctxs[m.idx], target);
    hide StartIndex, Find, FeedCtx;
  }

  lemma LowerSettled(env: Env, m: Mach, w: World, from: seq<Visit>)
    requires MachOk(env, m) && WorldOk(env, w) && Shows(env, m, w, from) && m.idx >= 1
    requires !w.levels[m.idx - 1].place.Kept?
    ensures CtxOk(env, m.ctxs[m.idx - 1]) && Settled(env, m.pgd, m.en, m.ctxs[m.idx - 1])
  {
    assert Stands(env, m.pgd, m.en, w.levels[m.idx - 1], m.ctxs[m.idx - 1]);
    hide Coast, Settles;
  }

  /** A return to where the handler was called from. */
  lemma HomeShows(env: Env, m: Mach, w: World, from: seq<Visit>, target: nat)
    requires AtReturn(env, m, w, from, target) && m.idx >= 1 && Top(w).src == target && target != 0
    requires !w.levels[m.idx - 1].place.Kept?
    ensures AnyProcess.FeedSure(env, m, Target(target))
    ensures var v := Noted(w, [Top(w).place.p.at], true).(levels := w.levels[..m.idx]);
            WorldOk(env, v) && Shows(env, FeedMach(env, m, Target(target)).value, v, from)
  {
    FedHome(env, m, w, from, target);
    var c, path := Landed(env, m.ctxs[m.idx], target), [Top(w).place.p.at];
    ReturnedShows(env, m, w, from, c);
    hide FeedMach, StartIndex, Shows, CtxOk, Drained, AnyProcess.FeedSure;
    PopShows(env, Put(m, c, path), Returned(w, c), from);
    assert Returned(w, c).levels[..m.idx] == w.levels[..m.idx];
  }

  lemma FedHome(env: Env, m: Mach, w: World, from: seq<Visit>, target: nat)
    requires AtReturn(env, m, w, from, target) && m.idx >= 1 && Top(w).src == target && target != 0
    requires !w.levels[m.idx - 1].place.Kept?
    ensures AnyProcess.FeedSure(env, m, Target(target))
    ensures var c := Landed(env, m.ctxs[m.idx], target);
            var r := Put(m, c, [Top(w).place.p.at]).(idx := m.idx - 1);
            && CtxOk(env, c) && c.src == m.ctxs[m.idx].src
            && MachOk(env, r) && FeedMach(env, m, Target(target)) == Some(r)
  {
    ReturnFed(env, m, w, from, target);
    LowerSettled(env, m, w, from);
    hide FeedCtx, FeedMach, StartIndex, Settled, Shows, CtxOk;
    FeedReturns(env, m, Target(target));
    AnyProcess.ReturnSure(env, m, Target(target));
    PutOk(env, m, Landed(env, m.ctxs[m.idx], target), [Top(w).place.p.at]);
  }

  /** A return of the outermost level. */
  lemma OuterShows(env: Env, m: Mach, w: World, from: seq<Visit>, target: nat)
    requires AtReturn(env, m, w, from, target) && m.idx == 0
    requires Settles(env, m.en, Point(StartIndex(env, target).value, []))
    ensures AnyProcess.FeedSure(env, m, Target(target))
    ensures var v := SetTop(Noted(w, [Top(w).place.p.at], true), On(Point(StartIndex(env, target).value, [])));
            WorldOk(env, v) && Shows(env, FeedMach(env, m, Target(target)).value, v, from)
  {
    StandsAtReturn(env, m, w, from);
    var p, c := Top(w).place.p, m.ctxs[0];
    ReturnedShows(env, m, w, from, c);
    FedOuter(env, m, p, target);
    var place := On(Point(StartIndex(env, target).value, []));
    ReturnedTop(w, c, place);
    assert WorldOk(env, SetTop(Noted(w, [p.at], true), place));
    hide StartMach, FeedMach, StartIndex, Shows, Settles, MachOk, CtxOk, StartSure, AnyProcess.FeedSure, Returned,
         WorldOk;
    StartShows(env, Put(m, c, [p.at]), Returned(w, c), from, target);
    FedOuterSure(env, m, p, target);
  }

  lemma ReturnedTop(w: World, c: Ctx, place: Spot)
    requires |w.levels| > 0 && Top(w).place.On?
    ensures Top(Returned(w, c)).place == Kept(c)
    ensures SetTop(Returned(w, c), place) == SetTop(Noted(w, [Top(w).place.p.at], true), place)
  {
  }

  lemma FedOuter(env: Env, m: Mach, p: Point, target: nat)
    requires Sorted(env.insts) && MachOk(env, m) && m.idx == 0
    requires p.at < |env.insts| && env.insts[p.at].kind.Iret? && p.stack == []
    requires ViewOf(m.ctxs[0]) == Here(p, [], []) && Drained(m.ctxs[0]) && StartIndex(env, target).Some?
    ensures MachOk(env, Put(m, m.ctxs[0], [p.at])) && m.ctxs[0].stack == []
    ensures FeedMach(env, m, Target(target)) == StartMach(env, Put(m, m.ctxs[0], [p.at]), target)
  {
    hide StartMach, FeedMach, StartIndex;
    OuterReturn(env, m, p, target);
  }

  lemma FedOuterSure(env: Env, m: Mach, p: Point, target: nat)
    requires Sorted(env.insts) && MachOk(env, m) && m.idx == 0
    requires p.at < |env.insts| && env.insts[p.at].kind.Iret? && p.stack == []
    requires ViewOf(m.ctxs[0]) == Here(p, [], []) && Drained(m.ctxs[0]) && StartIndex(env, target).Some?
    requires MachOk(env, Put(m, m.ctxs[0], [p.at])) && StartSure(env, Put(m, m.ctxs[0], [p.at]), target)
    ensures AnyProcess.FeedSure(env, m, Target(target))
  {
    hide StartMach, FeedMach, StartIndex;
    var left := Put(m, m.ctxs[0], [p.at]);
    FedOuter(env, m, p, target);
    forall pgd: nat
      ensures FeedMach(env, m.(pgd := pgd), Target(target)) == Some(FeedMach(env, m, Target(target)).value.(pgd := pgd))
    {
      GlobalsOk(env, m, pgd, m.en);
      FedOuter(env, m.(pgd := pgd), p, target);
      assert Put(m.(pgd := pgd), m.ctxs[0], [p.at]) == left.(pgd := pgd);
    }
  }

  lemma FedElsewhere(env: Env, m: Mach, c: Ctx, target: nat, at: nat)
    requires MachOk(env, m) && CtxOk(env, c)
    requires m.ctxs[m.idx].stack == [] && Drained(m.ctxs[m.idx]) && c == m.ctxs[m.idx].(last := c.last)
    requires FeedCtx(env, m.pgd, m.en, m.ctxs[m.idx], Target(target)) == Exited(c, target, [at])
    requires c.src != 0 && c.src != target
    ensures FeedMach(env, m, Target(target)) == Some(Reset(Put(m, c, [at])))
  {
    assert 0 <= m.ctxs[m.idx].last < |env.insts|;
    hide Run, Decide, CtxOk;
    var qc := Queue(env, m.en, m.ctxs[m.idx], Target(target)).value;
    assert m.ctxs[m.idx := qc][m.idx := c] == m.ctxs[m.idx := c];
  }

  /** A return elsewhere: everything is forgotten. */
  lemma ElsewhereShows(env: Env, m: Mach, w: World, from: seq<Visit>, target: nat)
    requires AtReturn(env, m, w, from, target) && Top(w).src != 0 && Top(w).src != target
    ensures AnyProcess.FeedSure(env, m, Target(target))
    ensures var x := Noted(w, [Top(w).place.p.at], true);
            var v := World([Level(0, Lost)], x.log + GivenUp(env, m.en, w.levels[..m.idx]));
            WorldOk(env, v) && Shows(env, FeedMach(env, m, Target(target)).value, v, from)
  {
    var p, c := Top(w).place.p, Landed(env, m.ctxs[m.idx], target);
    ElsewhereSure(env, m, w, from, target);
    ReturnedShows(env, m, w, from, c);
    GivenUpLeft(env, m.en, w, c);
    hide FeedMach, StartIndex, Shows, CtxOk, GivenUp, Reset, MachOk, AnyProcess.FeedSure, LoggedAt;
    ResetShows(env, Put(m, c, [p.at]), Returned(w, c), from);
  }

  lemma GivenUpLeft(env: Env, en: bool, w: World, c: Ctx)
    requires WorldOk(env, w) && AllSettle(env, en, w.levels) && Top(w).place.On?
    ensures WorldOk(env, Returned(w, c)) && AllSettle(env, en, Returned(w, c).levels)
    ensures GivenUp(env, en, Returned(w, c).levels) == GivenUp(env, en, w.levels[..|w.levels| - 1])
  {
    var top := |w.levels| - 1;
    NothingPending(env, en, Kept(c));
    assert Returned(w, c).levels[..top] == w.levels[..top];
    assert Marks(top, [], false) == [];
    hide Pending;
  }

  lemma ElsewhereSure(env: Env, m: Mach, w: World, from: seq<Visit>, target: nat)
    requires AtReturn(env, m, w, from, target) && Top(w).src != 0 && Top(w).src != target
    ensures var c := Landed(env, m.ctxs[m.idx], target);
            && CtxOk(env, c) && c.src == m.ctxs[m.idx].src
            && FeedMach(env, m, Target(target)) == Some(Reset(Put(m, c, [Top(w).place.p.at])))
    ensures AnyProcess.FeedSure(env, m, Target(target))
  {
    ReturnFed(env, m, w, from, target);
    var at, c := Top(w).place.p.at, Landed(env, m.ctxs[m.idx], target);
    hide FeedCtx, FeedMach, StartIndex, Shows, CtxOk, Reset;
    FedElsewhere(env, m, c, target, at);
    forall pgd: nat
      ensures FeedMach(env, m.(pgd := pgd), Target(target)) == Some(FeedMach(env, m, Target(target)).value.(pgd := pgd))
    {
      GlobalsOk(env, m, pgd, m.en);
      AnyProcess.FeedAnyProcess(env, m.pgd, pgd, m.en, m.ctxs[m.idx], Target(target));
      FedElsewhere(env, m.(pgd := pgd), c, target, at);
      ResetAnyProcess(Put(m, c, [at]), pgd);
    }
  }

  lemma ResetAnyProcess(m: Mach, pgd: nat)
    requires m.idx < |m.ctxs|
    ensures Reset(m.(pgd := pgd)) == Reset(m).(pgd := pgd)
  {
  }

  // ---- Tracing stopped, packets lost ----

  /** The active context, ready to be taken up somewhere else. */
  lemma StopsReady(env: Env, m: Mach, w: World, from: seq<Visit>)
    requires Sorted(env.insts) && MachOk(env, m) && WorldOk(env, w) && Shows(env, m, w, from) && !Top(w).place.Kept?
    ensures PlaceSettles(env, m.en, Top(w).place) && CtxOk(env, m.ctxs[m.idx]) && Drained(m.ctxs[m.idx])
    ensures m.ctxs[m.idx].stack == if Top(w).place.On? then CoastEnd(env, m.en, Top(w).place.p).stack else []
  {
    TopStands(env, m, w, from);
    if Top(w).place.On? {
      CoastIs(env, m.pgd, m.en, Top(w).place.p);
    }
    hide RunView, Settles, Coast, CoastEnd;
  }

  lemma StoppedShows(env: Env, m: Mach, w: World, from: seq<Visit>, addr: nat)
    requires Sorted(env.insts) && MachOk(env, m) && WorldOk(env, w) && Shows(env, m, w, from)
    requires !Top(w).place.Kept? && DoNext(env, m.en, w, Stopped([], addr)).Some?
    requires PlaceSettles(env, m.en, Top(DoNext(env, m.en, w, Stopped([], addr)).value).place)
    ensures StepShows(env, m, Resumed(addr), DoNext(env, m.en, w, Stopped([], addr)).value, from)
  {
    StopsReady(env, m, w, from);
    ForgetShows(env, m, w, from);
    var c := m.ctxs[m.idx];
    var v, place := Forgotten(env, m.en, w, c), On(Point(StartIndex(env, addr).value, c.stack));
    ForgottenTop(env, m.en, w, c, place);
    hide Shows, StartMach, StartIndex, Settles, CoastEnd, Pending, MachOk, StartSure, Forgotten, WorldOk;
    StartShows(env, m, v, from, addr);
    hide StepShows;
    ResumedShows(env, m, addr, DoNext(env, m.en, w, Stopped([], addr)).value, from);
  }

  lemma ForgottenTop(env: Env, en: bool, w: World, c: Ctx, place: Spot)
    requires WorldOk(env, w) && PlaceSettles(env, en, Top(w).place)
    ensures var v := Forgotten(env, en, w, c);
            && Top(v).place == Kept(c)
            && SetTop(v, place) == SetTop(Noted(w, Pending(env, en, Top(w).place), false), place)
  {
    hide Pending;
  }

  lemma OverflowedShows(env: Env, m: Mach, w: World, from: seq<Visit>, addr: nat)
    requires Sorted(env.insts) && MachOk(env, m) && WorldOk(env, w) && Shows(env, m, w, from)
    requires StartIndex(env, addr).Some? && Settles(env, m.en, Point(StartIndex(env, addr).value, []))
    ensures DoNext(env, m.en, w, Overflowed([], addr)).Some?
    ensures StepShows(env, m, Restarted(addr), DoNext(env, m.en, w, Overflowed([], addr)).value, from)
  {
    hide Find, StartIndex, CtxOk, Sorted, Decide, PerformAll;
    ResetShows(env, m, w, from);
    var lost := World([Level(0, Lost)], w.log + GivenUp(env, m.en, w.levels));
    var place := On(Point(StartIndex(env, addr).value, []));
    LostStarts(env, Reset(m), lost, from, addr);
    NothingPending(env, m.en, Lost);
    hide Shows, StartMach, GivenUp, Settles, Reset, MachOk, StartSure;
    assert SetTop(lost, place) == World([Level(0, place)], lost.log);
    hide StepShows;
    RestartedShows(env, m, addr, DoNext(env, m.en, w, Overflowed([], addr)).value, from);
  }

  lemma LostStarts(env: Env, m: Mach, w: World, from: seq<Visit>, addr: nat)
    requires Sorted(env.insts) && MachOk(env, m) && WorldOk(env, w) && Shows(env, m, w, from)
    requires w.levels == [Level(0, Lost)]
    requires StartIndex(env, addr).Some? && Settles(env, m.en, Point(StartIndex(env, addr).value, []))
    ensures StartSure(env, m, addr)
    ensures var v := SetTop(w, On(Point(StartIndex(env, addr).value, [])));
            WorldOk(env, v) && Shows(env, StartMach(env, m, addr).value, v, from)
  {
    LostIsBlank(env, m, w, from);
    ForgetShows(env, m, w, from);
    var place := On(Point(StartIndex(env, addr).value, []));
    ForgottenTop(env, m.en, w, Blank(0), place);
    NothingPending(env, m.en, Lost);
    assert Noted(w, [], false) == w by {
      assert w.log + [] == w.log;
    }
    assert WorldOk(env, SetTop(w, place));
    hide Shows, StartMach, StartIndex, Settles, MachOk, StartSure, Forgotten, Pending, WorldOk;
    StartShows(env, m, Forgotten(env, m.en, w, Blank(0)), from, addr);
  }

  lemma LostIsBlank(env: Env, m: Mach, w: World, from: seq<Visit>)
    requires MachOk(env, m) && WorldOk(env, w) && Shows(env, m, w, from) && w.levels == [Level(0, Lost)]
    ensures m.idx == 0 && m.ctxs[0] == Blank(0) && PlaceSettles(env, m.en, Top(w).place)
  {
    TopStands(env, m, w, from);
  }

  // ---- Whole stories ----

  lemma IdleSettles(env: Env, en: bool, w: World, acts: seq<Act>)
    requires WorldOk(env, w) && Idle(env, en, w, acts).Some?
    requires AllSettle(env, en, Idle(env, en, w, acts).value.levels)
    ensures AllSettle(env, en, w.levels)
  {
    var v := Idle(env, en, w, acts).value;
    if Top(w).place.On? {
      assert Top(v).place == On(PerformAll(env, en, Top(w).place.p, acts).value);
      assert PlaceSettles(env, en, Top(v).place);
      SettlesBefore(env, en, Top(w).place.p, acts);
    }
    hide Settles;
    forall k | 0 <= k < |w.levels| ensures PlaceSettles(env, en, w.levels[k].place) {
      if k < |w.levels| - 1 {
        assert w.levels[k] == v.levels[k];
      }
    }
  }

  lemma WalkSettles(env: Env, en: bool, w: World, acts: seq<Act>)
    requires WorldOk(env, w) && Walk(env, en, w, acts).Some?
    requires AllSettle(env, en, Walk(env, en, w, acts).value.levels)
    ensures AllSettle(env, en, w.levels)
  {
    var v := Walk(env, en, w, acts).value;
    assert Top(v).place == On(PerformAll(env, en, Top(w).place.p, acts).value);
    assert PlaceSettles(env, en, Top(v).place);
    SettlesBefore(env, en, Top(w).place.p, acts);
    hide Settles;
    forall k | 0 <= k < |w.levels| ensures PlaceSettles(env, en, w.levels[k].place) {
      if k < |w.levels| - 1 {
        assert w.levels[k] == v.levels[k];
      }
    }
  }

  lemma NextSettles(env: Env, en: bool, w: World, deed: Deed)
    requires WorldOk(env, w) && !deed.Reported? && !deed.Missed? && DoNext(env, en, w, deed).Some?
    requires AllSettle(env, en, DoNext(env, en, w, deed).value.levels)
    ensures AllSettle(env, en, w.levels)
  {
    hide Settles, GivenUp, Pending, CoastEnd, AllSettle, PlaceSettles, StartIndex, EntryPoint, Leave;
    var v := DoNext(env, en, w, deed).value;
    match deed {
      case Struck(_, _, _) => StruckSettles(env, en, w, v);
      case Left(_, target) => LeaveSettles(env, en, w, target);
      case Stopped(_, _) => LowerSettle(env, en, w.levels, v.levels);
      case Overflowed(_, _) =>
    }
  }

  lemma StruckSettles(env: Env, en: bool, w: World, v: World)
    requires WorldOk(env, w) && WorldOk(env, v) && |v.levels| == |w.levels| + 1 && v.levels[..|w.levels|] == w.levels
    requires AllSettle(env, en, v.levels)
    ensures AllSettle(env, en, w.levels)
  {
    hide PlaceSettles;
    forall k | 0 <= k < |w.levels| ensures PlaceSettles(env, en, w.levels[k].place) {
      assert w.levels[k] == v.levels[..|w.levels|][k] == v.levels[k];
    }
  }

  lemma LeaveSettles(env: Env, en: bool, w: World, target: nat)
    requires WorldOk(env, w) && StartIndex(env, target).Some?
    requires Top(w).place.On? && env.insts[Top(w).place.p.at].kind.Iret?
    requires var x := Noted(w, [Top(w).place.p.at], true);
             Leave(env, en, x, target).Some? && AllSettle(env, en, Leave(env, en, x, target).value.levels)
    ensures AllSettle(env, en, w.levels)
  {
    StarvedSettles(env, en, Top(w).place.p);
    hide Settles, GivenUp, AllSettle, StartIndex;
    var x := Noted(w, [Top(w).place.p.at], true);
    if |w.levels| > 1 && Top(w).src != target {
      LowerSettle(env, en, w.levels, w.levels[..|w.levels| - 1]);
    } else {
      LowerSettle(env, en, w.levels, Leave(env, en, x, target).value.levels);
    }
  }

  lemma LowerSettle(env: Env, en: bool, a: seq<Level>, b: seq<Level>)
    requires |a| > 0 && |b| >= |a| - 1 && a[..|a| - 1] == b[..|a| - 1]
    requires forall k | 0 <= k < |a| :: PlaceOk(env, a[k].place)
    requires forall k | 0 <= k < |b| :: PlaceOk(env, b[k].place)
    requires AllSettle(env, en, b) && PlaceSettles(env, en, a[|a| - 1].place)
    ensures AllSettle(env, en, a)
  {
    hide PlaceSettles;
    forall k | 0 <= k < |a| - 1 ensures PlaceSettles(env, en, a[k].place) {
      assert a[k] == a[..|a| - 1][k] == b[..|a| - 1][k] == b[k];
    }
  }

  /** Where a deed leaves every level at a point that settles, it found it so. */
  lemma DeedSettles(env: Env, en: bool, w: World, deed: Deed)
    requires WorldOk(env, w) && DoDeed(env, en, w, deed).Some?
             && AllSettle(env, en, DoDeed(env, en, w, deed).value.levels)
    ensures AllSettle(env, en, w.levels)
  {
    hide Walk, Idle, DoNext, PlaceSettles;
    match deed {
      case Reported(acts, f) => WalkSettles(env, en, w, acts);
      case Missed(f) =>
      case _ =>
        NextSettles(env, en, Idle(env, en, w, deed.acts).value, deed);
        IdleSettles(env, en, w, deed.acts);
    }
  }

  lemma {:induction false} AllSettles(env: Env, en: bool, w: World, deeds: seq<Deed>)
    requires WorldOk(env, w) && DoDeeds(env, en, w, deeds).Some?
             && AllSettle(env, en, DoDeeds(env, en, w, deeds).value.levels)
    ensures AllSettle(env, en, w.levels)
    decreases |deeds|
  {
    hide DoDeed, AllSettle;
    if deeds != [] {
      AllSettles(env, en, DoDeed(env, en, w, deeds[0]).value, deeds[1..]);
      DeedSettles(env, en, w, deeds[0]);
    }
  }

  lemma TopSettles(env: Env, en: bool, w: World)
    requires WorldOk(env, w) && AllSettle(env, en, w.levels)
    ensures PlaceSettles(env, en, Top(w).place)
  {
  }

  /** A level that idles is not one from before. */
  lemma IdleTop(env: Env, en: bool, w: World, acts: seq<Act>)
    requires WorldOk(env, w) && Idle(env, en, w, acts).Some?
    ensures !Top(Idle(env, en, w, acts).value).place.Kept?
  {
  }

  lemma LeftShows(env: Env, m: Mach, w: World, from: seq<Visit>, target: nat)
    requires Sorted(env.insts) && MachOk(env, m) && WorldOk(env, w) && Shows(env, m, w, from)
    requires DoNext(env, m.en, w, Left([], target)).Some?
    requires AllSettle(env, m.en, DoNext(env, m.en, w, Left([], target)).value.levels)
    ensures StepShows(env, m, Given(Target(target)), DoNext(env, m.en, w, Left([], target)).value, from)
  {
    assert AtReturn(env, m, w, from, target);
    var v := DoNext(env, m.en, w, Left([], target)).value;
    TopSettles(env, m.en, v);
    TopStands(env, m, w, from);
    LeftIs(env, m.en, w, target);
    hide Shows, MachOk, FeedMach, StartIndex, Settles, AnyProcess.FeedSure, GivenUp, AtReturn, AllSettle, StepShows,
         DoNext, Leave, WorldOk;
    if m.idx == 0 {
      OuterShows(env, m, w, from, target);
    } else if Top(w).src == target {
      HomeShows(env, m, w, from, target);
    } else {
      ElsewhereShows(env, m, w, from, target);
    }
    GivenShows(env, m, Target(target), v, from);
  }

  lemma LeftIs(env: Env, en: bool, w: World, target: nat)
    requires WorldOk(env, w) && DoNext(env, en, w, Left([], target)).Some?
    ensures Top(w).place.On? && env.insts[Top(w).place.p.at].kind.Iret? && StartIndex(env, target).Some?
    ensures var x, top := Noted(w, [Top(w).place.p.at], true), |w.levels| - 1;
            var v := DoNext(env, en, w, Left([], target)).value;
            if top == 0 then v == SetTop(x, On(Point(StartIndex(env, target).value, [])))
            else if Top(w).src == target then
              target != 0 && !w.levels[top - 1].place.Kept? && v == x.(levels := w.levels[..top])
            else
              && Top(w).src != 0 && AllSettle(env, en, w.levels[..top])
              && v == World([Level(0, Lost)], x.log + GivenUp(env, en, w.levels[..top]))
  {
    hide GivenUp, AllSettle, StartIndex;
  }

  /** The step that reports a deed takes the replay from before it to after it, under any page directory. */
  lemma DeedShows(env: Env, m: Mach, w: World, from: seq<Visit>, deed: Deed)
    requires Sorted(env.insts) && MachOk(env, m) && WorldOk(env, w) && Shows(env, m, w, from)
    requires DoDeed(env, m.en, w, deed).Some? && AllSettle(env, m.en, DoDeed(env, m.en, w, deed).value.levels)
    ensures StepShows(env, m, StepOf(deed), DoDeed(env, m.en, w, deed).value, from)
  {
    TopSettles(env, m.en, DoDeed(env, m.en, w, deed).value);
    match deed {
      case Reported(acts, f) =>
        ReportedShows(env, m, w, from, acts, f);
        GivenShows(env, m, f, DoDeed(env, m.en, w, deed).value, from);
      case Missed(f) =>
        MissedShows(env, m, w, from, f);
        GivenShows(env, m, f, w, from);
      case _ => NextShows(env, m, w, from, deed);
    }
    hide Shows, MachOk, FeedMach, StepShows, Walk, Idle, DoNext;
  }

  lemma NextIgnores(env: Env, en: bool, w: World, deed: Deed)
    requires WorldOk(env, w) && !deed.Reported? && !deed.Missed?
    ensures DoNext(env, en, w, deed)
            == DoNext(env, en, w, match deed
                                  case Struck(_, src, dst) => Struck([], src, dst)
                                  case Left(_, target) => Left([], target)
                                  case Stopped(_, addr) => Stopped([], addr)
                                  case Overflowed(_, addr) => Overflowed([], addr))
    ensures deed.Struck? && DoNext(env, en, w, deed).Some? ==>
              DoNext(env, en, w, deed).value.levels == w.levels + [Level(deed.src, On(EntryPoint(env, deed.dst).value))]
              && EntryPoint(env, deed.dst).Some?
    ensures deed.Overflowed? && DoNext(env, en, w, deed).Some? ==>
              && StartIndex(env, deed.addr).Some?
              && DoNext(env, en, w, deed).value.levels == [Level(0, On(Point(StartIndex(env, deed.addr).value, [])))]
  {
    hide Leave, GivenUp, Settles, Pending, CoastEnd, StartIndex;
  }

  lemma NextShows(env: Env, m: Mach, w: World, from: seq<Visit>, deed: Deed)
    requires Sorted(env.insts) && MachOk(env, m) && WorldOk(env, w) && Shows(env, m, w, from)
    requires !deed.Reported? && !deed.Missed? && Idle(env, m.en, w, deed.acts).Some?
    requires var v := Idle(env, m.en, w, deed.acts).value;
             DoNext(env, m.en, v, deed).Some? && AllSettle(env, m.en, DoNext(env, m.en, v, deed).value.levels)
    ensures StepShows(env, m, StepOf(deed), DoNext(env, m.en, Idle(env, m.en, w, deed.acts).value, deed).value, from)
  {
    var v := Idle(env, m.en, w, deed.acts).value;
    NextSettles(env, m.en, v, deed);
    TopSettles(env, m.en, v);
    IdleTop(env, m.en, w, deed.acts);
    IdleShows(env, m, w, from, deed.acts);
    TopSettles(env, m.en, DoNext(env, m.en, v, deed).value);
    NextIgnores(env, m.en, v, deed);
    hide Shows, MachOk, StepShows, Idle, Settles, GivenUp, Pending, AllSettle, DoNext, WorldOk;
    match deed {
      case Struck(_, src, dst) => StruckShows(env, m, v, from, src, dst);
      case Left(_, target) => LeftShows(env, m, v, from, target);
      case Stopped(_, addr) => StoppedShows(env, m, v, from, addr);
      case Overflowed(_, addr) => OverflowedShows(env, m, v, from, addr);
    }
  }

  /** The replay of any story, from where it stands, stands where the story ends: at every depth it has
      logged what was executed there and what it ran ahead over; and every step does the same under any
      page directory. */
  lemma {:induction false} StoryRecovered(env: Env, m: Mach, w: World, from: seq<Visit>, deeds: seq<Deed>)
    requires Sorted(env.insts) && MachOk(env, m) && WorldOk(env, w) && Shows(env, m, w, from)
    requires DoDeeds(env, m.en, w, deeds).Some? && AllSettle(env, m.en, DoDeeds(env, m.en, w, deeds).value.levels)
    ensures var r := PlaySteps(env, m, StepsOf(deeds));
            r.Some? && Shows(env, r.value, DoDeeds(env, m.en, w, deeds).value, from)
    ensures SureSteps(env, m, StepsOf(deeds))
    decreases |deeds|
  {
    hide DoDeed, Shows, MachOk, TakeStep, SureStep, AllSettle;
    if deeds != [] {
      var next := DoDeed(env, m.en, w, deeds[0]).value;
      AllSettles(env, m.en, next, deeds[1..]);
      DeedShows(env, m, w, from, deeds[0]);
      StoryRecovered(env, TakeStep(env, m, StepOf(deeds[0])).value, next, from, deeds[1..]);
      assert StepsOf(deeds)[0] == StepOf(deeds[0]) && StepsOf(deeds)[1..] == StepsOf(deeds[1..]);
    }
  }

  // ---- What is logged, and what was executed ----

  /** The log at a depth is exactly what was executed there if and only if nothing was given up that the
      replay had run ahead over, and a level open there is at an instruction that waits for a packet. */
  lemma ShownIsExecuted(env: Env, en: bool, w: World, d: nat)
    requires Sorted(env.insts) && WorldOk(env, w) && AllSettle(env, en, w.levels)
    ensures Shown(env, en, w, d) == ExecutedAt(w.log, d)
            <==> && (forall k | 0 <= k < |w.log| && w.log[k].depth == d :: w.log[k].done)
                 && (d < |w.levels| && w.levels[d].place.On? ==> Starved(env, w.levels[d].place.p.at, [], []))
  {
    LoggedIsExecuted(w.log, d);
    if d < |w.levels| {
      assert PlaceSettles(env, en, w.levels[d].place);
      if w.levels[d].place.On? {
        CoastsNowhere(env, en, w.levels[d].place.p);
      }
    }
    hide Coast, Settles, LoggedAt, ExecutedAt, Starved;
  }

  // ---- Where a story begins and ends ----

  /** A replay of which nothing is known but its contexts. */
  function Before(m: Mach): World
    requires m.idx < |m.ctxs|
  {
    World(seq(m.idx + 1, k requires 0 <= k <= m.idx => Level(m.ctxs[k].src, Kept(m.ctxs[k]))), [])
  }

  /** Tracing starts at an address in the active context. */
  function Opened(env: Env, m: Mach, addr: nat): World
    requires m.idx < |m.ctxs| && StartIndex(env, addr).Some?
  {
    SetTop(Before(m), On(Point(StartIndex(env, addr).value, m.ctxs[m.idx].stack)))
  }

  lemma BeforeShows(env: Env, m: Mach)
    requires MachOk(env, m)
    ensures WorldOk(env, Before(m)) && Shows(env, m, Before(m), m.log)
  {
    var w := Before(m);
    forall k | 0 <= k <= m.idx ensures Stands(env, m.pgd, m.en, w.levels[k], m.ctxs[k]) {
    }
    hide CtxOk;
    forall d: nat ensures AtDepth(m.log, d) == AtDepth(m.log, d) + Shown(env, m.en, w, d) {
      assert Shown(env, m.en, w, d) == [];
    }
  }

  lemma OpenedShows(env: Env, m: Mach, addr: nat)
    requires Sorted(env.insts) && MachOk(env, m) && StartIndex(env, addr).Some? && Drained(m.ctxs[m.idx])
    requires Settles(env, m.en, Point(StartIndex(env, addr).value, m.ctxs[m.idx].stack))
    ensures StartMach(env, m, addr).Some? && WorldOk(env, Opened(env, m, addr))
    ensures Shows(env, StartMach(env, m, addr).value, Opened(env, m, addr), m.log)
  {
    BeforeShows(env, m);
    hide Shows, StartMach, StartIndex, Settles;
    StartShows(env, m, Before(m), m.log, addr);
  }

  lemma OpenedOk(env: Env, m: Mach, addr: nat)
    requires MachOk(env, m) && StartIndex(env, addr).Some?
    ensures WorldOk(env, Opened(env, m, addr))
  {
    hide StartIndex;
  }

  /** The active level is never one from before. */
  lemma {:induction false} TopIsKnown(env: Env, en: bool, w: World, deeds: seq<Deed>)
    requires WorldOk(env, w) && !Top(w).place.Kept? && DoDeeds(env, en, w, deeds).Some?
    ensures !Top(DoDeeds(env, en, w, deeds).value).place.Kept?
    decreases |deeds|
  {
    if deeds != [] {
      DeedTop(env, en, w, deeds[0]);
      hide DoDeed;
      TopIsKnown(env, en, DoDeed(env, en, w, deeds[0]).value, deeds[1..]);
    }
  }

  lemma DeedTop(env: Env, en: bool, w: World, deed: Deed)
    requires WorldOk(env, w) && !Top(w).place.Kept? && DoDeed(env, en, w, deed).Some?
    ensures !Top(DoDeed(env, en, w, deed).value).place.Kept?
  {
    hide GivenUp, Pending, Settles, CoastEnd, StartIndex, PerformAll, Path;
  }

  lemma ShowsRests(env: Env, m: Mach, w: World, from: seq<Visit>)
    requires MachOk(env, m) && WorldOk(env, w) && Shows(env, m, w, from) && !Top(w).place.Kept?
    ensures Drained(m.ctxs[m.idx])
  {
    TopStands(env, m, w, from);
  }

  /** The process makes no difference. */
  lemma ShowsAnyProcess(env: Env, m: Mach, w: World, from: seq<Visit>, pgd: nat)
    requires Sorted(env.insts) && MachOk(env, m) && WorldOk(env, w) && Shows(env, m, w, from)
    ensures MachOk(env, m.(pgd := pgd)) && Shows(env, m.(pgd := pgd), w, from)
  {
    GlobalsOk(env, m, pgd, m.en);
    hide Coast, Settles, Settled, RunView, CtxOk, Shown;
    forall k | 0 <= k <= m.idx ensures CtxOk(env, m.ctxs[k]) && Stands(env, pgd, m.en, w.levels[k], m.ctxs[k]) {
      assert CtxOk(env, m.ctxs[k]) && Stands(env, m.pgd, m.en, w.levels[k], m.ctxs[k]);
      if w.levels[k].place.On? {
        CoastIs(env, m.pgd, m.en, w.levels[k].place.p);
        CoastIs(env, pgd, m.en, w.levels[k].place.p);
        AnyProcess.SettledAnyProcess(env, m.pgd, pgd, m.en, m.ctxs[k]);
      }
    }
  }
}
