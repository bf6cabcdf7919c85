/** The stack of replay contexts (src/xed.c): the active one receives packets; an asynchronous
    transfer opens the next one; an interrupt return closes it. None models the deliberate stop
    (`for (;;) {}`) after an error message. */
module Machine {
  import opened Options
  import opened Program
  import opened Replay
  import opened ReplayTheory
  import Silent

  const MAX_NO_CTXS := 25

  /** One executed instruction in the branch log, with the depth it was executed at. */
  datatype Visit = Visit(depth: nat, inst: nat)

  datatype Mach = Mach(ctxs: seq<Ctx>, idx: nat, pgd: nat, en: bool, log: seq<Visit>)

  function Visits(depth: nat, path: seq<nat>): seq<Visit> {
    seq(|path|, k requires 0 <= k < |path| => Visit(depth, path[k]))
  }

  predicate Drained(c: Ctx) {
    c.tnt == [] && c.tip == []
  }

  /** Only the active context holds packets, and the contexts above it hold no calls either. */
  ghost predicate MachOk(env: Env, m: Mach) {
    && |m.ctxs| == MAX_NO_CTXS
    && m.idx < MAX_NO_CTXS
    && (forall j | 0 <= j < MAX_NO_CTXS :: CtxOk(env, m.ctxs[j]))
    && (forall j | 0 <= j < MAX_NO_CTXS && j != m.idx :: Drained(m.ctxs[j]))
    && (forall j | m.idx < j < MAX_NO_CTXS :: m.ctxs[j].stack == [])
    && m.ctxs[0].src == 0
  }

  function Blank(src: nat): Ctx {
    Ctx(src, -1, [], [], [])
  }

  /** Nothing is loaded into any context yet. */
  function Initial(): Mach {
    Mach(seq(MAX_NO_CTXS, _ => Blank(0)), 0, 0, false, [])
  }

  /** `xed_async_reset`: forget the active context and all below it. */
  function Reset(m: Mach): Mach
    requires m.idx < |m.ctxs|
  {
    m.(ctxs := seq(|m.ctxs|, j requires 0 <= j < |m.ctxs| => if j <= m.idx then Blank(m.ctxs[j].src) else m.ctxs[j]),
       idx := 0)
  }

  /** The active context becomes c after executing `path`. */
  function Put(m: Mach, c: Ctx, path: seq<nat>): Mach
    requires m.idx < |m.ctxs|
  {
    m.(ctxs := m.ctxs[m.idx := c], log := m.log + Visits(m.idx, path))
  }

  lemma PutOk(env: Env, m: Mach, c: Ctx, path: seq<nat>)
    requires MachOk(env, m) && CtxOk(env, c) && c.src == m.ctxs[m.idx].src
    ensures MachOk(env, Put(m, c, path))
    ensures Drained(c) && c.stack == [] && m.idx >= 1 ==> MachOk(env, Put(m, c, path).(idx := m.idx - 1))
  {
  }

  /** Giving the active context other packets or another position keeps the machine well formed. */
  lemma SetActiveOk(env: Env, m: Mach, c: Ctx)
    requires MachOk(env, m) && CtxOk(env, c) && c.src == m.ctxs[m.idx].src
    ensures MachOk(env, m.(ctxs := m.ctxs[m.idx := c]))
  {
  }

  lemma LeaveOk(env: Env, m: Mach)
    requires MachOk(env, m) && Drained(m.ctxs[m.idx]) && m.ctxs[m.idx].stack == []
    ensures MachOk(env, m.(idx := if m.idx >= 1 then m.idx - 1 else 0))
  {
  }

  lemma ResetOk(env: Env, m: Mach)
    requires MachOk(env, m)
    ensures MachOk(env, Reset(m))
  {
  }

  /** The replay loop across interrupt returns. A handler must end with nothing queued and nothing
      called; a return elsewhere than to the interrupted address, or to an unknown place, resets. */
  ghost function RunMach(env: Env, m: Mach): (r: Option<Mach>)
    requires MachOk(env, m)
    ensures r.Some? ==> MachOk(env, r.value) && r.value.pgd == m.pgd && r.value.en == m.en
    decreases m.idx, |m.ctxs[m.idx].tip|
  {
    match Run(env, m.pgd, m.en, m.ctxs[m.idx])
    case Halted => None
    case Paused(c, path) => PutOk(env, m, c, path); Some(Put(m, c, path))
    case Exited(c, tip, path) =>
      PutOk(env, m, c, path);
      ResetOk(env, Put(m, c, path));
      var after := Put(m, c, path);
      if c.stack != [] || !Drained(c) then None
      else if (c.src != 0 && c.src != tip) || c.last == -1 then Some(Reset(after))
      else RunMach(env, after.(idx := if m.idx >= 1 then m.idx - 1 else 0))
  }

  // ---- RunMach turn by turn ----

  /** What follows an interrupt return. */
  ghost function AfterExit(env: Env, m: Mach, tip: nat): Option<Mach>
    requires MachOk(env, m)
  {
    var c := m.ctxs[m.idx];
    if c.stack != [] || !Drained(c) then None
    else if (c.src != 0 && c.src != tip) || c.last == -1 then Some(Reset(m))
    else RunMach(env, m.(idx := if m.idx >= 1 then m.idx - 1 else 0))
  }

  lemma TurnStays(env: Env, m: Mach)
    requires MachOk(env, m) && m.ctxs[m.idx].last >= 0
    requires !DecideCtx(env, m.pgd, m.en, m.ctxs[m.idx]).Go?
    ensures var d := DecideCtx(env, m.pgd, m.en, m.ctxs[m.idx]);
            RunMach(env, m) == if d.Halt? then None else Some(m.(ctxs := m.ctxs[m.idx := Look(env, m.ctxs[m.idx])]))
  {
    StillEnds(env, m.pgd, m.en, m.ctxs[m.idx]);
    hide Decide, CtxOk, Silent.Ends;
    assert m.log + Visits(m.idx, []) == m.log;
  }

  /** One turn of the loop, as a step of the machine. */
  function Turned(env: Env, m: Mach): Mach
    requires m.idx < |m.ctxs| && 0 <= m.ctxs[m.idx].last < |env.insts|
    requires DecideCtx(env, m.pgd, m.en, m.ctxs[m.idx]).Go?
  {
    var c := m.ctxs[m.idx];
    Put(m, Apply(env, c, DecideCtx(env, m.pgd, m.en, c)), [c.last])
  }

  lemma TurnOk(env: Env, m: Mach)
    requires MachOk(env, m) && m.ctxs[m.idx].last >= 0
    requires DecideCtx(env, m.pgd, m.en, m.ctxs[m.idx]).Go?
    ensures MachOk(env, Turned(env, m))
    ensures Silent.Ends(env, m.ctxs[m.idx].last) ==>
              Below(CtxMeasure(env, Turned(env, m).ctxs[m.idx]), CtxMeasure(env, m.ctxs[m.idx]))
  {
    hide Decide;
    var c := m.ctxs[m.idx];
    CtxKeeps(env, m.pgd, m.en, c);
    if Silent.Ends(env, c.last) {
      CtxProgress(env, m.pgd, m.en, c);
    }
    PutOk(env, m, Apply(env, c, DecideCtx(env, m.pgd, m.en, c)), [c.last]);
  }

  /** A turn on a silent run that does not end leads to another one on it. */
  lemma TurnEnds(env: Env, pgd: nat, en: bool, c: Ctx)
    requires CtxOk(env, c) && c.last >= 0 && DecideCtx(env, pgd, en, c).Go?
    ensures var last := DecideCtx(env, pgd, en, c).last;
            !Silent.Ends(env, c.last) ==> last >= 0 && !Silent.Ends(env, last)
  {
    if Silent.Next(env, c.last).Some? {
      Silent.EndsNext(env, c.last);
      SilentStepAlwaysMoves(env, pgd, en, c.last, c.stack, FrontBit(Look(env, c).tnt), Front(c.tip));
    } else {
      Silent.EndsHere(env, c.last);
    }
  }

  /** Where the loop waits, stops or leaves a handler, the silent run is over. */
  lemma StillEnds(env: Env, pgd: nat, en: bool, c: Ctx)
    requires CtxOk(env, c) && c.last >= 0
    requires var d := DecideCtx(env, pgd, en, c); !d.Go? || d.exits
    ensures Silent.Ends(env, c.last)
  {
    if Silent.Next(env, c.last).Some? {
      SilentStepAlwaysMoves(env, pgd, en, c.last, c.stack, FrontBit(Look(env, c).tnt), Front(c.tip));
    } else {
      Silent.EndsHere(env, c.last);
    }
  }

  lemma TurnMoves(env: Env, m: Mach)
    requires MachOk(env, m) && m.ctxs[m.idx].last >= 0
    requires var d := DecideCtx(env, m.pgd, m.en, m.ctxs[m.idx]); d.Go? && !d.exits
    ensures MachOk(env, Turned(env, m)) && RunMach(env, m) == RunMach(env, Turned(env, m))
  {
    hide Decide, Visits, Silent.Ends, Run;
    TurnOk(env, m);
    var c := m.ctxs[m.idx];
    CtxKeeps(env, m.pgd, m.en, c);
    var next := Apply(env, c, DecideCtx(env, m.pgd, m.en, c));
    var o := Run(env, m.pgd, m.en, next);
    PutTwice(m, next, [c.last], o);
    assert Turned(env, m) == Put(m, next, [c.last]);
    assert Turned(env, m).ctxs[m.idx] == next;
    TurnRuns(env, m.pgd, m.en, c);
  }

  lemma TurnRuns(env: Env, pgd: nat, en: bool, c: Ctx)
    requires CtxOk(env, c) && c.last >= 0
    requires var d := DecideCtx(env, pgd, en, c); d.Go? && !d.exits
    ensures CtxOk(env, Apply(env, c, DecideCtx(env, pgd, en, c)))
    ensures Run(env, pgd, en, c) == Prefix([c.last], Run(env, pgd, en, Apply(env, c, DecideCtx(env, pgd, en, c))))
  {
    hide Decide, Silent.Ends;
    CtxKeeps(env, pgd, en, c);
    TurnEnds(env, pgd, en, c);
  }

  lemma TurnExits(env: Env, m: Mach)
    requires MachOk(env, m) && m.ctxs[m.idx].last >= 0
    requires var d := DecideCtx(env, m.pgd, m.en, m.ctxs[m.idx]); d.Go? && d.exits
    ensures MachOk(env, Turned(env, m)) && RunMach(env, m) == AfterExit(env, Turned(env, m), m.ctxs[m.idx].tip[0])
  {
    hide Decide, CtxOk, Visits, Silent.Ends;
    StillEnds(env, m.pgd, m.en, m.ctxs[m.idx]);
    TurnOk(env, m);
  }

  lemma PutTwice(m: Mach, c: Ctx, path: seq<nat>, o: Outcome<Ctx>)
    requires m.idx < |m.ctxs|
    ensures !o.Halted? ==> Put(Put(m, c, path), o.state, o.path) == Put(m, o.state, path + o.path)
  {
    if !o.Halted? {
      assert m.ctxs[m.idx := c][m.idx := o.state] == m.ctxs[m.idx := o.state];
      assert m.log + Visits(m.idx, path) + Visits(m.idx, o.path) == m.log + Visits(m.idx, path + o.path);
    }
  }

  lemma LostStays(env: Env, m: Mach)
    requires MachOk(env, m) && m.ctxs[m.idx].last == -1
    ensures RunMach(env, m) == Some(m)
  {
    assert m.ctxs[m.idx := m.ctxs[m.idx]] == m.ctxs;
    assert m.log + Visits(m.idx, []) == m.log;
  }

  /** `xed_process_branches` with one packet. */
  ghost function FeedMach(env: Env, m: Mach, f: Feed): (r: Option<Mach>)
    requires MachOk(env, m)
    ensures r.Some? ==> MachOk(env, r.value) && r.value.pgd == m.pgd && r.value.en == m.en
  {
    var c := m.ctxs[m.idx];
    if c.last == -1 then Some(m)
    else match Queue(env, m.en, c, f)
      case None => None
      case Some(q) => RunMach(env, m.(ctxs := m.ctxs[m.idx := q]))
  }

  /** `xed_process_branches` with bits and a target in one call. */
  ghost function ProcessMach(env: Env, m: Mach, bits: nat, len: nat, tip: nat): (r: Option<Mach>)
    requires MachOk(env, m)
    ensures r.Some? ==> MachOk(env, r.value) && r.value.pgd == m.pgd && r.value.en == m.en
    ensures len == 0 ==> r == FeedMach(env, m, Target(tip))
    ensures tip == 0 ==> r == FeedMach(env, m, Bits(bits, len))
  {
    var c := m.ctxs[m.idx];
    if c.last == -1 then Some(m)
    else match Queue(env, m.en, c, Bits(bits, len))
      case None => None
      case Some(q) =>
        match Queue(env, m.en, q, Target(tip))
        case None => None
        case Some(q2) => RunMach(env, m.(ctxs := m.ctxs[m.idx := q2]))
  }

  /** `xed_update_last_inst` on the active context. */
  function Position(env: Env, m: Mach, addr: nat): Option<Mach>
    requires m.idx < |m.ctxs|
  {
    match Resolve(env, m.pgd, addr)
    case At(i) => Some(m.(ctxs := m.ctxs[m.idx := m.ctxs[m.idx].(last := i)]))
    case Nowhere => Some(m.(ctxs := m.ctxs[m.idx := m.ctxs[m.idx].(last := -1)]))
    case Stop => None
  }

  lemma QueueOk(env: Env, m: Mach, f: Feed)
    requires MachOk(env, m) && m.ctxs[m.idx].last != -1
    ensures 0 <= m.ctxs[m.idx].last < |env.insts|
    ensures var q := Queue(env, m.en, m.ctxs[m.idx], f);
            q.Some? ==> MachOk(env, m.(ctxs := m.ctxs[m.idx := q.value]))
  {
    var q := Queue(env, m.en, m.ctxs[m.idx], f);
    if q.Some? {
      QueueView(env, m.en, m.ctxs[m.idx], f);
      SetActiveOk(env, m, q.value);
    }
  }

  lemma PositionOk(env: Env, m: Mach, addr: nat)
    requires MachOk(env, m)
    ensures Position(env, m, addr).Some? ==> MachOk(env, Position(env, m, addr).value)
  {
    hide Resolve;
    match Resolve(env, m.pgd, addr) {
      case At(i) => SetActiveOk(env, m, m.ctxs[m.idx].(last := i));
      case Nowhere => SetActiveOk(env, m, m.ctxs[m.idx].(last := -1));
      case Stop =>
    }
  }

  /** Feeding nothing only resumes the replay. */
  lemma FeedNothing(env: Env, m: Mach)
    requires MachOk(env, m)
    ensures ProcessMach(env, m, 0, 0, 0) == if m.ctxs[m.idx].last == -1 then Some(m) else RunMach(env, m)
  {
    hide RunMach;
    assert m.ctxs[m.idx := m.ctxs[m.idx]] == m.ctxs;
  }

  /** Take up a position and replay as far as that alone allows. */
  ghost function StartMach(env: Env, m: Mach, addr: nat): (r: Option<Mach>)
    requires MachOk(env, m)
    ensures r.Some? ==> MachOk(env, r.value) && r.value.pgd == m.pgd && r.value.en == m.en
  {
    match Position(env, m, addr)
    case None => None
    case Some(at) => if at.ctxs[at.idx].last == -1 then Some(at) else RunMach(env, at)
  }

  /** Started where no instruction is, the replay stops, or loses its position and changes nothing else;
      where one is, it goes on from there. */
  lemma StartMeans(env: Env, m: Mach, addr: nat)
    requires MachOk(env, m)
    ensures match Find(env, addr)
            case None =>
              StartMach(env, m, addr) == (if Resolve(env, m.pgd, addr) == Stop then None
                                          else Some(m.(ctxs := m.ctxs[m.idx := m.ctxs[m.idx].(last := -1)])))
            case Some(i) =>
              var at := m.(ctxs := m.ctxs[m.idx := m.ctxs[m.idx].(last := i)]);
              MachOk(env, at) && StartMach(env, m, addr) == RunMach(env, at)
  {
    PositionOk(env, m, addr);
    hide RunMach, CtxOk, MachOk;
  }

  /** `xed_async_enter`: a context on top, waiting for its position. */
  function Raise(m: Mach, src: nat): Mach
    requires m.idx + 1 < |m.ctxs|
  {
    m.(idx := m.idx + 1, ctxs := m.ctxs[m.idx + 1 := m.ctxs[m.idx + 1].(src := src)])
  }

  lemma RaiseOk(env: Env, m: Mach, src: nat)
    requires MachOk(env, m) && m.idx + 1 < MAX_NO_CTXS && Drained(m.ctxs[m.idx])
    ensures MachOk(env, Raise(m, src))
  {
  }

  /** An asynchronous transfer: `xed_async_enter`, then start at the handler. */
  ghost function EnterMach(env: Env, m: Mach, src: nat, dst: nat): (r: Option<Mach>)
    requires MachOk(env, m)
    ensures r.Some? ==> MachOk(env, r.value) && r.value.pgd == m.pgd && r.value.en == m.en
  {
    if !Drained(m.ctxs[m.idx]) then None
    else if m.idx + 1 >= MAX_NO_CTXS then None
    else
      RaiseOk(env, m, src);
      StartMach(env, Raise(m, src), dst)
  }

  /** It is refused exactly while packets are queued, in the last of the 25 contexts, or where the handler
      cannot be started with only the interrupted address in its context. */
  lemma EnterRefused(env: Env, m: Mach, src: nat, dst: nat)
    requires MachOk(env, m)
    ensures var c := m.ctxs[m.idx];
            EnterMach(env, m, src, dst) == None <==>
            || c.tnt != [] || c.tip != [] || m.idx >= 24
            || (var up := m.(idx := m.idx + 1, ctxs := m.ctxs[m.idx + 1 := m.ctxs[m.idx + 1].(src := src)]);
                MachOk(env, up) && StartMach(env, up, dst) == None)
  {
    hide StartMach, CtxOk;
    if Drained(m.ctxs[m.idx]) && m.idx < 24 {
      RaiseOk(env, m, src);
    }
  }

  // ---- The other packets that concern the replay ----

  /** An overflow: the process is unknown, every position is lost, compression is off. */
  function OverflowMach(m: Mach): Mach
    requires m.idx < |m.ctxs|
  {
    Reset(m).(pgd := 0, en := false)
  }

  lemma GlobalsOk(env: Env, m: Mach, pgd: nat, en: bool)
    requires MachOk(env, m)
    ensures MachOk(env, m.(pgd := pgd, en := en))
  {
  }

  /** Tracing is (re-)enabled at an address. */
  ghost function EnableMach(env: Env, m: Mach, addr: nat): (r: Option<Mach>)
    requires MachOk(env, m)
    ensures r.Some? ==> MachOk(env, r.value)
  {
    StartMach(env, m.(en := true), addr)
  }

  /** Tracing is disabled: nothing may be left over. */
  function DisableMach(m: Mach): Option<Mach>
    requires m.idx < |m.ctxs|
  {
    if Drained(m.ctxs[m.idx]) then Some(m.(en := false)) else None
  }

  // ---- Reading the log back ----

  /** The instructions logged at one depth, in order. */
  function AtDepth(log: seq<Visit>, depth: nat): seq<nat> {
    if log == [] then []
    else (if log[0].depth == depth then [log[0].inst] else []) + AtDepth(log[1..], depth)
  }

  lemma {:induction false} AtDepthConcat(a: seq<Visit>, b: seq<Visit>, depth: nat)
    ensures AtDepth(a + b, depth) == AtDepth(a, depth) + AtDepth(b, depth)
  {
    if a == [] {
      assert a + b == b;
    } else {
      var first := if a[0].depth == depth then [a[0].inst] else [];
      assert (a + b)[0] == a[0] && (a + b)[1..] == a[1..] + b;
      AtDepthConcat(a[1..], b, depth);
      assert first + (AtDepth(a[1..], depth) + AtDepth(b, depth)) == first + AtDepth(a[1..], depth) + AtDepth(b, depth);
    }
  }

  lemma {:induction false} AtDepthVisits(at: nat, path: seq<nat>, depth: nat)
    ensures AtDepth(Visits(at, path), depth) == if at == depth then path else []
  {
    if path != [] {
      assert Visits(at, path)[1..] == Visits(at, path[1..]);
      AtDepthVisits(at, path[1..], depth);
    }
  }
}
