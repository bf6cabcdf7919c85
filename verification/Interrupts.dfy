/** Interrupts are transparent: a handler that is served completely leaves the interrupted context,
    and everything below it, as if it had not happened. */
module Interrupts {
  import opened Options
  import opened Program
  import opened Replay
  import opened ReplayTheory
  import opened Machine

  /** Packets for one depth, with complete interrupts (the interrupted address, the handler's
      address, and the handler's own packets) in between. */
  datatype Events =
    | Done
    | Fed(f: Feed, rest: Events)
    | Int(src: nat, dst: nat, body: Events, rest: Events)

  ghost function PlayAll(env: Env, m: Mach, evs: Events): (r: Option<Mach>)
    requires MachOk(env, m)
    ensures r.Some? ==> MachOk(env, r.value) && r.value.pgd == m.pgd && r.value.en == m.en
    decreases evs
  {
    match evs
    case Done => Some(m)
    case Fed(f, rest) =>
      (match FeedMach(env, m, f)
       case None => None
       case Some(next) => PlayAll(env, next, rest))
    case Int(src, dst, body, rest) =>
      match EnterMach(env, m, src, dst)
      case None => None
      case Some(entered) =>
        match PlayAll(env, entered, body)
        case None => None
        case Some(left) => PlayAll(env, left, rest)
  }

  function Nesting(evs: Events): nat {
    match evs
    case Done => 0
    case Fed(_, rest) => Nesting(rest)
    case Int(_, _, body, rest) =>
      var inner := 1 + Nesting(body);
      if inner > Nesting(rest) then inner else Nesting(rest)
  }

  /** One context on its own, with every interrupt deleted, provided each arrives when nothing is
      queued and its handler is served completely. An interrupt return must come last. */
  ghost function PlayLevel(env: Env, pgd: nat, en: bool, c: Ctx, evs: Events): (o: Outcome<Ctx>)
    requires CtxOk(env, c)
    ensures !o.Halted? ==> CtxOk(env, o.state) && o.state.src == c.src
    decreases evs, 0
  {
    match evs
    case Done => Paused(c, [])
    case Fed(f, rest) =>
      (match FeedCtx(env, pgd, en, c, f)
       case Paused(next, path) => Prefix(path, PlayLevel(env, pgd, en, next, rest))
       case Exited(next, tip, path) => if rest.Done? then Exited(next, tip, path) else Halted
       case Halted => Halted)
    case Int(src, dst, body, rest) =>
      if Drained(c) && Served(env, pgd, en, src, dst, body) then PlayLevel(env, pgd, en, c, rest) else Halted
  }

  /** A handler replayed alone, from its first instruction. */
  ghost function PlayHandler(env: Env, pgd: nat, en: bool, src: nat, dst: nat, body: Events): (o: Outcome<Ctx>)
    ensures !o.Halted? ==> CtxOk(env, o.state) && o.state.src == src
    decreases body, 1
  {
    match Resolve(env, pgd, dst)
    case At(i) =>
      var start := Run(env, pgd, en, Ctx(src, i, [], [], []));
      if start.Paused? then Prefix(start.path, PlayLevel(env, pgd, en, start.state, body)) else Halted
    case _ => Halted
  }

  /** It ends by returning to the interrupted address, with balanced calls and nothing queued. */
  ghost predicate Served(env: Env, pgd: nat, en: bool, src: nat, dst: nat, body: Events)
    decreases body, 2
  {
    var o := PlayHandler(env, pgd, en, src, dst, body);
    src != 0 && o.Exited? && o.tip == src && o.state.last >= 0 && o.state.stack == [] && Drained(o.state)
  }

  /** What the handlers among the events execute, d levels further up. */
  ghost function Above(env: Env, pgd: nat, en: bool, evs: Events, d: nat): seq<nat>
    requires d > 0
    decreases evs, 0
  {
    match evs
    case Done => []
    case Fed(_, rest) => Above(env, pgd, en, rest, d)
    case Int(src, dst, body, rest) =>
      Share(env, pgd, en, src, dst, body, d) + Above(env, pgd, en, rest, d)
  }

  /** The part of it that one handler executes. */
  ghost function Share(env: Env, pgd: nat, en: bool, src: nat, dst: nat, body: Events, d: nat): seq<nat>
    requires d > 0
    decreases body, 1
  {
    var o := PlayHandler(env, pgd, en, src, dst, body);
    if d > 1 then Above(env, pgd, en, body, d - 1) else if o.Halted? then [] else o.path
  }

  /** The machine between two points of a level: everything below is untouched, the log has grown by
      `own` at the level itself and by what the handlers executed above it. */
  ghost predicate Extends(env: Env, before: Mach, after: Mach, level: nat, own: seq<nat>, evs: Events)
  {
    && |after.ctxs| == |before.ctxs| && level <= |before.ctxs|
    && after.ctxs[..level] == before.ctxs[..level]
    && forall d: nat :: AtDepth(after.log, d) == AtDepth(before.log, d) + Grown(env, before, level, own, evs, d)
  }

  ghost function Grown(env: Env, m: Mach, level: nat, own: seq<nat>, evs: Events, d: nat): seq<nat>
  {
    if d < level then [] else if d == level then own else Above(env, m.pgd, m.en, evs, d - level)
  }

  lemma PutGrows(env: Env, m: Mach, c: Ctx, path: seq<nat>, d: nat)
    requires m.idx < |m.ctxs|
    ensures AtDepth(Put(m, c, path).log, d) == AtDepth(m.log, d) + if d == m.idx then path else []
  {
    AtDepthConcat(m.log, Visits(m.idx, path), d);
    AtDepthVisits(m.idx, path, d);
  }

  /** The conditions under which an interrupt return closes the active context quietly. */
  ghost predicate ReturnsHome(env: Env, m: Mach, o: Outcome<Ctx>)
    requires MachOk(env, m) && o.Exited?
  {
    && m.idx >= 1
    && o.tip == o.state.src && o.state.last >= 0 && o.state.stack == [] && Drained(o.state)
    && Settled(env, m.pgd, m.en, m.ctxs[m.idx - 1])
  }

  /** A packet that leaves the position inside the context. */
  lemma FeedPauses(env: Env, m: Mach, f: Feed)
    requires MachOk(env, m)
    requires FeedCtx(env, m.pgd, m.en, m.ctxs[m.idx], f).Paused?
    requires Settled(env, m.pgd, m.en, m.ctxs[m.idx])
    ensures var o := FeedCtx(env, m.pgd, m.en, m.ctxs[m.idx], f);
            && FeedMach(env, m, f) == Some(Put(m, o.state, o.path))
            && Settled(env, m.pgd, m.en, o.state)
  {
    hide Run, Decide;
    var c := m.ctxs[m.idx];
    if c.last == -1 {
      assert m.ctxs[m.idx := c] == m.ctxs;
      assert m.log + Visits(m.idx, []) == m.log;
    } else {
      var q := Queue(env, m.en, c, f).value;
      QueueView(env, m.en, c, f);
      PauseIsStarved(env, m.pgd, m.en, q);
      var o := Run(env, m.pgd, m.en, q);
      assert m.ctxs[m.idx := q][m.idx := o.state] == m.ctxs[m.idx := o.state];
    }
  }

  /** A packet that ends the handler: the context below is active again and does not move. */
  lemma FeedReturns(env: Env, m: Mach, f: Feed)
    requires MachOk(env, m)
    requires var o := FeedCtx(env, m.pgd, m.en, m.ctxs[m.idx], f);
             o.Exited? && ReturnsHome(env, m, o)
    ensures var o := FeedCtx(env, m.pgd, m.en, m.ctxs[m.idx], f);
            FeedMach(env, m, f) == Some(Put(m, o.state, o.path).(idx := m.idx - 1))
  {
    hide Run, Decide;
    var c := m.ctxs[m.idx];
    var q := Queue(env, m.en, c, f).value;
    QueueView(env, m.en, c, f);
    var o := Run(env, m.pgd, m.en, q);
    assert m.ctxs[m.idx := q][m.idx := o.state] == m.ctxs[m.idx := o.state];
    var back := Put(m, o.state, o.path).(idx := m.idx - 1);
    assert back.ctxs[back.idx] == m.ctxs[m.idx - 1];
    assert back.ctxs[back.idx := back.ctxs[back.idx]] == back.ctxs;
    assert back.log + Visits(back.idx, []) == back.log;
    assert RunMach(env, back) == Some(back);
  }

  /** Entering a handler puts a fresh context above the interrupted one. */
  lemma EnterStarts(env: Env, m: Mach, src: nat, dst: nat, i: nat)
    requires MachOk(env, m) && m.idx + 1 < MAX_NO_CTXS
    requires Drained(m.ctxs[m.idx]) && Resolve(env, m.pgd, dst) == At(i)
    requires Run(env, m.pgd, m.en, Ctx(src, i, [], [], [])).Paused?
    ensures var o := Run(env, m.pgd, m.en, Ctx(src, i, [], [], []));
            && EnterMach(env, m, src, dst) == Some(Put(m.(idx := m.idx + 1), o.state, o.path))
            && Settled(env, m.pgd, m.en, o.state)
  {
    hide Run, Decide, Resolve;
    var up := m.idx + 1;
    var blank := Ctx(src, i, [], [], []);
    var o := Run(env, m.pgd, m.en, blank);
    PauseIsStarved(env, m.pgd, m.en, blank);
    var entered := Raise(m, src);
    assert MachOk(env, entered);
    var at := entered.(ctxs := entered.ctxs[up := entered.ctxs[up].(last := i)]);
    assert at.ctxs[up] == blank;
    assert at.ctxs[up := o.state] == m.ctxs[up := o.state];
  }

  /** What a packet executes comes before what the later events execute. */
  lemma FedExtends(env: Env, m: Mach, c: Ctx, path: seq<nat>, r: Mach, own: seq<nat>, f: Feed, rest: Events)
    requires m.idx < |m.ctxs|
    requires Extends(env, Put(m, c, path), r, m.idx, own, rest)
    ensures Extends(env, m, r, m.idx, path + own, Fed(f, rest))
  {
    var next := Put(m, c, path);
    assert next.ctxs[..m.idx] == m.ctxs[..m.idx];
    forall d: nat
      ensures AtDepth(r.log, d) == AtDepth(m.log, d) + Grown(env, m, m.idx, path + own, Fed(f, rest), d)
    {
      PutGrows(env, m, c, path, d);
      assert AtDepth(r.log, d) == AtDepth(next.log, d) + Grown(env, next, m.idx, own, rest, d);
    }
  }

  lemma GrownInt(env: Env, m: Mach, own: seq<nat>, src: nat, dst: nat, body: Events, rest: Events, d: nat)
    ensures Grown(env, m, m.idx, own, Int(src, dst, body, rest), d)
            == Grown(env, m, m.idx, [], Int(src, dst, body, Done), d) + Grown(env, m, m.idx, own, rest, d)
  {
    if d > m.idx {
      var share := Share(env, m.pgd, m.en, src, dst, body, d - m.idx);
      assert share + Above(env, m.pgd, m.en, Done, d - m.idx) == share;
    }
  }

  lemma IntExtends(env: Env, m: Mach, left: Mach, r: Mach, own: seq<nat>, src: nat, dst: nat, body: Events,
                   rest: Events)
    requires m.idx < |m.ctxs|
    requires left.pgd == m.pgd && left.en == m.en
    requires Extends(env, m, left, m.idx, [], Int(src, dst, body, Done))
    requires Extends(env, left, r, m.idx, own, rest)
    ensures Extends(env, m, r, m.idx, own, Int(src, dst, body, rest))
  {
    forall d: nat
      ensures AtDepth(r.log, d) == AtDepth(m.log, d) + Grown(env, m, m.idx, own, Int(src, dst, body, rest), d)
    {
      var first := Grown(env, m, m.idx, [], Int(src, dst, body, Done), d);
      var later := Grown(env, m, m.idx, own, rest, d);
      GrownInt(env, m, own, src, dst, body, rest, d);
      assert AtDepth(left.log, d) == AtDepth(m.log, d) + first;
      assert AtDepth(r.log, d) == AtDepth(left.log, d) + later by {
        assert Grown(env, left, m.idx, own, rest, d) == later;
      }
      assert AtDepth(m.log, d) + first + later == AtDepth(m.log, d) + (first + later);
    }
  }

  /** Playing a level on the machine is playing its context alone; deeper levels are the handlers. */
  lemma {:induction false} LevelPlays(env: Env, m: Mach, evs: Events)
    requires MachOk(env, m)
    requires m.idx + Nesting(evs) < MAX_NO_CTXS
    requires Settled(env, m.pgd, m.en, m.ctxs[m.idx])
    requires var o := PlayLevel(env, m.pgd, m.en, m.ctxs[m.idx], evs);
             !o.Halted? && (o.Exited? ==> ReturnsHome(env, m, o))
    ensures var o := PlayLevel(env, m.pgd, m.en, m.ctxs[m.idx], evs);
            var r := PlayAll(env, m, evs);
            && r.Some?
            && (o.Paused? ==>
                  r.value.idx == m.idx && r.value.ctxs[m.idx] == o.state && Settled(env, m.pgd, m.en, o.state))
            && (o.Exited? ==> r.value.idx == m.idx - 1)
            && Extends(env, m, r.value, m.idx, o.path, evs)
    decreases evs, 0
  {
    hide Run, Decide, FeedCtx, FeedMach, EnterMach, Extends, CtxOk;
    match evs {
      case Done =>
        NothingExtends(env, m);
      case Fed(f, rest) =>
        var o := FeedCtx(env, m.pgd, m.en, m.ctxs[m.idx], f);
        if o.Paused? {
          FeedPauses(env, m, f);
          var next := Put(m, o.state, o.path);
          LevelPlays(env, next, rest);
          FedExtends(env, m, o.state, o.path, PlayAll(env, next, rest).value,
                     PlayLevel(env, m.pgd, m.en, o.state, rest).path, f, rest);
        } else {
          FeedReturns(env, m, f);
          var back := Put(m, o.state, o.path).(idx := m.idx - 1);
          NothingExtends(env, Put(m, o.state, o.path));
          assert o.path + [] == o.path;
          FedExtends(env, m, o.state, o.path, back, [], f, Done);
        }
      case Int(src, dst, body, rest) =>
        InterruptPlays(env, m, src, dst, body);
        var left := PlayAll(env, EnterMach(env, m, src, dst).value, body).value;
        LevelPlays(env, left, rest);
        IntExtends(env, m, left, PlayAll(env, left, rest).value,
                   PlayLevel(env, m.pgd, m.en, m.ctxs[m.idx], rest).path, src, dst, body, rest);
    }
  }

  lemma NothingExtends(env: Env, m: Mach)
    requires m.idx < |m.ctxs|
    ensures Extends(env, m, m, m.idx, [], Done)
    ensures forall i :: Extends(env, m, m.(idx := i), m.idx, [], Done)
  {
  }

  /** One complete interrupt: the machine is back where it was, and only the log has grown. */
  lemma {:induction false} InterruptPlays(env: Env, m: Mach, src: nat, dst: nat, body: Events)
    requires MachOk(env, m)
    requires m.idx + 1 + Nesting(body) < MAX_NO_CTXS
    requires Settled(env, m.pgd, m.en, m.ctxs[m.idx]) && Drained(m.ctxs[m.idx])
    requires Served(env, m.pgd, m.en, src, dst, body)
    ensures EnterMach(env, m, src, dst).Some?
    ensures var r := PlayAll(env, EnterMach(env, m, src, dst).value, body);
            && r.Some?
            && r.value.idx == m.idx
            && r.value.ctxs[m.idx] == m.ctxs[m.idx]
            && (m.idx >= 1 ==> r.value.ctxs[m.idx - 1] == m.ctxs[m.idx - 1])
            && Extends(env, m, r.value, m.idx, [], Int(src, dst, body, Done))
    decreases body, 1
  {
    hide Run, Decide, FeedCtx, FeedMach, EnterMach;
    var i := Resolve(env, m.pgd, dst).index;
    EnterStarts(env, m, src, dst, i);
    var start := Run(env, m.pgd, m.en, Ctx(src, i, [], [], []));
    var up := m.(idx := m.idx + 1);
    var entered := Put(up, start.state, start.path);
    assert entered.ctxs[..m.idx + 1] == m.ctxs[..m.idx + 1];
    LevelPlays(env, entered, body);
    HandlerExtends(env, m, start.state, start.path, PlayAll(env, entered, body).value, src, dst, body);
  }

  lemma HandlerExtends(env: Env, m: Mach, c: Ctx, path: seq<nat>, r: Mach, src: nat, dst: nat, body: Events)
    requires m.idx + 1 < |m.ctxs|
    requires PlayHandler(env, m.pgd, m.en, src, dst, body).Exited?
    requires Resolve(env, m.pgd, dst).At?
    requires Run(env, m.pgd, m.en, Ctx(src, Resolve(env, m.pgd, dst).index, [], [], [])) == Paused(c, path)
    requires Extends(env, Put(m.(idx := m.idx + 1), c, path), r, m.idx + 1,
                     PlayLevel(env, m.pgd, m.en, c, body).path, body)
    ensures Extends(env, m, r, m.idx, [], Int(src, dst, body, Done))
    ensures r.ctxs[m.idx] == m.ctxs[m.idx]
    ensures m.idx >= 1 ==> r.ctxs[m.idx - 1] == m.ctxs[m.idx - 1]
  {
    hide Run, Decide, FeedCtx, Resolve, PlayLevel;
    var up := m.(idx := m.idx + 1);
    var entered := Put(up, c, path);
    var own := PlayLevel(env, m.pgd, m.en, c, body).path;
    assert entered.ctxs[..m.idx + 1] == m.ctxs[..m.idx + 1];
    assert r.ctxs[..m.idx] == r.ctxs[..m.idx + 1][..m.idx] == m.ctxs[..m.idx];
    assert r.ctxs[m.idx] == r.ctxs[..m.idx + 1][m.idx];
    assert m.idx >= 1 ==> r.ctxs[m.idx - 1] == r.ctxs[..m.idx + 1][m.idx - 1];
    assert PlayHandler(env, m.pgd, m.en, src, dst, body).path == path + own;
    forall d: nat
      ensures AtDepth(r.log, d) == AtDepth(m.log, d) + Grown(env, m, m.idx, [], Int(src, dst, body, Done), d)
    {
      PutGrows(env, up, c, path, d);
      assert AtDepth(r.log, d) == AtDepth(entered.log, d) + Grown(env, entered, m.idx + 1, own, body, d);
      if d > m.idx {
        var share := Share(env, m.pgd, m.en, src, dst, body, d - m.idx);
        assert share + Above(env, m.pgd, m.en, Done, d - m.idx) == share;
        if d == m.idx + 1 {
          assert AtDepth(m.log, d) + path + own == AtDepth(m.log, d) + (path + own);
        } else {
          assert AtDepth(m.log, d) + [] == AtDepth(m.log, d);
        }
      } else {
        assert AtDepth(m.log, d) + [] == AtDepth(m.log, d);
      }
    }
  }

  // ---- Interrupts deleted ----

  function Delete(evs: Events): Events {
    match evs
    case Done => Done
    case Fed(f, rest) => Fed(f, Delete(rest))
    case Int(_, _, _, rest) => Delete(rest)
  }

  lemma {:induction false} DeleteSame(env: Env, pgd: nat, en: bool, c: Ctx, evs: Events)
    requires CtxOk(env, c)
    requires !PlayLevel(env, pgd, en, c, evs).Halted?
    ensures PlayLevel(env, pgd, en, c, Delete(evs)) == PlayLevel(env, pgd, en, c, evs)
    ensures Nesting(Delete(evs)) == 0
    decreases evs
  {
    hide FeedCtx, Run, Decide;
    match evs {
      case Done =>
      case Fed(f, rest) =>
        var o := FeedCtx(env, pgd, en, c, f);
        if o.Paused? {
          DeleteSame(env, pgd, en, o.state, rest);
        }
      case Int(_, _, _, rest) =>
        DeleteSame(env, pgd, en, c, rest);
    }
  }

  /** With and without its interrupts, a level ends in the same context, below it nothing differs,
      and the path logged at its own depth is the same. */
  lemma InterruptsTransparent(env: Env, m: Mach, evs: Events)
    requires MachOk(env, m)
    requires m.idx + Nesting(evs) < MAX_NO_CTXS
    requires Settled(env, m.pgd, m.en, m.ctxs[m.idx])
    requires PlayLevel(env, m.pgd, m.en, m.ctxs[m.idx], evs).Paused?
    ensures var a, b := PlayAll(env, m, evs), PlayAll(env, m, Delete(evs));
            && a.Some? && b.Some?
            && a.value.idx == b.value.idx == m.idx
            && a.value.ctxs[..m.idx + 1] == b.value.ctxs[..m.idx + 1]
            && (forall d: nat | d <= m.idx :: AtDepth(a.value.log, d) == AtDepth(b.value.log, d))
  {
    hide PlayLevel, PlayAll, Run, Decide;
    DeleteSame(env, m.pgd, m.en, m.ctxs[m.idx], evs);
    LevelPlays(env, m, evs);
    LevelPlays(env, m, Delete(evs));
    var a, b := PlayAll(env, m, evs).value, PlayAll(env, m, Delete(evs)).value;
    assert a.ctxs[..m.idx + 1] == a.ctxs[..m.idx] + [a.ctxs[m.idx]];
    assert b.ctxs[..m.idx + 1] == b.ctxs[..m.idx] + [b.ctxs[m.idx]];
    var own := PlayLevel(env, m.pgd, m.en, m.ctxs[m.idx], evs).path;
    forall d: nat | d <= m.idx ensures AtDepth(a.log, d) == AtDepth(b.log, d) {
      assert AtDepth(a.log, d) == AtDepth(m.log, d) + Grown(env, m, m.idx, own, evs, d);
      assert AtDepth(b.log, d) == AtDepth(m.log, d) + Grown(env, m, m.idx, own, Delete(evs), d);
    }
  }
}
