/** Inputs on which the code does not do what one would expect, one for each exact condition that is not
    met. */
module Failures {
  import opened Options
  import opened Program
  import opened Replay
  import opened Execution
  import opened Stories
  import opened Kmaps
  import K = PacketLog
  import Mirrors
  import Ticks

  // ---- Ticks ----

  /** 300 ticks without a packet: 44 are counted. */
  lemma TicksMissed()
    ensures Ticks.Record(Ticks.AtTma(Ticks.Initial(), 7, 0), K.Mtc, (7 + 300) % 256, 0).ticks == 44
  {
  }

  /** 256 ticks lost with an overflow, on the anchor's phase: none is counted. */
  lemma LossMissed()
    ensures var anchored := Ticks.AtTma(Ticks.Initial(), 7, 0);
            var ticked := Ticks.Record(anchored, K.Mtc, (7 + 256) % 256, 0);
            var lost := Ticks.Record(ticked, K.Ovf, 0, 0);
            ticked.ticks == 256 && Ticks.Record(lost, K.Mtc, (7 + 512) % 256, 0).ticks == 256
  {
  }

  // ---- A bit that arrives before the target of a return ----

  /** A call, a conditional branch behind it, and the called function, which returns at once. */
  function CallAndBranch(): Env {
    Env([Inst(0x1000, 5, Call(0x2000)), Inst(0x1005, 2, Cond(0x1005)), Inst(0x2000, 1, Ret)],
        Layout(0x8000, 0x8000, 0x9000, [], [], 1, true))
  }

  lemma BranchFound()
    ensures Find(CallAndBranch(), 0x1005) == Some(1)
  {
    var insts := CallAndBranch().insts;
    assert Sorted(insts);
    ScanIsUnique(insts, 0x1005, 1);
  }

  /** With the branch's bit queued early, the return to the branch stops the decoder; from its target
      alone it is replayed. */
  lemma EarlyBitStops()
    ensures var env, stack := CallAndBranch(), [Frame(0, 0x1005, true)];
            && Decide(env, 1, true, 2, stack, Some(Bit(false, true)), Some(0x1005)) == Halt
            && Decide(env, 1, true, 2, stack, None, Some(0x1005)) == Go(1, [], false, true, false)
  {
    BranchFound();
  }

  // ---- An interrupt that does not end ----

  /** A conditional branch, a plain instruction and an indirect jump; and a handler. */
  function Interruptible(): Env {
    Env([Inst(0x1000, 2, Cond(0x1000)), Inst(0x1002, 1, Plain), Inst(0x1003, 2, IndJump), Inst(0x2000, 2, Iret)],
        Layout(0x8000, 0x8000, 0x9000, [], [], 1, false))
  }

  /** The plain instruction is interrupted. */
  function Unfinished(): World {
    World([Level(0, On(Point(1, []))), Level(0x1002, On(Point(3, [])))], [Mark(0, 0, true)])
  }

  lemma JumpFound()
    ensures StartIndex(Interruptible(), 0x1003) == Some(2)
  {
    var insts := Interruptible().insts;
    assert Sorted(insts);
    ScanIsUnique(insts, 0x1003, 2);
  }

  /** The replay has already executed the plain instruction, which the processor has not. */
  lemma RunsAhead()
    ensures var env, w := Interruptible(), Unfinished();
            && WorldOk(env, w) && AllSettle(env, true, w.levels)
            && Shown(env, true, w, 0) == [0, 1] && ExecutedAt(w.log, 0) == [0]
  {
    var env, w := Interruptible(), Unfinished();
    JumpFound();
    assert Perform(env, true, Point(1, []), Fall) == Some(Point(2, []));
    assert [Fall][1..] == [];
    assert Coasts(env, true, Point(1, []), [Fall]) && Path(env, true, Point(1, []), [Fall]) == [1];
    hide Find, StartIndex, Perform, Coasts;
    CoastUnique(env, true, Point(1, []), [Fall]);
    StarvedSettles(env, true, Point(3, []));
    assert w.log[1..] == [];
  }

  // ---- Reading through the mirror ----

  /** After new mappings were handed over, fewer than before, a covered address is not found. */
  lemma StaleProbeMisses()
    ensures var slots := [Kmap(0x5000, 0x6000, 0x70000), Kmap(0x3000, 0x4000, 0x80000)];
            Covers(slots[0], 0x5500) && SearchIn(slots, 1, 1, 0x5500) == (0, 1)
  {
  }

  const START: nat := 0x7000_0000_0000

  function ThreePages(): Process {
    Process(0x1000, 0x2000, START, [Vma(START, START + 3 * PAGE, true, true, false, false, false, 0, false)])
  }

  lemma MiddleMissing()
    ensures AllPages(ThreePages(), ThreePages().vmas, {START, START + 2 * PAGE})
            == [Page(START, START, START + 3 * PAGE), Page(START + 2 * PAGE, START, START + 3 * PAGE)]
  {
    var pinned := {START, START + 2 * PAGE};
    var v := ThreePages().vmas[0];
    assert PagesFrom(v, START + 3 * PAGE, pinned) == [];
    assert PagesFrom(v, START + 2 * PAGE, pinned) == [Page(START + 2 * PAGE, START, v.end)];
    assert PagesFrom(v, START + PAGE, pinned) == [Page(START + 2 * PAGE, START, v.end)];
    assert Selected(ThreePages(), v);
    assert AllPages(ThreePages(), [], pinned) == [];
  }

  /** A mapping of three pages whose middle one could not be pinned: the answer for the middle page shows
      the last. */
  lemma MiddleShowsLast()
    ensures var pages, remapped := Mirrors.Collected(ThreePages(), {START, START + 2 * PAGE}), {0, 1};
            var table := KmapsFrom(pages, remapped, 0x10000, 0);
            Mirrors.Behind(pages, remapped, 0x10000, Search(table, 0, START + PAGE).0) == Some(START + 2 * PAGE)
  {
    MiddleMissing();
    var pages, remapped := Mirrors.Collected(ThreePages(), {START, START + 2 * PAGE}), {0, 1};
    assert KmapsFrom(pages, remapped, 0x10000, 2) == [];
    assert KmapsFrom(pages, remapped, 0x10000, 1) == [];
    assert KmapsFrom(pages, remapped, 0x10000, 0) == [Kmap(START, START + 3 * PAGE, 0x10000)];
  }

  function Neighbours(): Process {
    Process(0x1000, 0x2000, START, [Vma(START, START + 2 * PAGE, true, true, false, false, false, 0, false),
                                    Vma(START + 2 * PAGE, START + 3 * PAGE, true, true, false, false, false, 0, false)])
  }

  lemma SecondMissing()
    ensures AllPages(Neighbours(), Neighbours().vmas, {START, START + 2 * PAGE})
            == [Page(START, START, START + 2 * PAGE), Page(START + 2 * PAGE, START + 2 * PAGE, START + 3 * PAGE)]
  {
    var p, pinned := Neighbours(), {START, START + 2 * PAGE};
    var v, w := p.vmas[0], p.vmas[1];
    assert PagesFrom(v, START + 2 * PAGE, pinned) == [];
    assert PagesFrom(v, START + PAGE, pinned) == [];
    assert PagesFrom(w, START + 3 * PAGE, pinned) == [];
    assert Selected(p, v) && Selected(p, w);
    assert p.vmas[1..] == [w] && [w][1..] == [];
    assert AllPages(p, [], pinned) == [];
    assert AllPages(p, [w], pinned) == [Page(START + 2 * PAGE, START + 2 * PAGE, START + 3 * PAGE)];
  }

  /** A mapping of two pages whose second could not be pinned, and a mapping that begins where it ends: at
      the shared address the answer depends on the lookup before, and one of the two shows nothing. */
  lemma TwoAnswers()
    ensures var pages, remapped := Mirrors.Collected(Neighbours(), {START, START + 2 * PAGE}), {0, 1};
            var table, x := KmapsFrom(pages, remapped, 0x10000, 0), START + 2 * PAGE;
            && |table| == 2
            && Search(table, 0, x).0 == 0x12000 && Mirrors.Behind(pages, remapped, 0x10000, 0x12000) == None
            && Search(table, 1, x).0 == 0x11000 && Mirrors.Behind(pages, remapped, 0x10000, 0x11000) == Some(x)
  {
    SecondMissing();
    var pages, remapped := Mirrors.Collected(Neighbours(), {START, START + 2 * PAGE}), {0, 1};
    assert KmapsFrom(pages, remapped, 0x10000, 2) == [];
    assert KmapsFrom(pages, remapped, 0x10000, 1) == [Kmap(START + 2 * PAGE, START + 3 * PAGE, 0x11000)];
    assert KmapsFrom(pages, remapped, 0x10000, 0)
      == [Kmap(START, START + 2 * PAGE, 0x10000), Kmap(START + 2 * PAGE, START + 3 * PAGE, 0x11000)];
  }
}
