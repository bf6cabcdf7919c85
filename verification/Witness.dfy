/** A program and an execution with an interrupt, to which the path theorem applies: its premises can be
    met, and its conclusion names the instructions one expects. */
module Witness {
  import opened Options
  import opened Program
  import opened ReplayTheory
  import opened Machine
  import opened Execution
  import opened Outcomes
  import opened Reconstruction
  import Interrupts
  import Silent

  /** A conditional branch and an indirect jump behind it in user space; in the kernel an interrupt handler
      that returns at once, and an endless loop that is never executed. */
  const ENTRY: nat := 0xFFFF_FFFF_8100_0000
  const BRANCH := Inst(0x1000, 2, Cond(0x1000))
  const JUMP := Inst(0x1002, 2, IndJump)
  const HANDLER := Inst(ENTRY, 2, Iret)
  const LOOP := Inst(ENTRY + 0x1000, 2, Jump(ENTRY + 0x1000))

  function Example(): Env {
    Env([BRANCH, JUMP, HANDLER, LOOP], Layout(0x8000_0000_0000, ENTRY, 0xFFFF_FFFF_C000_0000, [], [], 1, false))
  }

  /** An interrupt at the branch, then the branch is not taken; the target of the jump never comes. */
  function Interrupted(): Trace {
    Irq([], ENTRY, Leave([], 0x1000), Sent([Took(false)], Bits(0, 1), End([])))
  }

  lemma FindsAt(i: nat)
    requires i < 4
    ensures StartIndex(Example(), Example().insts[i].addr) == Some(i)
  {
    var env := Example();
    assert Sorted(env.insts);
    ScanIsUnique(env.insts, env.insts[i].addr, i);
  }

  /** The table as a whole has a cycle. */
  lemma HasCycle()
    ensures !Silent.NoSilentCycle(Example())
  {
    FindsAt(3);
    assert Silent.Next(Example(), 3) == Some(3);
    assert Silent.After(Example(), 3, 1) == Some(3);
  }

  lemma ExampleApplies()
    ensures !Silent.NoSilentCycle(Example()) && Sorted(Example().insts)
    ensures Valid(Example(), true, Point(0, []), Interrupted(), None)
    ensures Own(Example(), true, Point(0, []), Interrupted(), None) == [0]
    ensures Inner(Example(), true, Point(0, []), Interrupted(), None, 1) == [2]
  {
    var env := Example();
    HasCycle();
    FindsAt(0);
    FindsAt(1);
    FindsAt(2);
    hide Find, StartIndex;
    assert Perform(env, true, Point(0, []), Took(false)) == Some(Point(1, []));
  }

  lemma ExampleStarts()
    ensures var env, m := Example(), Initial().(en := true);
            && MachOk(env, Initial()) && MachOk(env, m) && Drained(m.ctxs[0]) && m.ctxs[0].stack == [] && m.log == []
            && StartsAt(env, 0x1000, 0)
    ensures Depth(Interrupted()) == 1
  {
    FindsAt(0);
    hide Find;
  }

  lemma Logged()
    ensures AtDepth([], 0) + [0] == [0] && AtDepth([], 1) + [2] == [2]
  {
  }

  /** From the first machine the replay of this execution's packets logs the branch at the outermost
      level and the handler's return one level above. */
  lemma ExampleReplayed()
    ensures MachOk(Example(), Initial().(en := true))
    ensures Valid(Example(), true, Point(0, []), Interrupted(), None)
    ensures var start := StartMach(Example(), Initial().(en := true), 0x1000);
            && start.Some?
            && var r := Interrupts.PlayAll(Example(), start.value,
               Emit(Example(), true, Point(0, []), Interrupted(), None));
               && r.Some? && r.value.idx == 0
               && AtDepth(r.value.log, 0) == [0]
               && AtDepth(r.value.log, 1) == [2]
  {
    ExampleApplies();
    ExampleStarts();
    Logged();
    hide MachOk, Valid, Own, Inner, Emit, StartMach, Interrupts.PlayAll, Find, Example, AtDepth;
    PathRecovered(Example(), Initial().(en := true), 0x1000, 0, Interrupted());
  }
}
