/** The replayed call stack is the shadow stack of the executed path. */
module CallStack {
  import opened Options
  import opened Program
  import opened Replay
  import opened Execution

  predicate IsCall(env: Env, i: nat) {
    i < |env.insts| && (env.insts[i].kind.Call? || env.insts[i].kind.IndCall?)
  }

  predicate IsRet(env: Env, i: nat) {
    i < |env.insts| && env.insts[i].kind.Ret?
  }

  /** The calls of a path that are still open at its end, found by reading it backwards and letting
      each return cancel the nearest call before it; `skip` returns are already waiting for one. */
  function Open(env: Env, path: seq<nat>, skip: nat): seq<nat> {
    if path == [] then []
    else
      var i, before := path[|path| - 1], path[..|path| - 1];
      if IsRet(env, i) then Open(env, before, skip + 1)
      else if IsCall(env, i) && skip > 0 then Open(env, before, skip - 1)
      else if IsCall(env, i) then Open(env, before, 0) + [i]
      else Open(env, before, skip)
  }

  function DropLast(s: seq<nat>, k: nat): seq<nat> {
    if k <= |s| then s[..|s| - k] else []
  }

  /** Returns that wait for a call close the innermost open ones. */
  lemma {:induction false} OpenDrops(env: Env, path: seq<nat>, skip: nat)
    ensures Open(env, path, skip) == DropLast(Open(env, path, 0), skip)
  {
    if path != [] {
      var i, before := path[|path| - 1], path[..|path| - 1];
      var open := Open(env, before, 0);
      if IsRet(env, i) {
        OpenDrops(env, before, skip + 1);
        OpenDrops(env, before, 1);
      } else if IsCall(env, i) {
        if skip > 0 {
          OpenDrops(env, before, skip - 1);
        }
      } else {
        OpenDrops(env, before, skip);
      }
    }
  }

  /** The replayed stack lists exactly these calls, with the return addresses the decoder predicts. */
  ghost predicate Lists(env: Env, stack: seq<Frame>, calls: seq<nat>) {
    && |stack| == |calls|
    && forall k | 0 <= k < |stack| :: stack[k].call == calls[k] && stack[k].ret == RetAddr(env, calls[k])
  }

  /** Every near return in the acts goes back to the instruction after the call it closes. */
  ghost predicate Matched(env: Env, en: bool, p: Point, before: seq<nat>, acts: seq<Act>)
    requires p.at < |env.insts| && |p.stack| < CALL_STACK_LEN && PerformAll(env, en, p, acts).Some?
    decreases |acts|
  {
    acts == [] ||
    var open := Open(env, before, 0);
    && (IsRet(env, p.at) && open != [] ==> acts[0].Went? && acts[0].target == RetAddr(env, open[|open| - 1]))
    && Matched(env, en, Perform(env, en, p, acts[0]).value, before + [p.at], acts[1..])
  }

  lemma OpenOne(env: Env, before: seq<nat>, i: nat)
    ensures var open := Open(env, before, 0);
            Open(env, before + [i], 0) ==
            if IsRet(env, i) then DropLast(open, 1) else if IsCall(env, i) then open + [i] else open
  {
    assert (before + [i])[..|before|] == before;
    OpenDrops(env, before, 1);
  }

  lemma StackOfOne(env: Env, en: bool, p: Point, before: seq<nat>, act: Act)
    requires p.at < |env.insts| && |p.stack| < CALL_STACK_LEN && Perform(env, en, p, act).Some?
    requires Lists(env, p.stack, Open(env, before, 0))
    requires var open := Open(env, before, 0);
             IsRet(env, p.at) && open != [] ==> act.Went? && act.target == RetAddr(env, open[|open| - 1])
    ensures Lists(env, Perform(env, en, p, act).value.stack, Open(env, before + [p.at], 0))
  {
    OpenOne(env, before, p.at);
    hide Goes, Open, RetAddr, Reportable;
  }

  /** As long as returns match, the stack is the list of open calls. */
  lemma {:induction false} StackIsShadow(env: Env, en: bool, p: Point, before: seq<nat>, acts: seq<Act>)
    requires p.at < |env.insts| && |p.stack| < CALL_STACK_LEN && PerformAll(env, en, p, acts).Some?
    requires Lists(env, p.stack, Open(env, before, 0)) && Matched(env, en, p, before, acts)
    ensures Lists(env, PerformAll(env, en, p, acts).value.stack, Open(env, before + Path(env, en, p, acts), 0))
    decreases |acts|
  {
    hide Perform, Open;
    if acts == [] {
      assert before + [] == before;
    } else {
      StackOfOne(env, en, p, before, acts[0]);
      var q := Perform(env, en, p, acts[0]).value;
      StackIsShadow(env, en, q, before + [p.at], acts[1..]);
      assert before + [p.at] + Path(env, en, q, acts[1..]) == before + Path(env, en, p, acts);
    }
  }

  /** A return that no call predicted empties the stack, and from then on the stack is the list of the
      calls made and still open since. */
  lemma ShadowSinceMismatch(env: Env, en: bool, p: Point, target: nat, acts: seq<Act>)
    requires p.at < |env.insts| && |p.stack| < CALL_STACK_LEN && IsRet(env, p.at)
    requires p.stack == [] || p.stack[|p.stack| - 1].ret != target
    requires Perform(env, en, p, Went(target, false)).Some?
    requires var q := Perform(env, en, p, Went(target, false)).value;
             PerformAll(env, en, q, acts).Some? && Matched(env, en, q, [], acts)
    ensures var q := Perform(env, en, p, Went(target, false)).value;
            q.stack == [] && Lists(env, PerformAll(env, en, q, acts).value.stack, Open(env, Path(env, en, q, acts), 0))
  {
    var q := Perform(env, en, p, Went(target, false)).value;
    assert q.stack == [];
    hide Goes;
    StackIsShadow(env, en, q, [], acts);
    assert [] + Path(env, en, q, acts) == Path(env, en, q, acts);
  }

  // ---- Balanced segments ----

  /** Reading a segment backwards: how many of its returns (and of `skip` later ones) still wait for
      a call at its beginning. None if a call in it is never closed. */
  function Waiting(env: Env, segment: seq<nat>, skip: nat): Option<nat> {
    if segment == [] then Some(skip)
    else
      var i, before := segment[|segment| - 1], segment[..|segment| - 1];
      if IsRet(env, i) then Waiting(env, before, skip + 1)
      else if IsCall(env, i) then (if skip == 0 then None else Waiting(env, before, skip - 1))
      else Waiting(env, before, skip)
  }

  /** Every call is closed inside the segment and every return closes a call of it. */
  predicate Balanced(env: Env, segment: seq<nat>) {
    Waiting(env, segment, 0) == Some(0)
  }

  lemma {:induction false} SegmentCloses(env: Env, before: seq<nat>, segment: seq<nat>, skip: nat)
    requires Waiting(env, segment, skip).Some?
    ensures Open(env, before + segment, skip) == Open(env, before, Waiting(env, segment, skip).value)
    decreases |segment|
  {
    if segment == [] {
      assert before + segment == before;
    } else {
      var i, init := segment[|segment| - 1], segment[..|segment| - 1];
      assert (before + segment)[..|before + segment| - 1] == before + init;
      SegmentCloses(env, before, init,
                    if IsRet(env, i) then skip + 1 else if IsCall(env, i) then skip - 1 else skip);
    }
  }

  /** A balanced segment restores the call stack. */
  lemma BalancedRestores(env: Env, en: bool, p: Point, before: seq<nat>, acts: seq<Act>)
    requires p.at < |env.insts| && |p.stack| < CALL_STACK_LEN && PerformAll(env, en, p, acts).Some?
    requires Lists(env, p.stack, Open(env, before, 0)) && Matched(env, en, p, before, acts)
    requires Balanced(env, Path(env, en, p, acts))
    ensures var stack := PerformAll(env, en, p, acts).value.stack;
            |stack| == |p.stack| && forall k | 0 <= k < |stack| ::
              stack[k].call == p.stack[k].call && stack[k].ret == p.stack[k].ret
  {
    StackIsShadow(env, en, p, before, acts);
    SegmentCloses(env, before, Path(env, en, p, acts), 0);
  }

  /** The predicted return address is the next byte in memory whenever an instruction begins there. */
  lemma PredictionIsNextByte(env: Env, i: nat, j: nat)
    requires Sorted(env.insts) && i < |env.insts|
    requires StartsAt(env, env.insts[i].addr + env.insts[i].length, j)
    ensures RetAddr(env, i) == env.insts[i].addr + env.insts[i].length
  {
    FallThroughIsNext(env, i, j);
  }

  /** Whatever follows a call, the predicted return is the lowest address above the call's own at which an
      instruction begins, or 0 if there is none. */
  lemma PredictionIsLowest(env: Env, i: nat)
    requires Sorted(env.insts) && i < |env.insts|
    ensures forall k | 0 <= k < |env.insts| && env.insts[k].addr > env.insts[i].addr ::
              env.insts[i].addr < RetAddr(env, i) <= env.insts[k].addr
    ensures RetAddr(env, i) != 0 ==> exists k | 0 <= k < |env.insts| :: env.insts[k].addr == RetAddr(env, i)
    ensures (forall k | 0 <= k < |env.insts| :: env.insts[k].addr <= env.insts[i].addr) ==> RetAddr(env, i) == 0
  {
    forall k | 0 <= k < |env.insts| && env.insts[k].addr > env.insts[i].addr
      ensures env.insts[i].addr < RetAddr(env, i) <= env.insts[k].addr
    {
      assert k > i;
    }
  }
}
