/** What a processor executed, and that the replay of its packets executes the same. A trace lists,
    level by level, the acts of the processor with the packets that report them. Every near return
    whose target the decoder predicts may be reported as a taken bit when return compression is in
    use. */
module Execution {
  import opened Options
  import opened Program
  import opened Replay
  import Silent

  /** What the processor did at one instruction: nothing to report, a conditional branch, or a jump
      to an address the program does not fix. */
  datatype Act =
    | Fall
    | Took(taken: bool)
    | Went(target: nat, compressed: bool)

  /** An instruction about to be executed, and the decoder's call stack there. */
  datatype Point = Point(at: nat, stack: seq<Frame>)

  /** The instruction whose first byte is at the address. */
  function StartIndex(env: Env, addr: nat): (r: Option<nat>)
    ensures r.Some? ==> StartsAt(env, addr, r.value)
  {
    match Find(env, addr)
    case Some(i) => if env.insts[i].addr == addr then Some(i) else None
    case None => None
  }

  /** The next instruction executed; None if the act is impossible there or leads outside the table.
      Control passes to the next byte in memory, not to the next table entry. */
  function Goes(env: Env, i: nat, act: Act): (r: Option<nat>)
    requires i < |env.insts|
    ensures r.Some? ==> r.value < |env.insts|
  {
    var inst := env.insts[i];
    var next := inst.addr + inst.length;
    match act
    case Fall =>
      (match inst.kind
       case Plain => StartIndex(env, next)
       case Jump(target) => StartIndex(env, target)
       case Call(target) => StartIndex(env, target)
       case _ => None)
    case Took(taken) =>
      (match inst.kind
       case Cond(target) => StartIndex(env, if taken then target else next)
       case _ => None)
    case Went(target, _) =>
      match inst.kind
      case IndJump | IndCall | Ret | Far => StartIndex(env, target)
      case _ => None
  }

  /** The call stack after the act. */
  function Stacked(env: Env, en: bool, p: Point, act: Act): seq<Frame>
    requires p.at < |env.insts|
  {
    match env.insts[p.at].kind
    case Call(_) | IndCall => p.stack + [Frame(p.at, RetAddr(env, p.at), en)]
    case Ret => if act.Went? then AfterRet(p.stack, act.target) else p.stack
    case _ => p.stack
  }

  /** Only a correctly predicted near return can be reported as a bit. */
  predicate Reportable(env: Env, en: bool, p: Point, act: Act)
    requires p.at < |env.insts|
  {
    act.Went? && act.compressed ==>
      && env.insts[p.at].kind.Ret? && en && env.layout.retCompression
      && p.stack != [] && p.stack[|p.stack| - 1].en && p.stack[|p.stack| - 1].ret == act.target
  }

  function Perform(env: Env, en: bool, p: Point, act: Act): (r: Option<Point>)
    requires p.at < |env.insts|
    ensures r.Some? ==> r.value.at < |env.insts| && |r.value.stack| < CALL_STACK_LEN
  {
    var next := Goes(env, p.at, act);
    var stack := Stacked(env, en, p, act);
    if next.None? || !Reportable(env, en, p, act) || |stack| >= CALL_STACK_LEN then None
    else Some(Point(next.value, stack))
  }

  function PerformAll(env: Env, en: bool, p: Point, acts: seq<Act>): (r: Option<Point>)
    requires p.at < |env.insts| && |p.stack| < CALL_STACK_LEN
    ensures r.Some? ==> r.value.at < |env.insts| && |r.value.stack| < CALL_STACK_LEN
    decreases |acts|
  {
    if acts == [] then Some(p)
    else match Perform(env, en, p, acts[0])
      case None => None
      case Some(q) => PerformAll(env, en, q, acts[1..])
  }

  /** The instructions executed, in order. */
  function Path(env: Env, en: bool, p: Point, acts: seq<Act>): seq<nat>
    requires p.at < |env.insts| && |p.stack| < CALL_STACK_LEN
    requires PerformAll(env, en, p, acts).Some?
    decreases |acts|
  {
    if acts == [] then [] else [p.at] + Path(env, en, Perform(env, en, p, acts[0]).value, acts[1..])
  }

  function ActBits(en: bool, act: Act): seq<Bit> {
    match act
    case Fall => []
    case Took(taken) => [Bit(taken, en)]
    case Went(_, compressed) => if compressed then [Bit(true, en)] else []
  }

  function ActTips(act: Act): seq<nat> {
    match act
    case Went(target, compressed) => if compressed then [] else [target]
    case _ => []
  }

  function BitsOfActs(en: bool, acts: seq<Act>): seq<Bit> {
    if acts == [] then [] else ActBits(en, acts[0]) + BitsOfActs(en, acts[1..])
  }

  function TipsOfActs(acts: seq<Act>): seq<nat> {
    if acts == [] then [] else ActTips(acts[0]) + TipsOfActs(acts[1..])
  }

  // ---- One context follows the processor ----

  function Here(p: Point, bits: seq<Bit>, tips: seq<nat>): View {
    View(p.at, p.stack, bits, tips)
  }

  lemma LandsAt(env: Env, pgd: nat, addr: nat, stack: seq<Frame>, bit: bool, tip: bool, j: nat)
    requires StartsAt(env, addr, j)
    ensures Land(env, pgd, addr, stack, bit, tip, false) == Go(j, stack, bit, tip, false)
  {
  }

  /** At each instruction the replay decides what the processor did. A return reported by its target
      needs that no later bit is queued already, where it could be taken for a compressed return. */
  lemma FollowsAct(env: Env, pgd: nat, en: bool, p: Point, act: Act, bit: Option<Bit>, tip: Option<nat>)
    requires Sorted(env.insts) && p.at < |env.insts| && Perform(env, en, p, act).Some?
    requires ActBits(en, act) != [] ==> bit == Some(ActBits(en, act)[0])
    requires ActTips(act) != [] ==> tip == Some(ActTips(act)[0])
    requires env.layout.retCompression && ActTips(act) != [] ==> bit.None?
    ensures var q := Perform(env, en, p, act).value;
            Decide(env, pgd, en, p.at, p.stack, bit, tip)
            == Go(q.at, q.stack, ActBits(en, act) != [], ActTips(act) != [], false)
  {
    var inst := env.insts[p.at];
    var q := Perform(env, en, p, act).value;
    if inst.kind.Plain? || (act.Took? && !act.taken) {
      FallThroughIsNext(env, p.at, q.at);
    }
    hide Find, RetAddr, Land, Resolve;
    match act {
      case Fall =>
        if !inst.kind.Plain? {
          LandsAt(env, pgd, inst.kind.target, q.stack, false, false, q.at);
        }
      case Took(taken) =>
        if taken {
          LandsAt(env, pgd, inst.kind.target, q.stack, true, false, q.at);
        }
      case Went(target, compressed) =>
        LandsAt(env, pgd, target, q.stack, compressed, !compressed, q.at);
    }
  }

  /** The act behind a move: the one that reports the packets the move uses. */
  function ActBehind(env: Env, p: Point, bit: Option<Bit>, tip: Option<nat>, d: Decision): Act
    requires p.at < |env.insts| && d.Go? && (d.bit ==> bit.Some?) && (d.tip ==> tip.Some?)
  {
    if d.tip then Went(tip.value, false)
    else if !d.bit then Fall
    else if env.insts[p.at].kind.Ret? && p.stack != [] then Went(p.stack[|p.stack| - 1].ret, true)
    else Took(bit.value.taken)
  }

  /** The address of the next instruction executed: the one control is transferred to, or the next byte. */
  function Lead(env: Env, p: Point, bit: Option<Bit>, tip: Option<nat>): nat
    requires p.at < |env.insts|
  {
    match Aim(env, p.at, p.stack, bit, tip)
    case None => env.insts[p.at].addr + env.insts[p.at].length
    case Some(addr) => addr
  }

  /** The replay goes to the instruction that begins there. */
  lemma MoveLeads(env: Env, pgd: nat, en: bool, p: Point, bit: Option<Bit>, tip: Option<nat>)
    requires Sorted(env.insts) && p.at < |env.insts| && Decide(env, pgd, en, p.at, p.stack, bit, tip).Go?
    ensures var next := StartIndex(env, Lead(env, p, bit, tip));
            next.Some? ==> next == Some(Decide(env, pgd, en, p.at, p.stack, bit, tip).last)
  {
    DecideMeans(env, pgd, en, p.at, p.stack, bit, tip);
    var next := StartIndex(env, Lead(env, p, bit, tip));
    if next.Some? && Aim(env, p.at, p.stack, bit, tip).None? {
      FallThroughIsNext(env, p.at, next.value);
    }
    hide Decide, Aim;
  }

  /** And so does the act. */
  lemma ActLeads(env: Env, pgd: nat, en: bool, p: Point, bit: Option<Bit>, tip: Option<nat>)
    requires p.at < |env.insts|
    requires var d := Decide(env, pgd, en, p.at, p.stack, bit, tip); d.Go? && !d.exits
    ensures var d := Decide(env, pgd, en, p.at, p.stack, bit, tip);
            Goes(env, p.at, ActBehind(env, p, bit, tip, d)) == StartIndex(env, Lead(env, p, bit, tip))
  {
    hide RetAddr, StartIndex, AfterRet, Resolve, Find;
  }

  /** It reports the packets that are used. */
  lemma ActReports(env: Env, pgd: nat, en: bool, p: Point, bit: Option<Bit>, tip: Option<nat>)
    requires p.at < |env.insts| && (bit.Some? ==> bit.value.en == en)
    requires var d := Decide(env, pgd, en, p.at, p.stack, bit, tip); d.Go? && !d.exits
    ensures var d := Decide(env, pgd, en, p.at, p.stack, bit, tip);
            var act := ActBehind(env, p, bit, tip, d);
            && ActBits(en, act) == (if d.bit then [bit.value] else [])
            && ActTips(act) == (if d.tip then [tip.value] else [])
  {
    hide RetAddr, Resolve, AfterRet;
  }

  /** It is one the processor can report so, and it opens and closes the calls the replay does. */
  lemma ActStacks(env: Env, pgd: nat, en: bool, p: Point, bit: Option<Bit>, tip: Option<nat>)
    requires p.at < |env.insts| && (bit.Some? ==> bit.value.en == en)
    requires var d := Decide(env, pgd, en, p.at, p.stack, bit, tip); d.Go? && !d.exits
    ensures var d := Decide(env, pgd, en, p.at, p.stack, bit, tip);
            var act := ActBehind(env, p, bit, tip, d);
            Reportable(env, en, p, act) && Stacked(env, en, p, act) == d.stack
  {
    hide RetAddr, Resolve;
  }

  /** Conversely, every move of the replay is an act of a processor: one that reports exactly the packets
      the move uses, and that, if an instruction begins where control goes, leads to where the replay
      goes and leaves the same calls open. Only a return out of an interrupt is left to the exit checks. */
  lemma DecidesAnAct(env: Env, pgd: nat, en: bool, p: Point, bit: Option<Bit>, tip: Option<nat>)
    requires Sorted(env.insts) && p.at < |env.insts| && (bit.Some? ==> bit.value.en == en)
    requires var d := Decide(env, pgd, en, p.at, p.stack, bit, tip); d.Go? && !d.exits && |d.stack| < CALL_STACK_LEN
    ensures var d := Decide(env, pgd, en, p.at, p.stack, bit, tip);
            var act := ActBehind(env, p, bit, tip, d);
            && ActBits(en, act) == (if d.bit then [bit.value] else [])
            && ActTips(act) == (if d.tip then [tip.value] else [])
            && (StartIndex(env, Lead(env, p, bit, tip)).Some? ==>
                  d.last >= 0 && Perform(env, en, p, act) == Some(Point(d.last, d.stack)))
  {
    MoveLeads(env, pgd, en, p, bit, tip);
    ActLeads(env, pgd, en, p, bit, tip);
    ActReports(env, pgd, en, p, bit, tip);
    ActStacks(env, pgd, en, p, bit, tip);
    hide Goes, Decide, Stacked, Reportable, ActBits, ActTips, ActBehind, Lead, StartIndex;
  }

  lemma FollowsOne(env: Env, pgd: nat, en: bool, p: Point, act: Act, bits: seq<Bit>, tips: seq<nat>)
    requires Sorted(env.insts)
    requires p.at < |env.insts| && |p.stack| < CALL_STACK_LEN && Perform(env, en, p, act).Some?
    requires env.layout.retCompression && ActTips(act) != [] ==> bits == []
    ensures RunView(env, pgd, en, Here(p, ActBits(en, act) + bits, ActTips(act) + tips))
            == Prefix([p.at], RunView(env, pgd, en, Here(Perform(env, en, p, act).value, bits, tips)))
  {
    hide Decide, Perform;
    var bits', tips' := ActBits(en, act) + bits, ActTips(act) + tips;
    FollowsAct(env, pgd, en, p, act, Front(bits'), Front(tips'));
    assert ActBits(en, act) == [] ==> bits' == bits;
    assert ActTips(act) == [] ==> tips' == tips;
    assert ActBits(en, act) != [] ==> bits'[1..] == bits;
    assert ActTips(act) != [] ==> tips'[1..] == tips;
    ActEnds(env, en, p, act);
    hide Silent.Ends;
  }

  /** An act on a silent run that does not end leads to another one on it. */
  lemma ActEnds(env: Env, en: bool, p: Point, act: Act)
    requires Sorted(env.insts) && p.at < |env.insts| && Perform(env, en, p, act).Some?
    ensures !Silent.Ends(env, p.at) ==> !Silent.Ends(env, Perform(env, en, p, act).value.at)
  {
    if Silent.Next(env, p.at).Some? {
      Silent.EndsNext(env, p.at);
      if env.insts[p.at].kind.Plain? {
        FallThroughIsNext(env, p.at, Perform(env, en, p, act).value.at);
      }
    } else {
      Silent.EndsHere(env, p.at);
    }
  }

  /** Replaying the packets of some acts executes exactly those acts and goes on from there. */
  lemma {:induction false} Follows(env: Env, pgd: nat, en: bool, p: Point, acts: seq<Act>, bits: seq<Bit>,
                                   tips: seq<nat>)
    requires Sorted(env.insts)
    requires p.at < |env.insts| && |p.stack| < CALL_STACK_LEN && PerformAll(env, en, p, acts).Some?
    requires env.layout.retCompression ==> TipsOfActs(acts) == [] || BitsOfActs(en, acts) + bits == []
    ensures RunView(env, pgd, en, Here(p, BitsOfActs(en, acts) + bits, TipsOfActs(acts) + tips))
            == Prefix(Path(env, en, p, acts),
                      RunView(env, pgd, en, Here(PerformAll(env, en, p, acts).value, bits, tips)))
    decreases |acts|
  {
    hide Decide, Perform, RunView;
    if acts == [] {
      assert BitsOfActs(en, acts) + bits == bits && TipsOfActs(acts) + tips == tips;
      assert forall path: seq<nat> :: [] + path == path;
    } else {
      var q := Perform(env, en, p, acts[0]).value;
      var rest := acts[1..];
      var bits', tips' := BitsOfActs(en, rest) + bits, TipsOfActs(rest) + tips;
      assert BitsOfActs(en, acts) + bits == ActBits(en, acts[0]) + bits';
      assert TipsOfActs(acts) + tips == ActTips(acts[0]) + tips';
      FollowsOne(env, pgd, en, p, acts[0], bits', tips');
      Follows(env, pgd, en, q, rest, bits, tips);
      PrefixPrefix([p.at], Path(env, en, q, rest),
                   RunView(env, pgd, en, Here(PerformAll(env, en, q, rest).value, bits, tips)));
    }
  }
}
