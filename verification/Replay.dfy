/** The replay of branch packets over the instruction table (`xed_process_branches`, src/xed.c).
    A context holds the position, the call stack and the two packet queues. `Decide` is one turn of
    the replay loop; `Run` is the loop. `View` forgets how branch bits were grouped into packets. */
module Replay {
  import opened Arithmetic
  import opened Options
  import opened Program
  import Silent

  const CALL_STACK_LEN := 256
  const TNT_QUEUE_LEN := 1024
  const TIP_QUEUE_LEN := 1024

  /** An open call: the calling instruction, the address of the table entry after it, and whether
      its return may be compressed. */
  datatype Frame = Frame(call: nat, ret: nat, en: bool)

  /** A queued TNT packet: `len` bits of `bits` are still to be used, the oldest is the highest. */
  datatype Tnt = Tnt(bits: nat, len: nat, en: bool)

  /** A single branch outcome, with the compression flag of the packet that carried it. */
  datatype Bit = Bit(taken: bool, en: bool)

  /** A replay context. `last` is an index into the table, or -1 when the position is unknown. */
  datatype Ctx = Ctx(src: nat, last: int, stack: seq<Frame>, tnt: seq<Tnt>, tip: seq<nat>)

  datatype View = View(last: int, stack: seq<Frame>, bits: seq<Bit>, tips: seq<nat>)

  // ---- Bits of a packet ----

  /** Bit number n of a packed word. */
  predicate BitSet(bits: nat, n: nat) {
    bits / Pow2(n) % 2 == 1
  }

  function BitsOf(t: Tnt): (r: seq<Bit>)
    ensures |r| == t.len
    decreases t.len
  {
    if t.len == 0 then [] else [Bit(BitSet(t.bits, t.len - 1), t.en)] + BitsOf(t.(len := t.len - 1))
  }

  function Flat(tnt: seq<Tnt>): seq<Bit> {
    if tnt == [] then [] else BitsOf(tnt[0]) + Flat(tnt[1..])
  }

  function ViewOf(c: Ctx): View {
    View(c.last, c.stack, Flat(c.tnt), c.tip)
  }

  // ---- One turn of the loop ----

  /** Move on (consuming a bit or a target, possibly leaving an interrupt handler), wait for a
      packet, or stop for good. */
  datatype Decision =
    | Go(last: int, stack: seq<Frame>, bit: bool, tip: bool, exits: bool)
    | Wait
    | Halt

  /** The address the source reads as the return point of a call at i: the next table entry. The
      table's memory is zeroed, so past its end that address is 0. */
  function RetAddr(env: Env, i: nat): nat {
    if i + 1 < |env.insts| then env.insts[i + 1].addr else 0
  }

  function Land(env: Env, pgd: nat, addr: nat, stack: seq<Frame>, bit: bool, tip: bool, exits: bool): Decision {
    match Resolve(env, pgd, addr)
    case At(i) => Go(i, stack, bit, tip, exits)
    case Nowhere => Go(-1, stack, bit, tip, exits)
    case Stop => Halt
  }

  function StepNext(env: Env, i: nat, stack: seq<Frame>, bit: bool): Decision {
    if i + 1 < |env.insts| then Go(i + 1, stack, bit, false, false) else Halt
  }

  function Enter(env: Env, pgd: nat, en: bool, i: nat, target: nat, stack: seq<Frame>, tip: bool): Decision {
    var pushed := stack + [Frame(i, RetAddr(env, i), en)];
    if |pushed| >= CALL_STACK_LEN then Halt else Land(env, pgd, target, pushed, false, tip, false)
  }

  /** The call stack after a return to `target`: one frame less, and empty after a mismatch. */
  function AfterRet(stack: seq<Frame>, target: nat): seq<Frame> {
    if stack == [] then []
    else if stack[|stack| - 1].ret == target then stack[..|stack| - 1]
    else []
  }

  /** A return whose prediction the packet stream may have compressed into a branch bit. */
  predicate Compressible(env: Env, stack: seq<Frame>) {
    env.layout.retCompression && stack != [] && stack[|stack| - 1].en
  }

  function Decide(env: Env, pgd: nat, en: bool, i: nat, stack: seq<Frame>, bit: Option<Bit>,
                  tip: Option<nat>): (d: Decision)
    requires i < |env.insts|
    ensures d.Go? ==> -1 <= d.last < |env.insts|
    ensures d.Go? && |stack| < CALL_STACK_LEN ==> |d.stack| < CALL_STACK_LEN
    ensures d.Go? && d.bit ==> bit.Some?
    ensures d.Go? && d.tip ==> tip.Some?
    ensures d.Go? && d.exits ==> d.tip
  {
    match env.insts[i].kind
    case Plain => StepNext(env, i, stack, false)
    case Cond(target) =>
      if bit.None? then Wait
      else if bit.value.taken then Land(env, pgd, target, stack, true, false, false)
      else StepNext(env, i, stack, true)
    case Jump(target) => Land(env, pgd, target, stack, false, false, false)
    case Call(target) => Enter(env, pgd, en, i, target, stack, false)
    case Ret =>
      if Compressible(env, stack) && bit.Some? then
        if bit.value.en && bit.value.taken
        then Land(env, pgd, stack[|stack| - 1].ret, stack[..|stack| - 1], true, false, false)
        else Halt
      else if tip.None? then Wait
      else Land(env, pgd, tip.value, AfterRet(stack, tip.value), false, true, false)
    case IndCall => if tip.None? then Wait else Enter(env, pgd, en, i, tip.value, stack, true)
    case IndJump => if tip.None? then Wait else Land(env, pgd, tip.value, stack, false, true, false)
    case Far => if tip.None? then Wait else Land(env, pgd, tip.value, stack, false, true, false)
    case Iret => if tip.None? then Wait else Land(env, pgd, tip.value, stack, false, true, true)
  }

  /** A return that is reported by an outcome: compression is compiled in, the last open call was made
      with compression on, and an outcome is queued. */
  predicate ByOutcome(env: Env, stack: seq<Frame>, bit: Option<Bit>) {
    env.layout.retCompression && (|stack| > 0 && stack[|stack| - 1].en) && bit.Some?
  }

  /** The address control is transferred to, if the packets tell and it is not the next instruction. */
  function Aim(env: Env, i: nat, stack: seq<Frame>, bit: Option<Bit>, tip: Option<nat>): Option<nat>
    requires i < |env.insts|
  {
    var kind := env.insts[i].kind;
    if kind.Plain? || (kind.Cond? && (bit.None? || !bit.value.taken)) then None
    else if kind.Cond? || kind.Jump? || kind.Call? then Some(kind.target)
    else if kind.Ret? && ByOutcome(env, stack, bit) then Some(stack[|stack| - 1].ret)
    else tip
  }

  /** When the replay stops for good: at the end of the table, at a call with 255 calls open, at a return
      whose outcome is not that of a compressed one, and where the address stops it. When it waits: at a
      branch without its outcome, and at a transfer without its target. Otherwise it goes to the
      instruction at the address, or loses its position there. */
  lemma DecideMeans(env: Env, pgd: nat, en: bool, i: nat, stack: seq<Frame>, bit: Option<Bit>, tip: Option<nat>)
    requires i < |env.insts|
    ensures var kind, aim := env.insts[i].kind, Aim(env, i, stack, bit, tip);
            var waits := if kind.Cond? then bit.None?
              else if kind.Plain? || kind.Jump? || kind.Call? then false
              else tip.None? && !(kind.Ret? && ByOutcome(env, stack, bit));
            var stops := if aim.None? then i + 1 == |env.insts|
              else || Resolve(env, pgd, aim.value) == Stop
                   || ((kind.Call? || kind.IndCall?) && |stack| >= 255)
                   || (kind.Ret? && ByOutcome(env, stack, bit) && !(bit.value.taken && bit.value.en));
            match Decide(env, pgd, en, i, stack, bit, tip)
            case Wait => waits
            case Halt => !waits && stops
            case Go(last, _, _, _, _) =>
              && !waits && !stops
              && last == if aim.None? then i + 1 else match Resolve(env, pgd, aim.value) case At(j) => j case _ => -1
  {
    hide Resolve;
  }

  // ---- The loop on a context ----

  /** What one activation of the loop ends in. A paused context either waits for a packet or has
      lost its position; `path` lists the instructions executed on the way. */
  datatype Outcome<S> =
    | Paused(state: S, path: seq<nat>)
    | Exited(state: S, tip: nat, path: seq<nat>)
    | Halted

  function Prefix<S>(path: seq<nat>, o: Outcome<S>): Outcome<S> {
    match o
    case Paused(s, p) => Paused(s, path + p)
    case Exited(s, t, p) => Exited(s, t, path + p)
    case Halted => Halted
  }

  /** Only the front packet of the queue can be used up. */
  ghost predicate CtxOk(env: Env, c: Ctx) {
    && -1 <= c.last < |env.insts|
    && |c.stack| < CALL_STACK_LEN
    && |c.tnt| < TNT_QUEUE_LEN
    && |c.tip| < TIP_QUEUE_LEN
    && forall k | 1 <= k < |c.tnt| :: c.tnt[k].len > 0
  }

  function DropSpent(tnt: seq<Tnt>): seq<Tnt> {
    if tnt != [] && tnt[0].len == 0 then tnt[1..] else tnt
  }

  /** Before it looks at the queues, a branch retires a used-up front packet. */
  function Look(env: Env, c: Ctx): Ctx
    requires 0 <= c.last < |env.insts|
  {
    if env.insts[c.last].kind.Plain? then c else c.(tnt := DropSpent(c.tnt))
  }

  function FrontBit(tnt: seq<Tnt>): Option<Bit> {
    if tnt == [] || tnt[0].len == 0 then None
    else Some(Bit(BitSet(tnt[0].bits, tnt[0].len - 1), tnt[0].en))
  }

  function Front<T>(q: seq<T>): Option<T> {
    if q == [] then None else Some(q[0])
  }

  function DecideCtx(env: Env, pgd: nat, en: bool, c: Ctx): Decision
    requires 0 <= c.last < |env.insts|
  {
    Decide(env, pgd, en, c.last, c.stack, FrontBit(Look(env, c).tnt), Front(c.tip))
  }

  function UseBit(tnt: seq<Tnt>): seq<Tnt>
    requires FrontBit(tnt).Some?
  {
    tnt[0 := tnt[0].(len := tnt[0].len - 1)]
  }

  function Apply(env: Env, c: Ctx, d: Decision): Ctx
    requires 0 <= c.last < |env.insts| && d.Go?
    requires d.bit ==> FrontBit(Look(env, c).tnt).Some?
    requires d.tip ==> c.tip != []
  {
    var tnt := Look(env, c).tnt;
    Ctx(c.src, d.last, d.stack, if d.bit then UseBit(tnt) else tnt, if d.tip then c.tip[1..] else c.tip)
  }

  /** How far an activation can still go: packets left, free call-stack slots, silent run length. */
  function Distance(env: Env, last: int): nat {
    if 0 <= last < |env.insts| then 1 + Silent.Rank(env, last) else 0
  }

  function BitCount(tnt: seq<Tnt>): nat {
    if tnt == [] then 0 else tnt[0].len + BitCount(tnt[1..])
  }

  lemma SilentProgress(env: Env, pgd: nat, en: bool, i: nat, stack: seq<Frame>, bit: Option<Bit>, tip: Option<nat>)
    requires i < |env.insts| && |stack| < CALL_STACK_LEN
    requires Silent.Ends(env, i)
    ensures var d := Decide(env, pgd, en, i, stack, bit, tip);
            d.Go? && !d.bit && !d.tip ==>
              || |d.stack| > |stack|
              || (d.stack == stack && Distance(env, d.last) < Distance(env, i))
  {
    var d := Decide(env, pgd, en, i, stack, bit, tip);
    if d.Go? && !d.bit && !d.tip && d.last >= 0 && !env.insts[i].kind.Call? {
      Silent.RankDecreases(env, i);
    }
  }

  /** The measure of an activation: packets left, free call-stack slots, silent run length. */
  datatype Measure = Measure(packets: nat, slots: int, distance: nat)

  predicate Below(a: Measure, b: Measure) {
    || a.packets < b.packets
    || (a.packets == b.packets && a.slots < b.slots)
    || (a.packets == b.packets && a.slots == b.slots && a.distance < b.distance)
  }

  function CtxMeasure(env: Env, c: Ctx): Measure {
    Measure(BitCount(c.tnt) + |c.tip|, CALL_STACK_LEN - |c.stack|, Distance(env, c.last))
  }

  function ViewMeasure(env: Env, v: View): Measure {
    Measure(|v.bits| + |v.tips|, CALL_STACK_LEN - |v.stack|, Distance(env, v.last))
  }

  lemma CountAfterUse(tnt: seq<Tnt>)
    ensures BitCount(DropSpent(tnt)) == BitCount(tnt)
    ensures FrontBit(tnt).Some? ==> BitCount(UseBit(tnt)) == BitCount(tnt) - 1
  {
    if FrontBit(tnt).Some? {
      assert UseBit(tnt)[1..] == tnt[1..];
    }
  }

  /** A turn of the loop keeps the context well formed. */
  lemma CtxKeeps(env: Env, pgd: nat, en: bool, c: Ctx)
    requires CtxOk(env, c) && c.last >= 0 && DecideCtx(env, pgd, en, c).Go?
    ensures var next := Apply(env, c, DecideCtx(env, pgd, en, c)); CtxOk(env, next) && next.src == c.src
  {
    hide Decide;
  }

  /** Where the silent run ends, it makes progress. */
  lemma CtxProgress(env: Env, pgd: nat, en: bool, c: Ctx)
    requires CtxOk(env, c) && c.last >= 0 && Silent.Ends(env, c.last) && DecideCtx(env, pgd, en, c).Go?
    ensures Below(CtxMeasure(env, Apply(env, c, DecideCtx(env, pgd, en, c))), CtxMeasure(env, c))
  {
    SilentProgress(env, pgd, en, c.last, c.stack, FrontBit(Look(env, c).tnt), Front(c.tip));
    CountAfterUse(c.tnt);
    CountAfterUse(Look(env, c).tnt);
    hide Decide, BitCount, Silent.Ends;
  }

  lemma ViewProgress(env: Env, pgd: nat, en: bool, v: View)
    requires ViewOk(env, v) && v.last >= 0 && Silent.Ends(env, v.last) && DecideView(env, pgd, en, v).Go?
    ensures var next := ApplyView(v, DecideView(env, pgd, en, v));
            ViewOk(env, next) && Below(ViewMeasure(env, next), ViewMeasure(env, v))
  {
    SilentProgress(env, pgd, en, v.last, v.stack, Front(v.bits), Front(v.tips));
    hide Silent.Ends;
  }

  /** The loop. On a silent run that does not end it never returns, which counts as a stop. */
  ghost function Run(env: Env, pgd: nat, en: bool, c: Ctx): (o: Outcome<Ctx>)
    requires CtxOk(env, c)
    ensures o.Paused? ==> CtxOk(env, o.state) && o.state.src == c.src
    ensures o.Exited? ==> CtxOk(env, o.state) && |o.state.tip| < |c.tip| && o.state.src == c.src
    decreases CtxMeasure(env, c).packets, CtxMeasure(env, c).slots, CtxMeasure(env, c).distance
  {
    if c.last == -1 then Paused(c, [])
    else if !Silent.Ends(env, c.last) then Halted
    else
      var d := DecideCtx(env, pgd, en, c);
      match d
      case Wait => Paused(Look(env, c), [])
      case Halt => Halted
      case Go(_, _, _, _, exits) =>
        var next := Apply(env, c, d);
        CtxKeeps(env, pgd, en, c);
        CtxProgress(env, pgd, en, c);
        if exits then Exited(next, c.tip[0], [c.last])
        else Prefix([c.last], Run(env, pgd, en, next))
  }

  lemma PrefixPrefix<S>(a: seq<nat>, b: seq<nat>, o: Outcome<S>)
    ensures Prefix(a, Prefix(b, o)) == Prefix(a + b, o)
  {
    if !o.Halted? {
      assert a + (b + o.path) == a + b + o.path;
    }
  }

  // ---- The loop on a view ----

  ghost predicate ViewOk(env: Env, v: View) {
    -1 <= v.last < |env.insts| && |v.stack| < CALL_STACK_LEN
  }

  function DecideView(env: Env, pgd: nat, en: bool, v: View): Decision
    requires 0 <= v.last < |env.insts|
  {
    Decide(env, pgd, en, v.last, v.stack, Front(v.bits), Front(v.tips))
  }

  function ApplyView(v: View, d: Decision): View
    requires d.Go? && (d.bit ==> v.bits != []) && (d.tip ==> v.tips != [])
  {
    View(d.last, d.stack, if d.bit then v.bits[1..] else v.bits, if d.tip then v.tips[1..] else v.tips)
  }

  ghost function RunView(env: Env, pgd: nat, en: bool, v: View): (o: Outcome<View>)
    requires ViewOk(env, v)
    ensures !o.Halted? ==> ViewOk(env, o.state)
    decreases ViewMeasure(env, v).packets, ViewMeasure(env, v).slots, ViewMeasure(env, v).distance
  {
    if v.last == -1 then Paused(v, [])
    else if !Silent.Ends(env, v.last) then Halted
    else
      var d := DecideView(env, pgd, en, v);
      match d
      case Wait => Paused(v, [])
      case Halt => Halted
      case Go(_, _, _, _, exits) =>
        ViewProgress(env, pgd, en, v);
        if exits then Exited(ApplyView(v, d), v.tips[0], [v.last])
        else Prefix([v.last], RunView(env, pgd, en, ApplyView(v, d)))
  }
}
