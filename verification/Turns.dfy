/** One turn of the loop of `xed_process_branches` (src/xed.c) on a context updated in place. */
module Turns {
  import opened Options
  import opened Program
  import opened Lookup
  import opened Replay
  import opened Contexts

  /** What one turn does; Stops is the deliberate stop after an error message. */
  datatype Turn = Moved | Waits | Exits(tip: nat) | Stops

  ghost predicate Apart(finder: Finder, c: Context) {
    && {finder, finder.high, finder.low} !! c.parts
    && finder.high != finder.low
  }

  /** `xed_update_last_inst`: the classification of an address after the lookup. */
  method Locate(finder: Finder, pgd: nat, addr: nat) returns (p: Place)
    requires finder.Valid()
    modifies finder`hint, finder.high, finder.low
    ensures finder.Valid()
    ensures p == Resolve(finder.TheEnv(), pgd, addr)
  {
    var r := finder.FindInst(addr);
    match r {
      case Some(i) => return At(i);
      case None =>
    }
    var layout := finder.layout;
    if !Enabled(layout, pgd, addr) {
      return Nowhere;
    }
    if layout.kernelStart <= addr < layout.kernelEnd {
      var i := 0;
      while i < |layout.mods|
        invariant i <= |layout.mods|
        invariant forall k | 0 <= k < i :: !InRange(layout.mods[k], addr)
      {
        if InRange(layout.mods[i], addr) {
          return Stop;
        }
        i := i + 1;
      }
    }
    var i := 0;
    while i < |layout.amaps|
      invariant i <= |layout.amaps|
      invariant forall k | 0 <= k < i :: !InRange(layout.amaps[k], addr)
    {
      if InRange(layout.amaps[i], addr) {
        return Nowhere;
      }
      i := i + 1;
    }
    return Stop;
  }

  /** Continue at an address. */
  method Relocate(finder: Finder, c: Context, pgd: nat, addr: nat) returns (ok: bool)
    requires finder.Valid() && c.Valid() && Apart(finder, c)
    modifies finder`hint, finder.high, finder.low, c`last
    ensures finder.Valid() && c.Valid()
    ensures ok <==> Resolve(finder.TheEnv(), pgd, addr) != Stop
    ensures ok ==> c.Value() == old(c.Value()).(last := match Resolve(finder.TheEnv(), pgd, addr)
                                                        case At(i) => i
                                                        case _ => -1)
  {
    hide Resolve;
    var p := Locate(finder, pgd, addr);
    ok := p != Stop;
    c.last := if p.At? then p.index else -1;
  }

  /** Continue at the next table entry. */
  method Advance(finder: Finder, c: Context) returns (ok: bool)
    requires finder.Valid() && c.Valid() && 0 <= c.last < |finder.insts|
    modifies c`last
    ensures c.Valid()
    ensures ok <==> old(c.last) + 1 < |finder.insts|
    ensures ok ==> c.Value() == old(c.Value()).(last := old(c.last) + 1)
  {
    c.last := c.last + 1;
    ok := c.last < |finder.insts|;
  }

  method OpenCall(finder: Finder, c: Context, en: bool) returns (ok: bool)
    requires finder.Valid() && c.Valid() && 0 <= c.last < |finder.insts|
    modifies c`depth, c.stack
    ensures ok <==> |old(c.Value()).stack| + 1 < CALL_STACK_LEN
    ensures ok ==> c.Valid()
                   && c.Value() == old(c.Value()).(stack := old(c.Value()).stack
                                                            + [Frame(c.last, RetAddr(finder.TheEnv(), c.last), en)])
  {
    var ret := if c.last + 1 < |finder.insts| then finder.insts[c.last + 1].addr else 0;
    ok := c.PushCall(Frame(c.last, ret, en));
  }

  ghost function Moves(look: Ctx, d: Decision): Ctx
    requires d.Go?
  {
    Ctx(look.src, d.last, d.stack,
        if d.bit && FrontBit(look.tnt).Some? then UseBit(look.tnt) else look.tnt,
        if d.tip && look.tip != [] then look.tip[1..] else look.tip)
  }

  /** The turn t took the context from `look` (its queues looked at) to `after`, as decided. */
  ghost predicate Did(env: Env, pgd: nat, en: bool, look: Ctx, t: Turn, after: Ctx) {
    0 <= look.last < |env.insts| &&
    var d := Decide(env, pgd, en, look.last, look.stack, FrontBit(look.tnt), Front(look.tip));
    match t
    case Stops => d.Halt?
    case Waits => d.Wait? && after == look
    case Moved => d.Go? && !d.exits && after == Moves(look, d)
    case Exits(tip) => d.Go? && d.exits && look.tip != [] && tip == look.tip[0] && after == Moves(look, d)
  }

  /** What a transfer to `target` does to the call stack. */
  method AdjustStack(finder: Finder, c: Context, en: bool, target: nat) returns (ok: bool)
    requires finder.Valid() && c.Valid() && 0 <= c.last < |finder.insts|
    modifies c`depth, c.stack
    ensures var kind, v := finder.insts[c.last].kind, old(c.Value());
            var pushed := v.stack + [Frame(v.last, RetAddr(finder.TheEnv(), v.last), en)];
            && (ok <==> kind.IndCall? ==> |pushed| < CALL_STACK_LEN)
            && (ok ==> c.Valid() && c.Value() == v.(stack := if kind.IndCall? then pushed
                                                             else if kind.Ret? then AfterRet(v.stack, target)
                                                             else v.stack))
  {
    ok := true;
    var kind := finder.insts[c.last].kind;
    if kind.IndCall? {
      ok := OpenCall(finder, c, en);
    } else if kind.Ret? {
      c.PopCall(target);
    }
  }

  predicate NeedsTarget(env: Env, i: nat, stack: seq<Frame>, bit: Option<Bit>)
    requires i < |env.insts|
  {
    var kind := env.insts[i].kind;
    || kind.IndCall? || kind.IndJump? || kind.Far? || kind.Iret?
    || (kind.Ret? && !(Compressible(env, stack) && bit.Some?))
  }

  /** The call stack after a transfer to the target. */
  function Targeted(env: Env, en: bool, v: Ctx, target: nat): seq<Frame>
    requires 0 <= v.last < |env.insts|
  {
    match env.insts[v.last].kind
    case IndCall => v.stack + [Frame(v.last, RetAddr(env, v.last), en)]
    case Ret => AfterRet(v.stack, target)
    case _ => v.stack
  }

  /** A branch that needs a target follows it, or stops. */
  lemma IndirectDid(env: Env, pgd: nat, en: bool, v: Ctx)
    requires 0 <= v.last < |env.insts| && NeedsTarget(env, v.last, v.stack, FrontBit(v.tnt)) && v.tip != []
    ensures var kind, target := env.insts[v.last].kind, v.tip[0];
            var pos, stack := Resolve(env, pgd, target), Targeted(env, en, v, target);
            if pos == Stop || (kind.IndCall? && |stack| >= CALL_STACK_LEN) then Did(env, pgd, en, v, Stops, v)
            else Did(env, pgd, en, v, if kind.Iret? then Exits(target) else Moved,
                     v.(stack := stack, last := match pos case At(i) => i case _ => -1, tip := v.tip[1..]))
  {
    hide Resolve, AfterRet, RetAddr;
  }

  /** The branches that need a target. */
  method Indirect(finder: Finder, c: Context, pgd: nat, en: bool) returns (t: Turn)
    requires finder.Valid() && c.Valid() && Apart(finder, c) && 0 <= c.last < |finder.insts|
    requires NeedsTarget(finder.TheEnv(), c.last, c.Value().stack, FrontBit(c.Value().tnt))
    modifies finder`hint, finder.high, finder.low, c.parts
    ensures finder.Valid()
    ensures t.Stops? || c.Valid()
    ensures Did(finder.TheEnv(), pgd, en, old(c.Value()), t, if t.Stops? then old(c.Value()) else c.Value())
  {
    hide Resolve, Find, BitSet, AfterRet, RetAddr;
    var tip := c.PeekTip();
    if tip.None? {
      return Waits;
    }
    IndirectDid(finder.TheEnv(), pgd, en, c.Value());
    hide Did, Decide, NeedsTarget;
    var leaves := finder.insts[c.last].kind.Iret?;
    var ok := AdjustStack(finder, c, en, tip.value);
    if ok {
      ok := Relocate(finder, c, pgd, tip.value);
    }
    if !ok {
      return Stops;
    }
    c.TakeTip();
    t := if leaves then Exits(tip.value) else Moved;
  }

  method Conditional(finder: Finder, c: Context, pgd: nat, en: bool) returns (t: Turn)
    requires finder.Valid() && c.Valid() && Apart(finder, c) && 0 <= c.last < |finder.insts|
    requires finder.insts[c.last].kind.Cond?
    modifies finder`hint, finder.high, finder.low, c.parts
    ensures finder.Valid()
    ensures t.Stops? || c.Valid()
    ensures Did(finder.TheEnv(), pgd, en, old(c.Value()), t, if t.Stops? then old(c.Value()) else c.Value())
  {
    hide Resolve, Find, BitSet;
    var bit := c.PeekBit();
    if bit.None? {
      return Waits;
    }
    var target := finder.insts[c.last].kind.target;
    c.TakeBit();
    var ok: bool;
    if bit.value.taken {
      ok := Relocate(finder, c, pgd, target);
    } else {
      ok := Advance(finder, c);
    }
    t := if ok then Moved else Stops;
  }

  method Unconditional(finder: Finder, c: Context, pgd: nat, en: bool) returns (t: Turn)
    requires finder.Valid() && c.Valid() && Apart(finder, c) && 0 <= c.last < |finder.insts|
    requires finder.insts[c.last].kind.Call? || finder.insts[c.last].kind.Jump?
    modifies finder`hint, finder.high, finder.low, c.parts
    ensures finder.Valid()
    ensures t.Stops? || c.Valid()
    ensures Did(finder.TheEnv(), pgd, en, old(c.Value()), t, if t.Stops? then old(c.Value()) else c.Value())
  {
    hide Resolve, Find, BitSet;
    var kind := finder.insts[c.last].kind;
    if kind.Call? {
      var ok := OpenCall(finder, c, en);
      if !ok {
        return Stops;
      }
    }
    var ok := Relocate(finder, c, pgd, kind.target);
    t := if ok then Moved else Stops;
  }

  /** A near return whose target is the predicted one, reported by a taken bit. */
  method CompressedReturn(finder: Finder, c: Context, pgd: nat, en: bool) returns (t: Turn)
    requires finder.Valid() && c.Valid() && Apart(finder, c) && 0 <= c.last < |finder.insts|
    requires finder.insts[c.last].kind.Ret? && Compressible(finder.TheEnv(), c.Value().stack)
             && FrontBit(c.Value().tnt).Some?
    modifies finder`hint, finder.high, finder.low, c.parts
    ensures finder.Valid()
    ensures t.Stops? || c.Valid()
    ensures Did(finder.TheEnv(), pgd, en, old(c.Value()), t, if t.Stops? then old(c.Value()) else c.Value())
  {
    hide Resolve, Find, BitSet;
    var bit := c.PeekBit();
    if !bit.value.en || !bit.value.taken {
      return Stops;
    }
    var ret := c.stack[c.depth - 1].ret;
    c.TakeBit();
    c.PopCall(ret);
    var ok := Relocate(finder, c, pgd, ret);
    t := if ok then Moved else Stops;
  }

  method NonBranch(finder: Finder, c: Context, pgd: nat, en: bool) returns (t: Turn)
    requires finder.Valid() && c.Valid() && 0 <= c.last < |finder.insts| && finder.insts[c.last].kind.Plain?
    modifies c`last
    ensures c.Valid()
    ensures Did(finder.TheEnv(), pgd, en, old(c.Value()), t, if t.Stops? then old(c.Value()) else c.Value())
  {
    var ok := Advance(finder, c);
    t := if ok then Moved else Stops;
  }

  /** One turn of the loop. */
  method Step(finder: Finder, c: Context, pgd: nat, en: bool) returns (t: Turn)
    requires finder.Valid() && c.Valid() && Apart(finder, c) && 0 <= c.last < |finder.insts|
    modifies finder`hint, finder.high, finder.low, c.parts
    ensures finder.Valid()
    ensures t.Stops? || c.Valid()
    ensures Did(finder.TheEnv(), pgd, en, Look(finder.TheEnv(), old(c.Value())), t,
                if t.Stops? then old(c.Value()) else c.Value())
  {
    hide Decide, Moves, FrontBit, BitSet, DropSpent;
    var kind := finder.insts[c.last].kind;
    if kind.Plain? {
      t := NonBranch(finder, c, pgd, en);
      return;
    }
    c.RetireSpent();
    if kind.Cond? {
      t := Conditional(finder, c, pgd, en);
    } else if kind.Jump? || kind.Call? {
      t := Unconditional(finder, c, pgd, en);
    } else {
      var bit := c.PeekBit();
      if kind.Ret? && finder.layout.retCompression && c.depth >= 1 && bit.Some? && c.stack[c.depth - 1].en {
        t := CompressedReturn(finder, c, pgd, en);
      } else {
        t := Indirect(finder, c, pgd, en);
      }
    }
  }
}
