/** DWARF expressions (DWARF 5 section 2.5.1, as far as src/x_dwarf.c goes): a stack machine on 64-bit
    words. None stands for the deliberate stop after an error message. */
module Dwarf {
  import opened Options
  import opened Arithmetic
  import opened Bytes
  import opened Kmaps

  /** MAX_DWARF_STK: slots of the stack, and one more than the operations of an expression. */
  const MAX_STACK: nat := 64

  datatype Op =
    | And
    | Breg(reg: nat, offset: int)
    | Deref
    | Ge
    | Lit(value: nat)
    | Mul
    | PlusUconst(addend: nat)
    | Plus
    | Shl

  /** The registers, and the words of the traced process that can be read. */
  datatype Machine = Machine(regs: seq<nat>, memory: nat -> Option<nat>)

  function BitAnd(a: nat, b: nat): (r: nat)
    ensures r <= a && r <= b
  {
    if a == 0 || b == 0 then 0 else 2 * BitAnd(a / 2, b / 2) + a % 2 * (b % 2)
  }

  function Word(x: int): (w: nat)
    ensures w < TWO64
  {
    x % TWO64
  }

  /** Only a multiple of two to the 64th is dropped. */
  lemma WordWraps(x: int)
    ensures 0 <= Word(x) < 0x1_0000_0000_0000_0000 && (x - Word(x)) % 0x1_0000_0000_0000_0000 == 0
  {
  }

  /** A binary operation on the second word from the top and the top one. A shift by 64 or more has no
      meaning in the source's language and is treated as a stop. */
  function Binary(op: Op, below: nat, top: nat): Option<nat>
    requires op.And? || op.Ge? || op.Plus? || op.Shl?
  {
    match op
    case And => Some(BitAnd(top, below))
    case Ge => Some(if below >= top then 1 else 0)
    case Plus => Some(Word(top + below))
    case Shl => if top < 64 then Some(Word(below * Pow2(top))) else None
  }

  predicate IsBinary(op: Op) {
    op.And? || op.Ge? || op.Plus? || op.Shl?
  }

  // ---- The stack machine ----

  function StepOp(m: Machine, op: Op, stack: seq<nat>): (r: Option<seq<nat>>)
    ensures r.Some? ==> |r.value| <= |stack| + 1
  {
    var n := |stack|;
    match op
    case Breg(reg, offset) => if reg < |m.regs| then Some(stack + [Word(m.regs[reg] + offset)]) else None
    case Lit(value) => Some(stack + [value])
    case Deref =>
      if n >= 1 && m.memory(stack[n - 1]).Some? then Some(stack[..n - 1] + [m.memory(stack[n - 1]).value]) else None
    case PlusUconst(addend) => if n >= 1 then Some(stack[..n - 1] + [Word(stack[n - 1] + addend)]) else None
    case Mul => None
    case _ =>
      if n < 2 then None
      else match Binary(op, stack[n - 2], stack[n - 1])
        case None => None
        case Some(v) => Some(stack[..n - 2] + [v])
  }

  function Run(m: Machine, ops: seq<Op>, stack: seq<nat>): Option<seq<nat>>
    decreases |ops|
  {
    if ops == [] then Some(stack)
    else match StepOp(m, ops[0], stack)
      case None => None
      case Some(next) => Run(m, ops[1..], next)
  }

  /** `execute_dwarf_cfa_exp`: exactly one word must be left. */
  function Execute(m: Machine, ops: seq<Op>): Option<nat> {
    match Run(m, ops, [])
    case None => None
    case Some(stack) => if |stack| == 1 then Some(stack[0]) else None
  }

  // ---- Reading through the mirror ----

  /** The mapping slots, how many are in use, and the bytes at the mirrors. */
  datatype Sight = Sight(slots: seq<Kmap>, count: nat, bytes: nat -> Byte)

  predicate SightOk(v: Sight, hint: nat) {
    v.count <= |v.slots| && HintOk(v.slots, hint)
  }

  function Eight(bytes: nat -> Byte, y: nat): seq<Byte> {
    seq(8, k requires 0 <= k < 8 => bytes(y + k))
  }

  function ReadWord(bytes: nat -> Byte, y: nat): nat {
    Number(Eight(bytes, y))
  }

  /** A word is eight bytes, the lowest first. */
  lemma WordIsEight(bytes: nat -> Byte, y: nat)
    ensures ReadWord(bytes, y) ==
            bytes(y) as nat + bytes(y + 1) as nat * 0x100 + bytes(y + 2) as nat * 0x1_0000
            + bytes(y + 3) as nat * 0x100_0000 + bytes(y + 4) as nat * 0x1_0000_0000
            + bytes(y + 5) as nat * 0x100_0000_0000 + bytes(y + 6) as nat * 0x1_0000_0000_0000
            + bytes(y + 7) as nat * 0x100_0000_0000_0000
  {
    NumberOfEight(Eight(bytes, y));
  }

  /** The word at an address of the traced process, and the next probe. */
  function Read(v: Sight, hint: nat, x: nat): (r: Option<(nat, nat)>)
    requires SightOk(v, hint)
    ensures r.Some? ==> SightOk(v, r.value.1)
  {
    var (y, next) := SearchIn(v.slots, v.count, hint, x);
    if y == 0 then None else Some((ReadWord(v.bytes, y), next))
  }

  /** One operation, with the probe that dereferences leave behind. */
  function StepIn(v: Sight, regs: seq<nat>, hint: nat, op: Op, stack: seq<nat>): (r: Option<(seq<nat>, nat)>)
    requires SightOk(v, hint)
    ensures r.Some? ==> SightOk(v, r.value.1)
  {
    if op.Deref? && stack != [] && Read(v, hint, stack[|stack| - 1]).Some? then
      var (word, next) := Read(v, hint, stack[|stack| - 1]).value;
      Some((stack[..|stack| - 1] + [word], next))
    else match StepOp(Machine(regs, _ => None), op, stack)
      case None => None
      case Some(after) => Some((after, hint))
  }

  function RunIn(v: Sight, regs: seq<nat>, hint: nat, ops: seq<Op>, stack: seq<nat>): (r: Option<(seq<nat>, nat)>)
    requires SightOk(v, hint)
    ensures r.Some? ==> SightOk(v, r.value.1)
    decreases |ops|
  {
    if ops == [] then Some((stack, hint))
    else match StepIn(v, regs, hint, ops[0], stack)
      case None => None
      case Some((after, next)) => RunIn(v, regs, next, ops[1..], after)
  }

  /** The value, and the probe left behind. */
  function ExecuteIn(v: Sight, regs: seq<nat>, hint: nat, ops: seq<Op>): Option<(nat, nat)>
    requires SightOk(v, hint)
  {
    match RunIn(v, regs, hint, ops, [])
    case None => None
    case Some((stack, next)) => if |stack| == 1 then Some((stack[0], next)) else None
  }

  /** The words a first lookup finds. */
  function Words(v: Sight): nat -> Option<nat>
    requires v.count <= |v.slots|
  {
    x => match Read(v, 0, x) case None => None case Some((word, _)) => Some(word)
  }

  lemma StepInIsStep(v: Sight, regs: seq<nat>, hint: nat, op: Op, stack: seq<nat>)
    requires v.count == |v.slots| && SightOk(v, hint) && HistoryFree(v.slots)
    ensures var r := StepIn(v, regs, hint, op, stack);
            StepOp(Machine(regs, Words(v)), op, stack) == if r.None? then None else Some(r.value.0)
  {
    hide Word, Binary, ReadWord;
    if op.Deref? && stack != [] {
      assert Search(v.slots, hint, stack[|stack| - 1]).0 == Search(v.slots, 0, stack[|stack| - 1]).0;
    }
  }

  /** Where no answer depends on earlier lookups, the executor's dereferences read one fixed memory. */
  lemma {:induction false} RunInIsRun(v: Sight, regs: seq<nat>, hint: nat, ops: seq<Op>, stack: seq<nat>)
    requires v.count == |v.slots| && SightOk(v, hint) && HistoryFree(v.slots)
    ensures var r := RunIn(v, regs, hint, ops, stack);
            Run(Machine(regs, Words(v)), ops, stack) == if r.None? then None else Some(r.value.0)
    decreases |ops|
  {
    hide StepIn, StepOp, HistoryFree, Words;
    if ops != [] {
      StepInIsStep(v, regs, hint, ops[0], stack);
      var r := StepIn(v, regs, hint, ops[0], stack);
      if r.Some? {
        RunInIsRun(v, regs, r.value.1, ops[1..], r.value.0);
      }
    }
  }

  lemma ExecuteInIsExecute(v: Sight, regs: seq<nat>, hint: nat, ops: seq<Op>)
    requires v.count == |v.slots| && SightOk(v, hint) && HistoryFree(v.slots)
    ensures var r := ExecuteIn(v, regs, hint, ops);
            Execute(Machine(regs, Words(v)), ops) == if r.None? then None else Some(r.value.0)
  {
    hide HistoryFree, Words;
    RunInIsRun(v, regs, hint, ops, []);
  }

  lemma {:induction false} RunInConcat(v: Sight, regs: seq<nat>, hint: nat, a: seq<Op>, b: seq<Op>, stack: seq<nat>)
    requires SightOk(v, hint)
    ensures RunIn(v, regs, hint, a + b, stack) == match RunIn(v, regs, hint, a, stack)
                                                  case None => None
                                                  case Some((mid, next)) => RunIn(v, regs, next, b, mid)
    decreases |a|
  {
    hide StepIn;
    if a == [] {
      assert a + b == b;
    } else {
      assert (a + b)[0] == a[0] && (a + b)[1..] == a[1..] + b;
      var r := StepIn(v, regs, hint, a[0], stack);
      if r.Some? {
        RunInConcat(v, regs, r.value.1, a[1..], b, r.value.0);
      }
    }
  }

  /** The fixed stack of the executor, and the translator it reads through. */
  class Executor {
    const slots: array<nat>
    const reader: Translator
    var depth: nat

    ghost predicate Valid()
      reads this, reader
    {
      slots.Length == MAX_STACK && depth <= MAX_STACK && reader.Valid()
    }

    ghost function Contents(): seq<nat>
      requires Valid()
      reads this, slots, reader
    {
      slots[..depth]
    }

    ghost function View(bytes: nat -> Byte): Sight
      reads reader, reader.slots
    {
      Sight(reader.slots[..], reader.count, bytes)
    }

    constructor (reader: Translator)
      requires reader.Valid()
      ensures Valid() && Contents() == [] && fresh(slots) && this.reader == reader
    {
      slots := new nat[MAX_STACK](_ => 0);
      this.reader := reader;
      depth := 0;
    }

    /** Replace the top `used` words by one. */
    method Replace(used: nat, v: nat)
      requires Valid() && used <= depth && depth - used < MAX_STACK
      modifies this`depth, slots
      ensures Valid() && Contents() == old(Contents())[..old(depth) - used] + [v]
    {
      depth := depth - used;
      slots[depth] := v;
      depth := depth + 1;
      assert Contents() == slots[..depth - 1] + [v];
    }

    /** The word behind an address of the traced process. */
    method ReadAt(bytes: nat -> Byte, x: nat) returns (word: Option<nat>)
      requires reader.Valid()
      modifies reader`hint
      ensures reader.Valid()
      ensures match Read(View(bytes), old(reader.hint), x)
              case None => word == None
              case Some((w, next)) => word == Some(w) && reader.hint == next
    {
      var y := reader.FindAddr(x);
      return if y == 0 then None else Some(ReadWord(bytes, y));
    }

    /** One operation. */
    method Step(bytes: nat -> Byte, regs: seq<nat>, op: Op) returns (ok: bool)
      requires Valid() && depth < MAX_STACK
      modifies this`depth, slots, reader`hint
      ensures Valid()
      ensures match StepIn(View(bytes), regs, old(reader.hint), op, old(Contents()))
              case None => !ok
              case Some((after, next)) => ok && Contents() == after && reader.hint == next
    {
      hide Word, Binary, ReadWord, SearchIn;
      ok := true;
      assert Contents()[..depth] == Contents();
      match op {
        case Breg(reg, offset) =>
          if reg >= |regs| {
            return false;
          }
          Replace(0, Word(regs[reg] + offset));
        case Lit(value) =>
          Replace(0, value);
        case Deref =>
          if depth < 1 {
            return false;
          }
          var word := ReadAt(bytes, slots[depth - 1]);
          if word.None? {
            return false;
          }
          Replace(1, word.value);
        case PlusUconst(addend) =>
          if depth < 1 {
            return false;
          }
          Replace(1, Word(slots[depth - 1] + addend));
        case Mul =>
          return false;
        case _ =>
          if depth < 2 {
            return false;
          }
          var r := Binary(op, slots[depth - 2], slots[depth - 1]);
          if r.None? {
            return false;
          }
          Replace(2, r.value);
      }
    }

    /** `execute_dwarf_cfa_exp`. The bound on the number of operations alone keeps the stack within its
        slots. */
    method Evaluate(bytes: nat -> Byte, regs: seq<nat>, ops: seq<Op>) returns (r: Option<nat>)
      requires Valid() && |ops| <= 63
      modifies this`depth, slots, reader`hint
      ensures Valid()
      ensures match ExecuteIn(View(bytes), regs, old(reader.hint), ops)
              case None => r == None
              case Some((value, next)) => r == Some(value) && reader.hint == next
    {
      hide StepIn, StepOp, SearchIn;
      depth := 0;
      var i := 0;
      ghost var view := View(bytes);
      assert ops[0..] == ops && Contents() == [];
      while i < |ops|
        invariant i <= |ops| && Valid() && depth <= i && View(bytes) == view
        invariant RunIn(view, regs, old(reader.hint), ops, []) == RunIn(view, regs, reader.hint, ops[i..], Contents())
      {
        assert ops[i..][0] == ops[i] && ops[i..][1..] == ops[i + 1..];
        ghost var was, hint := Contents(), reader.hint;
        var ok := Step(bytes, regs, ops[i]);
        if !ok {
          return None;
        }
        StepInGrows(view, regs, hint, ops[i], was);
        i := i + 1;
      }
      return if depth == 1 then Some(slots[0]) else None;
    }

    /** `execute_dwarf_reg_exp`: the word behind the value is what the expression gives with one more
        dereference at its end. */
    method EvaluateRegister(bytes: nat -> Byte, regs: seq<nat>, ops: seq<Op>) returns (r: Option<nat>)
      requires Valid() && |ops| < MAX_STACK
      modifies this`depth, slots, reader`hint
      ensures Valid()
      ensures match ExecuteIn(View(bytes), regs, old(reader.hint), ops + [Deref])
              case None => r == None
              case Some((value, next)) => r == Some(value) && reader.hint == next
    {
      hide RunIn, Read;
      RegisterIsDeref(View(bytes), regs, reader.hint, ops);
      r := Evaluate(bytes, regs, ops);
      if r.Some? {
        r := ReadAt(bytes, r.value);
      }
    }
  }

  lemma RegisterIsDeref(v: Sight, regs: seq<nat>, hint: nat, ops: seq<Op>)
    requires SightOk(v, hint)
    ensures var whole := ExecuteIn(v, regs, hint, ops + [Deref]);
            match ExecuteIn(v, regs, hint, ops)
            case None => whole == None
            case Some((x, next)) => SightOk(v, next) && whole == Read(v, next, x)
  {
    hide SearchIn, ReadWord;
    RunInConcat(v, regs, hint, ops, [Deref], []);
    var r := RunIn(v, regs, hint, ops, []);
    if r.Some? {
      assert [Deref][1..] == [];
    }
  }

  lemma StepInGrows(v: Sight, regs: seq<nat>, hint: nat, op: Op, stack: seq<nat>)
    requires SightOk(v, hint)
    ensures StepIn(v, regs, hint, op, stack).Some? ==> |StepIn(v, regs, hint, op, stack).value.0| <= |stack| + 1
  {
  }

  // ---- Expressions as trees ----

  datatype Tree =
    | Constant(value: nat)
    | Register(reg: nat, offset: int)
    | Load(address: Tree)
    | Offset(base: Tree, addend: nat)
    | Both(op: Op, left: Tree, right: Tree)

  /** What an operator means for its left and right operand. */
  function Apply(op: Op, left: nat, right: nat): Option<nat>
    requires IsBinary(op)
  {
    match op
    case And => Some(BitAnd(left, right))
    case Ge => Some(if left >= right then 1 else 0)
    case Plus => Some((left + right) % 0x1_0000_0000_0000_0000)
    case Shl => if right >= 64 then None else Some(left * Pow2(right) % 0x1_0000_0000_0000_0000)
  }

  /** Bit number k of a word. */
  predicate Bit(a: nat, k: nat)
    decreases k
  {
    if k == 0 then a % 2 == 1 else Bit(a / 2, k - 1)
  }

  /** The conjunction holds bit by bit. */
  lemma {:induction false} BitAndBits(a: nat, b: nat, k: nat)
    ensures Bit(BitAnd(a, b), k) <==> Bit(a, k) && Bit(b, k)
    decreases k
  {
    if a == 0 || b == 0 {
      ZeroBit(k);
    } else if k > 0 {
      BitAndBits(a / 2, b / 2, k - 1);
      assert BitAnd(a, b) / 2 == BitAnd(a / 2, b / 2);
    }
  }

  lemma {:induction false} ZeroBit(k: nat)
    ensures !Bit(0, k)
  {
    if k > 0 {
      ZeroBit(k - 1);
    }
  }

  lemma {:induction false} BitAndCommutes(a: nat, b: nat)
    ensures BitAnd(a, b) == BitAnd(b, a)
  {
    if a != 0 && b != 0 {
      BitAndCommutes(a / 2, b / 2);
    }
  }

  /** The machine's operations on its two top words are the operators on left and right operand. */
  lemma BinaryIsApply(op: Op, left: nat, right: nat)
    requires IsBinary(op)
    ensures Binary(op, left, right) == Apply(op, left, right)
  {
    BitAndCommutes(left, right);
  }

  predicate Proper(t: Tree) {
    match t
    case Constant(_) => true
    case Register(_, _) => true
    case Load(address) => Proper(address)
    case Offset(base, _) => Proper(base)
    case Both(op, left, right) => IsBinary(op) && Proper(left) && Proper(right)
  }

  /** The meaning of a tree. */
  function Eval(m: Machine, t: Tree): Option<nat>
    requires Proper(t)
  {
    match t
    case Constant(value) => Some(value)
    case Register(reg, offset) => if reg < |m.regs| then Some(Word(m.regs[reg] + offset)) else None
    case Load(address) =>
      (match Eval(m, address)
       case None => None
       case Some(a) => m.memory(a))
    case Offset(base, addend) =>
      (match Eval(m, base)
       case None => None
       case Some(b) => Some(Word(b + addend)))
    case Both(op, left, right) =>
      match (Eval(m, left), Eval(m, right))
      case (Some(l), Some(r)) => Apply(op, l, r)
      case (_, _) => None
  }

  function Postfix(t: Tree): (ops: seq<Op>)
    requires Proper(t)
    ensures |ops| > 0
  {
    match t
    case Constant(value) => [Lit(value)]
    case Register(reg, offset) => [Breg(reg, offset)]
    case Load(address) => Postfix(address) + [Deref]
    case Offset(base, addend) => Postfix(base) + [PlusUconst(addend)]
    case Both(op, left, right) => Postfix(left) + Postfix(right) + [op]
  }

  lemma {:induction false} RunConcat(m: Machine, a: seq<Op>, b: seq<Op>, stack: seq<nat>)
    ensures Run(m, a + b, stack) == match Run(m, a, stack) case None => None case Some(mid) => Run(m, b, mid)
    decreases |a|
  {
    hide StepOp;
    if a == [] {
      assert a + b == b;
    } else {
      assert (a + b)[0] == a[0] && (a + b)[1..] == a[1..] + b;
      var next := StepOp(m, a[0], stack);
      if next.Some? {
        RunConcat(m, a[1..], b, next.value);
      }
    }
  }

  function Pushed(stack: seq<nat>, v: Option<nat>): Option<seq<nat>> {
    match v
    case None => None
    case Some(word) => Some(stack + [word])
  }

  lemma RunOne(m: Machine, op: Op, stack: seq<nat>)
    ensures Run(m, [op], stack) == StepOp(m, op, stack)
  {
    assert [op][1..] == [];
  }

  lemma BinaryPushes(m: Machine, op: Op, l: nat, r: nat, stack: seq<nat>)
    requires IsBinary(op)
    ensures StepOp(m, op, stack + [l] + [r]) == Pushed(stack, Apply(op, l, r))
  {
    hide Binary, Apply;
    BinaryIsApply(op, l, r);
    assert (stack + [l] + [r])[..|stack|] == stack;
  }

  /** Running the postfix form pushes the value of the tree, and stops exactly when the tree has none. */
  lemma {:induction false} PostfixPushes(m: Machine, t: Tree, stack: seq<nat>)
    requires Proper(t)
    ensures Run(m, Postfix(t), stack) == Pushed(stack, Eval(m, t))
    decreases t
  {
    hide Run, Word, Binary, Apply;
    match t {
      case Constant(value) => RunOne(m, Lit(value), stack);
      case Register(reg, offset) => RunOne(m, Breg(reg, offset), stack);
      case Load(address) =>
        PostfixPushes(m, address, stack);
        RunConcat(m, Postfix(address), [Deref], stack);
        if Eval(m, address).Some? {
          RunOne(m, Deref, stack + [Eval(m, address).value]);
        }
      case Offset(base, addend) =>
        PostfixPushes(m, base, stack);
        RunConcat(m, Postfix(base), [PlusUconst(addend)], stack);
        if Eval(m, base).Some? {
          RunOne(m, PlusUconst(addend), stack + [Eval(m, base).value]);
        }
      case Both(op, left, right) =>
        PostfixPushes(m, left, stack);
        RunConcat(m, Postfix(left) + Postfix(right), [op], stack);
        RunConcat(m, Postfix(left), Postfix(right), stack);
        if Eval(m, left).Some? {
          var l := Eval(m, left).value;
          PostfixPushes(m, right, stack + [l]);
          if Eval(m, right).Some? {
            var r := Eval(m, right).value;
            RunOne(m, op, stack + [l] + [r]);
            BinaryPushes(m, op, l, r, stack);
          }
        }
    }
  }

  /** Executing the postfix form of a tree gives its value, with one word left. */
  lemma PostfixExecutes(m: Machine, t: Tree)
    requires Proper(t)
    ensures Execute(m, Postfix(t)) == Eval(m, t)
  {
    PostfixPushes(m, t, []);
  }

  // ---- Which operation lists are expressions ----

  /** The operations of several trees, one after another. */
  function Spine(trees: seq<Tree>): seq<Op>
    requires forall t | t in trees :: Proper(t)
  {
    if trees == [] then [] else Spine(trees[..|trees| - 1]) + Postfix(trees[|trees| - 1])
  }

  lemma SpineMore(trees: seq<Tree>, t: Tree)
    requires Proper(t) && forall u | u in trees :: Proper(u)
    ensures Spine(trees + [t]) == Spine(trees) + Postfix(t)
  {
    assert (trees + [t])[..|trees|] == trees;
  }

  /** What one operation makes of the trees. */
  function Grow(op: Op, trees: seq<Tree>): (r: Option<seq<Tree>>)
    requires forall t | t in trees :: Proper(t)
    ensures r.Some? ==> forall t | t in r.value :: Proper(t)
  {
    var n := |trees|;
    match op
    case Lit(value) => Some(trees + [Constant(value)])
    case Breg(reg, offset) => Some(trees + [Register(reg, offset)])
    case Deref => if n < 1 then None else Some(trees[..n - 1] + [Load(trees[n - 1])])
    case PlusUconst(addend) => if n < 1 then None else Some(trees[..n - 1] + [Offset(trees[n - 1], addend)])
    case Mul => None
    case _ => if n < 2 then None else Some(trees[..n - 2] + [Both(op, trees[n - 2], trees[n - 1])])
  }

  /** Running an operation list on trees instead of words. */
  function Build(ops: seq<Op>, trees: seq<Tree>): (r: Option<seq<Tree>>)
    requires forall t | t in trees :: Proper(t)
    ensures r.Some? ==> forall t | t in r.value :: Proper(t)
    decreases |ops|
  {
    if ops == [] then Some(trees)
    else match Grow(ops[0], trees)
      case None => None
      case Some(next) => Build(ops[1..], next)
  }

  lemma GrowSpine(op: Op, trees: seq<Tree>)
    requires forall t | t in trees :: Proper(t)
    requires Grow(op, trees).Some?
    ensures Spine(Grow(op, trees).value) == Spine(trees) + [op]
  {
    hide Spine;
    var n := |trees|;
    if op.Lit? {
      SpineMore(trees, Constant(op.value));
    } else if op.Breg? {
      SpineMore(trees, Register(op.reg, op.offset));
    } else if op.Deref? {
      SpineUnary(op, trees, Load(trees[n - 1]));
    } else if op.PlusUconst? {
      SpineUnary(op, trees, Offset(trees[n - 1], op.addend));
    } else {
      SpineBinary(op, trees);
    }
  }

  lemma SpineUnary(op: Op, trees: seq<Tree>, t: Tree)
    requires trees != [] && Proper(t) && forall u | u in trees :: Proper(u)
    requires Postfix(t) == Postfix(trees[|trees| - 1]) + [op]
    ensures Spine(trees[..|trees| - 1] + [t]) == Spine(trees) + [op]
  {
    hide Spine, Postfix;
    var rest, last := trees[..|trees| - 1], trees[|trees| - 1];
    assert trees == rest + [last];
    SpineMore(rest, last);
    SpineMore(rest, t);
  }

  lemma SpineBinary(op: Op, trees: seq<Tree>)
    requires IsBinary(op) && |trees| >= 2 && forall u | u in trees :: Proper(u)
    ensures var n := |trees|;
            Spine(trees[..n - 2] + [Both(op, trees[n - 2], trees[n - 1])]) == Spine(trees) + [op]
  {
    hide Spine, Proper, Postfix;
    var n := |trees|;
    var rest, l, r := trees[..n - 2], trees[n - 2], trees[n - 1];
    TwoLast(trees);
    assert l in trees && r in trees && forall u | u in rest :: u in trees;
    SpineJoin(op, rest, l, r);
  }

  lemma TwoLast(trees: seq<Tree>)
    requires |trees| >= 2
    ensures var n := |trees|; trees == trees[..n - 2] + [trees[n - 2]] + [trees[n - 1]]
  {
  }

  lemma SpineJoin(op: Op, rest: seq<Tree>, l: Tree, r: Tree)
    requires IsBinary(op) && Proper(l) && Proper(r) && forall u | u in rest :: Proper(u)
    ensures forall u | u in rest + [l] + [r] :: Proper(u)
    ensures Spine(rest + [Both(op, l, r)]) == Spine(rest + [l] + [r]) + [op]
  {
    assert Postfix(Both(op, l, r)) == Postfix(l) + Postfix(r) + [op];
    hide Spine, Postfix;
    SpineMore(rest, Both(op, l, r));
    SpineMore(rest, l);
    SpineMore(rest + [l], r);
    Regroup(Spine(rest), Postfix(l), Postfix(r), [op]);
  }

  lemma Regroup(a: seq<Op>, b: seq<Op>, c: seq<Op>, d: seq<Op>)
    ensures a + (b + c + d) == a + b + c + d
  {
  }

  /** Building loses nothing: the trees' operations are the operations that were run. */
  lemma {:induction false} BuildSpine(ops: seq<Op>, trees: seq<Tree>)
    requires forall t | t in trees :: Proper(t)
    requires Build(ops, trees).Some?
    ensures Spine(Build(ops, trees).value) == Spine(trees) + ops
    decreases |ops|
  {
    hide Grow, Spine;
    if ops == [] {
      assert Spine(trees) + [] == Spine(trees);
    } else {
      GrowSpine(ops[0], trees);
      BuildSpine(ops[1..], Grow(ops[0], trees).value);
      assert ops == [ops[0]] + ops[1..];
    }
  }

  lemma {:induction false} BuildConcat(a: seq<Op>, b: seq<Op>, trees: seq<Tree>)
    requires forall t | t in trees :: Proper(t)
    ensures Build(a + b, trees) == match Build(a, trees) case None => None case Some(mid) => Build(b, mid)
    decreases |a|
  {
    hide Grow;
    if a == [] {
      assert a + b == b;
    } else {
      assert (a + b)[0] == a[0] && (a + b)[1..] == a[1..] + b;
      if Grow(a[0], trees).Some? {
        BuildConcat(a[1..], b, Grow(a[0], trees).value);
      }
    }
  }

  lemma BuildOne(op: Op, trees: seq<Tree>)
    requires forall t | t in trees :: Proper(t)
    ensures Build([op], trees) == Grow(op, trees)
  {
    assert [op][1..] == [];
  }

  /** The postfix form of a tree builds that tree. */
  lemma {:induction false} PostfixBuilds(t: Tree, trees: seq<Tree>)
    requires Proper(t) && forall u | u in trees :: Proper(u)
    ensures Build(Postfix(t), trees) == Some(trees + [t])
    decreases t
  {
    hide Build;
    match t {
      case Constant(value) => BuildOne(Lit(value), trees);
      case Register(reg, offset) => BuildOne(Breg(reg, offset), trees);
      case Load(address) =>
        PostfixBuilds(address, trees);
        BuildConcat(Postfix(address), [Deref], trees);
        BuildOne(Deref, trees + [address]);
      case Offset(base, addend) =>
        PostfixBuilds(base, trees);
        BuildConcat(Postfix(base), [PlusUconst(addend)], trees);
        BuildOne(PlusUconst(addend), trees + [base]);
      case Both(op, left, right) =>
        PostfixBuilds(left, trees);
        PostfixBuilds(right, trees + [left]);
        BuildConcat(Postfix(left), Postfix(right), trees);
        BuildConcat(Postfix(left) + Postfix(right), [op], trees);
        BuildOne(op, trees + [left] + [right]);
        assert (trees + [left] + [right])[..|trees|] == trees;
    }
  }

  /** An operation list is the postfix form of a tree exactly when it builds that tree alone; so it is
      the form of at most one. */
  lemma PostfixIffBuilds(ops: seq<Op>, t: Tree)
    requires Proper(t)
    ensures Postfix(t) == ops <==> Build(ops, []) == Some([t])
  {
    hide Build, Postfix, Spine;
    PostfixBuilds(t, []);
    assert [] + [t] == [t];
    if Build(ops, []) == Some([t]) {
      BuildSpine(ops, []);
      SpineMore([], t);
      NoSpine(ops, Postfix(t));
    }
  }

  lemma NoSpine(ops: seq<Op>, more: seq<Op>)
    ensures Spine([]) + ops == ops && Spine([]) + more == more
  {
  }

  /** The values of several trees, if all have one. */
  function EvalAll(m: Machine, trees: seq<Tree>): Option<seq<nat>>
    requires forall t | t in trees :: Proper(t)
  {
    if trees == [] then Some([])
    else match EvalAll(m, trees[..|trees| - 1])
      case None => None
      case Some(vs) => Pushed(vs, Eval(m, trees[|trees| - 1]))
  }

  lemma EvalMore(m: Machine, trees: seq<Tree>, t: Tree)
    requires Proper(t) && forall u | u in trees :: Proper(u)
    ensures EvalAll(m, trees + [t]) == match EvalAll(m, trees) case None => None case Some(vs) => Pushed(vs, Eval(m, t))
  {
    assert (trees + [t])[..|trees|] == trees;
  }

  lemma {:induction false} EvalLength(m: Machine, trees: seq<Tree>)
    requires forall t | t in trees :: Proper(t)
    ensures EvalAll(m, trees).Some? ==> |EvalAll(m, trees).value| == |trees|
  {
    if trees != [] {
      EvalLength(m, trees[..|trees| - 1]);
    }
  }

  /** The values after one operation on the trees. */
  ghost predicate Evals(m: Machine, op: Op, trees: seq<Tree>)
    requires forall t | t in trees :: Proper(t)
  {
    var vs := EvalAll(m, trees);
    match Grow(op, trees)
    case None => vs.Some? ==> StepOp(m, op, vs.value) == None
    case Some(next) => EvalAll(m, next) == if vs.None? then None else StepOp(m, op, vs.value)
  }

  lemma GrowEvals(m: Machine, op: Op, trees: seq<Tree>)
    requires forall t | t in trees :: Proper(t)
    ensures Evals(m, op, trees)
  {
    EvalLength(m, trees);
    hide EvalAll, Word, Binary, Apply;
    if op.Lit? {
      EvalMore(m, trees, Constant(op.value));
    } else if op.Breg? {
      EvalMore(m, trees, Register(op.reg, op.offset));
    } else if op.Deref? || op.PlusUconst? {
      UnaryEvals(m, op, trees);
    } else if IsBinary(op) {
      BinaryEvals(m, op, trees);
    }
  }

  lemma UnaryEvals(m: Machine, op: Op, trees: seq<Tree>)
    requires (op.Deref? || op.PlusUconst?) && forall t | t in trees :: Proper(t)
    ensures Evals(m, op, trees)
  {
    EvalLength(m, trees);
    hide EvalAll, Word;
    if trees != [] {
      var rest, last := trees[..|trees| - 1], trees[|trees| - 1];
      assert trees == rest + [last];
      EvalMore(m, rest, last);
      EvalMore(m, rest, if op.Deref? then Load(last) else Offset(last, op.addend));
      LastPushed(EvalAll(m, rest), Eval(m, last));
    }
  }

  lemma LastPushed(vs: Option<seq<nat>>, v: Option<nat>)
    ensures vs.Some? && v.Some? ==>
              var s := Pushed(vs.value, v).value; s[..|s| - 1] == vs.value && s[|s| - 1] == v.value
  {
  }

  lemma BinaryEvals(m: Machine, op: Op, trees: seq<Tree>)
    requires IsBinary(op) && forall t | t in trees :: Proper(t)
    ensures Evals(m, op, trees)
  {
    EvalLength(m, trees);
    hide EvalAll, Binary, Apply;
    if |trees| >= 2 {
      var n := |trees|;
      var rest, l, r := trees[..n - 2], trees[n - 2], trees[n - 1];
      assert trees == rest + [l] + [r];
      EvalMore(m, rest, Both(op, l, r));
      EvalMore(m, rest, l);
      EvalMore(m, rest + [l], r);
      var vs, a, b := EvalAll(m, rest), Eval(m, l), Eval(m, r);
      if vs.Some? && a.Some? && b.Some? {
        BinaryPushes(m, op, a.value, b.value, vs.value);
      }
    }
  }

  lemma {:induction false} BuildEvals(m: Machine, ops: seq<Op>, trees: seq<Tree>)
    requires forall t | t in trees :: Proper(t)
    ensures var vs := EvalAll(m, trees);
            match Build(ops, trees)
            case None => vs.Some? ==> Run(m, ops, vs.value) == None
            case Some(next) => EvalAll(m, next) == if vs.None? then None else Run(m, ops, vs.value)
    decreases |ops|
  {
    hide Grow, StepOp, EvalAll;
    if ops != [] {
      GrowEvals(m, ops[0], trees);
      if Grow(ops[0], trees).Some? {
        BuildEvals(m, ops[1..], Grow(ops[0], trees).value);
      }
    }
  }

  /** What executing any operation list gives: the value of the tree it is the postfix form of, or a
      stop if it is the form of none. */
  lemma ExecuteMeans(m: Machine, ops: seq<Op>)
    ensures var r := Build(ops, []);
            if r.Some? && |r.value| == 1 then Postfix(r.value[0]) == ops && Execute(m, ops) == Eval(m, r.value[0])
            else Execute(m, ops) == None && forall t | Proper(t) :: Postfix(t) != ops
  {
    hide StepOp, Grow, Postfix, Proper, Eval;
    BuildEvals(m, ops, []);
    forall t | Proper(t) ensures Postfix(t) == ops <==> Build(ops, []) == Some([t]) {
      PostfixIffBuilds(ops, t);
    }
    var r := Build(ops, []);
    if r.Some? {
      EvalLength(m, r.value);
      if |r.value| == 1 {
        assert r.value == [r.value[0]];
        EvalMore(m, [], r.value[0]);
        assert [] + [r.value[0]] == r.value;
      }
    }
  }
}
