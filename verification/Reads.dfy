/** What an unwinding expression reads: through the executor, the address search and the mirror, the
    words of the traced process. */
module Reads {
  import opened Options
  import opened Bytes
  import opened Kmaps
  import opened Mirrors
  import opened Dwarf

  // ---- Expressions whose loads are readable ----

  /** Whatever was looked up before, a read at x gives the word there. */
  ghost predicate ReadsAs(v: Sight, x: nat, word: Option<nat>)
    requires v.count <= |v.slots|
  {
    forall hint | HintOk(v.slots, hint) ::
      match Read(v, hint, x) case None => word == None case Some((w, _)) => word == Some(w)
  }

  /** Every address the tree loads from reads as in the machine. */
  ghost predicate LoadsAgree(v: Sight, m: Machine, t: Tree)
    requires v.count <= |v.slots| && Proper(t)
  {
    match t
    case Constant(_) => true
    case Register(_, _) => true
    case Load(address) =>
      && LoadsAgree(v, m, address)
      && (Eval(m, address).Some? ==> ReadsAs(v, Eval(m, address).value, m.memory(Eval(m, address).value)))
    case Offset(base, _) => LoadsAgree(v, m, base)
    case Both(_, left, right) => LoadsAgree(v, m, left) && LoadsAgree(v, m, right)
  }

  /** The run pushed the value, if there is one. */
  predicate PushedIn(stack: seq<nat>, value: Option<nat>, r: Option<(seq<nat>, nat)>) {
    match value
    case None => r == None
    case Some(w) => r.Some? && r.value.0 == stack + [w]
  }

  lemma RunInOne(v: Sight, regs: seq<nat>, hint: nat, op: Op, stack: seq<nat>)
    requires SightOk(v, hint)
    ensures RunIn(v, regs, hint, [op], stack) == StepIn(v, regs, hint, op, stack)
  {
    assert [op][1..] == [];
  }

  lemma BinaryPushesIn(v: Sight, regs: seq<nat>, hint: nat, op: Op, l: nat, r: nat, stack: seq<nat>)
    requires SightOk(v, hint) && IsBinary(op)
    ensures PushedIn(stack, Apply(op, l, r), StepIn(v, regs, hint, op, stack + [l] + [r]))
  {
    hide Apply, Binary;
    BinaryPushes(Machine(regs, _ => None), op, l, r, stack);
  }

  /** From any probe, running the postfix form pushes the tree's value. */
  lemma {:induction false} TreeReads(v: Sight, m: Machine, hint: nat, t: Tree, stack: seq<nat>)
    requires SightOk(v, hint) && Proper(t) && LoadsAgree(v, m, t)
    ensures PushedIn(stack, Eval(m, t), RunIn(v, m.regs, hint, Postfix(t), stack))
    decreases t, 1
  {
    hide RunIn, Read, Word, Binary, Apply;
    match t {
      case Constant(value) => RunInOne(v, m.regs, hint, Lit(value), stack);
      case Register(reg, offset) => RunInOne(v, m.regs, hint, Breg(reg, offset), stack);
      case Load(address) =>
        TreeReads(v, m, hint, address, stack);
        RunInConcat(v, m.regs, hint, Postfix(address), [Deref], stack);
        var r := RunIn(v, m.regs, hint, Postfix(address), stack);
        if r.Some? {
          RunInOne(v, m.regs, r.value.1, Deref, r.value.0);
        }
      case Offset(base, addend) =>
        TreeReads(v, m, hint, base, stack);
        RunInConcat(v, m.regs, hint, Postfix(base), [PlusUconst(addend)], stack);
        var r := RunIn(v, m.regs, hint, Postfix(base), stack);
        if r.Some? {
          RunInOne(v, m.regs, r.value.1, PlusUconst(addend), r.value.0);
        }
      case Both(op, left, right) =>
        BothReads(v, m, hint, op, left, right, stack);
    }
  }

  lemma {:induction false} BothReads(v: Sight, m: Machine, hint: nat, op: Op, left: Tree, right: Tree, stack: seq<nat>)
    requires SightOk(v, hint) && Proper(Both(op, left, right)) && LoadsAgree(v, m, Both(op, left, right))
    ensures PushedIn(stack, Eval(m, Both(op, left, right)),
                     RunIn(v, m.regs, hint, Postfix(left) + Postfix(right) + [op], stack))
    decreases Both(op, left, right), 0
  {
    hide RunIn, StepIn, Word, Binary, Apply;
    TreeReads(v, m, hint, left, stack);
    RunInConcat(v, m.regs, hint, Postfix(left) + Postfix(right), [op], stack);
    RunInConcat(v, m.regs, hint, Postfix(left), Postfix(right), stack);
    var l := RunIn(v, m.regs, hint, Postfix(left), stack);
    if l.Some? {
      TreeReads(v, m, l.value.1, right, l.value.0);
      var r := RunIn(v, m.regs, l.value.1, Postfix(right), l.value.0);
      if r.Some? {
        RunInOne(v, m.regs, r.value.1, op, r.value.0);
        BinaryPushesIn(v, m.regs, r.value.1, op, Eval(m, left).value, Eval(m, right).value, stack);
      }
    }
  }

  // ---- Words of the traced process ----

  /** The mirrors show the traced process's bytes. */
  ghost predicate Mirrored(pages: seq<Page>, remapped: set<nat>, base: nat, bytes: nat -> Byte, traced: nat -> Byte) {
    forall y: nat | Behind(pages, remapped, base, y).Some? :: bytes(y) == traced(Behind(pages, remapped, base, y).value)
  }

  /** A whole word inside a mirrored mapping, with no page missing up to its last byte. */
  ghost predicate Readable(pages: seq<Page>, remapped: set<nat>, i: nat, x: nat) {
    && Head(pages, remapped, i) && pages[i].start <= x && x + 8 <= pages[i].end && x != 0
    && !SharedWithPrevious(pages, remapped, x)
    && (forall k: nat | k < |pages| :: k in remapped)
    && UpTo(pages, pages[i].start, (x + 7 - pages[i].start) / PAGE)
  }

  lemma ByteShown(pages: seq<Page>, remapped: set<nat>, base: nat, i: nat, x: nat, k: nat)
    requires PagesOk(pages) && Readable(pages, remapped, i, x) && k < 8
    ensures Behind(pages, remapped, base, base + PAGE * i + (x + k - pages[i].start)) == Some(x + k)
  {
    var d := x + k - pages[i].start;
    assert d / PAGE <= (x + 7 - pages[i].start) / PAGE;
    assert UpTo(pages, pages[i].addr, d / PAGE);
    Contiguous(pages, i, d / PAGE);
    hide PagesOk, Present, Behind;
    BehindAfter(pages, remapped, base, i, d);
  }

  lemma WordShown(pages: seq<Page>, remapped: set<nat>, base: nat, bytes: nat -> Byte, traced: nat -> Byte, i: nat,
                  x: nat)
    requires PagesOk(pages) && Readable(pages, remapped, i, x) && Mirrored(pages, remapped, base, bytes, traced)
    ensures i < |pages|
    ensures ReadWord(bytes, base + PAGE * i + (x - pages[i].start)) == ReadWord(traced, x)
  {
    assert i < |pages|;
    hide PagesOk, Behind, UpTo, Number, SharedWithPrevious, Head;
    var y := base + PAGE * i + (x - pages[i].start);
    forall k: nat | k < 8 ensures Eight(bytes, y)[k] == Eight(traced, x)[k] {
      ByteShown(pages, remapped, base, i, x, k);
      assert Behind(pages, remapped, base, y + k) == Some(x + k);
    }
    assert Eight(bytes, y) == Eight(traced, x);
  }

  /** Such a word is read as the traced process's, whatever was looked up before. */
  lemma WordIsTrue(pages: seq<Page>, remapped: set<nat>, base: nat, bytes: nat -> Byte, traced: nat -> Byte, i: nat,
                   x: nat)
    requires PagesOk(pages) && Readable(pages, remapped, i, x) && base > 0
    requires Mirrored(pages, remapped, base, bytes, traced)
    ensures var table := KmapsFrom(pages, remapped, base, 0);
            ReadsAs(Sight(table, |table|, bytes), x, Some(ReadWord(traced, x)))
  {
    WordShown(pages, remapped, base, bytes, traced, i, x);
    hide PagesOk, Behind, KmapsFrom, UpTo, Search, Mirrored, SharedWithPrevious, ReadWord;
    var table, y := KmapsFrom(pages, remapped, base, 0), base + PAGE * i + (x - pages[i].start);
    forall hint | HintOk(table, hint)
      ensures Search(table, hint, x).0 == y
    {
      MirrorShows(pages, remapped, base, i, x, hint);
    }
    SightReads(table, bytes, x, y);
  }

  lemma SightReads(table: seq<Kmap>, bytes: nat -> Byte, x: nat, y: nat)
    requires y != 0 && forall hint | HintOk(table, hint) :: Search(table, hint, x).0 == y
    ensures ReadsAs(Sight(table, |table|, bytes), x, Some(ReadWord(bytes, y)))
  {
    hide SearchIn, ReadWord;
    forall hint | HintOk(table, hint)
      ensures Read(Sight(table, |table|, bytes), hint, x)
              == Some((ReadWord(bytes, y), SearchIn(table, |table|, hint, x).1))
    {
      assert Search(table, hint, x).0 == y;
    }
  }

  /** The registers, and the traced process's own memory. */
  function Truth(regs: seq<nat>, traced: nat -> Byte): Machine {
    Machine(regs, x => Some(ReadWord(traced, x)))
  }

  /** Every address the tree loads from is readable. */
  ghost predicate LoadsReadable(pages: seq<Page>, remapped: set<nat>, m: Machine, t: Tree)
    requires Proper(t)
  {
    match t
    case Constant(_) => true
    case Register(_, _) => true
    case Load(address) =>
      && LoadsReadable(pages, remapped, m, address)
      && (Eval(m, address).Some? ==> exists i: nat :: Readable(pages, remapped, i, Eval(m, address).value))
    case Offset(base, _) => LoadsReadable(pages, remapped, m, base)
    case Both(_, left, right) => LoadsReadable(pages, remapped, m, left) && LoadsReadable(pages, remapped, m, right)
  }

  lemma {:induction false} ReadableAgree(pages: seq<Page>, remapped: set<nat>, base: nat, bytes: nat -> Byte,
                                         traced: nat -> Byte, regs: seq<nat>, t: Tree)
    requires PagesOk(pages) && base > 0 && Mirrored(pages, remapped, base, bytes, traced)
    requires Proper(t) && LoadsReadable(pages, remapped, Truth(regs, traced), t)
    ensures var table := KmapsFrom(pages, remapped, base, 0);
            LoadsAgree(Sight(table, |table|, bytes), Truth(regs, traced), t)
  {
    hide PagesOk, Mirrored, KmapsFrom, Readable, ReadsAs, ReadWord;
    match t {
      case Constant(_) =>
      case Register(_, _) =>
      case Load(address) =>
        ReadableAgree(pages, remapped, base, bytes, traced, regs, address);
        if Eval(Truth(regs, traced), address).Some? {
          var x := Eval(Truth(regs, traced), address).value;
          var i: nat :| Readable(pages, remapped, i, x);
          WordIsTrue(pages, remapped, base, bytes, traced, i, x);
        }
      case Offset(from, _) => ReadableAgree(pages, remapped, base, bytes, traced, regs, from);
      case Both(_, left, right) =>
        ReadableAgree(pages, remapped, base, bytes, traced, regs, left);
        ReadableAgree(pages, remapped, base, bytes, traced, regs, right);
    }
  }

  /** Executing an expression through the mirror gives its value over the traced process's own memory,
      from whatever probe the search starts, if its loads are readable. */
  lemma ExpressionIsTrue(pages: seq<Page>, remapped: set<nat>, base: nat, bytes: nat -> Byte, traced: nat -> Byte,
                         regs: seq<nat>, t: Tree, hint: nat)
    requires PagesOk(pages) && base > 0 && Mirrored(pages, remapped, base, bytes, traced)
    requires Proper(t) && LoadsReadable(pages, remapped, Truth(regs, traced), t)
    requires HintOk(KmapsFrom(pages, remapped, base, 0), hint)
    ensures var table := KmapsFrom(pages, remapped, base, 0);
            var r := ExecuteIn(Sight(table, |table|, bytes), regs, hint, Postfix(t));
            Eval(Truth(regs, traced), t) == if r.None? then None else Some(r.value.0)
  {
    hide PagesOk, Mirrored, KmapsFrom, LoadsReadable, LoadsAgree, Eval, RunIn;
    var table := KmapsFrom(pages, remapped, base, 0);
    ReadableAgree(pages, remapped, base, bytes, traced, regs, t);
    TreeReads(Sight(table, |table|, bytes), Truth(regs, traced), hint, t, []);
  }
}
