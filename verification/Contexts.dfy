/** A replay context as the source keeps it: a fixed-size call stack and two ring queues
    (`ctx_t`, src/xed.c). `Value` is the context of the specification. */
module Contexts {
  import opened Options
  import opened Replay
  import opened Rings

  class Context {
    var src: nat
    var last: int
    const stack: array<Frame>
    var depth: nat
    const tnt: Ring<Tnt>
    const tip: Ring<nat>

    /** The context and everything it is made of. */
    ghost const parts: set<object>

    ghost predicate Valid()
      reads parts
    {
      && this in parts && stack in parts && tnt in parts && tnt.buf in parts && tip in parts && tip.buf in parts
      && tnt as object != tip && stack as object != tnt.buf && stack as object != tip.buf
      && tnt.buf as object != tip.buf
      && stack.Length == CALL_STACK_LEN && tnt.buf.Length == TNT_QUEUE_LEN && tip.buf.Length == TIP_QUEUE_LEN
      && tnt.Valid() && tip.Valid() && depth < CALL_STACK_LEN
    }

    ghost function Value(): Ctx
      requires Valid()
      reads parts
    {
      Ctx(src, last, stack[..depth], tnt.Contents(), tip.Contents())
    }

    constructor ()
      ensures Valid() && fresh(parts) && this in parts
      ensures Value() == Ctx(0, -1, [], [], [])
    {
      src, last, depth := 0, -1, 0;
      var frames := new Frame[CALL_STACK_LEN](_ => Frame(0, 0, false));
      var bits := new Ring(TNT_QUEUE_LEN);
      var targets := new Ring(TIP_QUEUE_LEN);
      stack, tnt, tip := frames, bits, targets;
      parts := {this, frames, bits, bits.buf, targets, targets.buf};
    }

    /** `add_tnt`; false stands for the stop on a full queue. */
    method AddTnt(bits: nat, len: nat, en: bool) returns (ok: bool)
      requires Valid()
      modifies tnt`head, tnt.buf
      ensures Valid()
      ensures ok <==> len == 0 || |old(Value().tnt)| < 1023
      ensures Value() == if ok && len > 0 then old(Value()).(tnt := old(Value().tnt) + [Tnt(bits, len, en)])
              else old(Value())
    {
      ok := true;
      if len >= 1 {
        ok := tnt.Push(Tnt(bits, len, en));
      }
    }

    /** `add_tip`, where `highest` is the address of the last instruction. */
    method AddTip(addr: nat, highest: nat) returns (ok: bool)
      requires Valid()
      modifies tip`head, tip.buf
      ensures Valid()
      ensures ok <==> addr == 0 || (addr <= highest && |old(Value().tip)| < 1023)
      ensures Value() == if ok && addr != 0 then old(Value()).(tip := old(Value().tip) + [addr]) else old(Value())
    {
      ok := true;
      if addr != 0 {
        if addr > highest {
          ok := false;
        } else {
          ok := tip.Push(addr);
        }
      }
    }

    /** Drop a used-up packet from the front of the queue. */
    method RetireSpent()
      requires Valid()
      modifies tnt`tail
      ensures Valid() && Value() == old(Value()).(tnt := DropSpent(old(Value().tnt)))
    {
      var empty := tnt.IsEmpty();
      if !empty {
        var front := tnt.Front();
        if front.len == 0 {
          tnt.Pop();
        }
      }
    }

    method PeekBit() returns (bit: Option<Bit>)
      requires Valid()
      ensures bit == FrontBit(Value().tnt)
    {
      var empty := tnt.IsEmpty();
      if empty {
        return None;
      }
      var front := tnt.Front();
      bit := if front.len == 0 then None else Some(Bit(BitSet(front.bits, front.len - 1), front.en));
    }

    method TakeBit()
      requires Valid() && FrontBit(Value().tnt).Some?
      modifies tnt.buf
      ensures Valid() && Value() == old(Value()).(tnt := UseBit(old(Value().tnt)))
    {
      var front := tnt.Front();
      tnt.SetFront(front.(len := front.len - 1));
    }

    method PeekTip() returns (target: Option<nat>)
      requires Valid()
      ensures target == Front(Value().tip)
    {
      var empty := tip.IsEmpty();
      if empty {
        return None;
      }
      var front := tip.Front();
      target := Some(front);
    }

    method TakeTip()
      requires Valid() && Value().tip != []
      modifies tip`tail
      ensures Valid() && Value() == old(Value()).(tip := old(Value().tip)[1..])
    {
      tip.Pop();
    }

    /** Open a call; the program stops when the stack is full. */
    method PushCall(frame: Frame) returns (ok: bool)
      requires Valid()
      modifies this`depth, stack
      ensures ok <==> |old(Value().stack)| < 255
      ensures ok ==> Valid() && Value() == old(Value()).(stack := old(Value().stack) + [frame])
    {
      stack[depth] := frame;
      depth := depth + 1;
      ok := depth < CALL_STACK_LEN;
    }

    /** Close the innermost call. A return elsewhere empties the stack. */
    method PopCall(target: nat)
      requires Valid()
      modifies this`depth
      ensures Valid() && Value() == old(Value()).(stack := AfterRet(old(Value().stack), target))
    {
      if depth >= 1 {
        depth := depth - 1;
        if stack[depth].ret != target {
          depth := 0;
        }
      }
    }

    method Reset()
      requires Valid()
      modifies this`last, this`depth, tnt`head, tnt`tail, tip`head, tip`tail
      ensures Valid() && Value() == Ctx(old(Value().src), -1, [], [], [])
    {
      depth := 0;
      last := -1;
      tnt.Clear();
      tip.Clear();
    }

    method IsDrained() returns (drained: bool)
      requires Valid()
      ensures drained <==> Value().tnt == [] && Value().tip == []
    {
      var a := tnt.IsEmpty();
      var b := tip.IsEmpty();
      drained := a && b;
    }
  }
}
