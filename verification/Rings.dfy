/** The packet queues of a replay context: ring buffers that keep one slot free (src/xed.c). */
module Rings {
  function Successor(i: nat, length: nat): (r: nat)
    requires i < length
    ensures r == if i + 1 == length then 0 else i + 1
  {
    (i + 1) % length
  }

  class Ring<T(0)> {
    const buf: array<T>
    var head: nat
    var tail: nat

    ghost predicate Valid()
      reads this, buf
    {
      head < buf.Length && tail < buf.Length
    }

    ghost function Contents(): seq<T>
      requires Valid()
      reads this, buf
    {
      if tail <= head then buf[tail..head] else buf[tail..] + buf[..head]
    }

    constructor (length: nat)
      requires length > 0
      ensures Valid() && fresh(buf) && buf.Length == length && Contents() == []
    {
      buf := new T[length];
      head, tail := 0, 0;
    }

    method IsEmpty() returns (empty: bool)
      requires Valid()
      ensures empty <==> Contents() == []
    {
      empty := head == tail;
    }

    /** The ring is full when one slot is left. */
    method Push(x: T) returns (ok: bool)
      requires Valid()
      modifies this`head, buf
      ensures Valid()
      ensures ok <==> |old(Contents())| + 1 < buf.Length
      ensures Contents() == if ok then old(Contents()) + [x] else old(Contents())
    {
      var next := Successor(head, buf.Length);
      ok := next != tail;
      if ok {
        buf[head] := x;
        head := next;
      }
    }

    method Front() returns (x: T)
      requires Valid() && Contents() != []
      ensures x == Contents()[0]
    {
      x := buf[tail];
    }

    method SetFront(x: T)
      requires Valid() && Contents() != []
      modifies buf
      ensures Valid() && Contents() == old(Contents())[0 := x]
    {
      buf[tail] := x;
    }

    method Pop()
      requires Valid() && Contents() != []
      modifies this`tail
      ensures Valid() && Contents() == old(Contents())[1..]
    {
      tail := Successor(tail, buf.Length);
    }

    method Clear()
      requires Valid()
      modifies this`head, this`tail
      ensures Valid() && Contents() == []
    {
      head := 0;
      tail := 0;
    }
  }
}
