/** From the ring the processor writes to the flat buffer the decoder reads (the PERF_RECORD_AUX case of
    `perfing_main`, src/main.c). */
module AuxRing {
  import opened Arithmetic
  import opened Options
  import opened Bytes

  const ALIGNMENT: nat := 32
  /** AUX_BUFFER_SIZE. */
  const BUFFER_SIZE: nat := 0x80_0000

  /** The byte i places after a stream offset. */
  function RingAt(ring: seq<Byte>, offset: nat, i: nat): Byte
    requires |ring| > 0
  {
    ring[(offset + i) % |ring|]
  }

  /** The bytes of the ring from a stream offset on. */
  function Straight(ring: seq<Byte>, offset: nat, size: nat): (x: seq<Byte>)
    requires |ring| > 0
    ensures |x| == size
  {
    seq(size, k requires 0 <= k < size => RingAt(ring, offset, k))
  }

  lemma Ahead(n: nat, a: nat, k: nat)
    requires n > 0 && a % n + k < n
    ensures (a + k) % n == a % n + k
  {
    DivisionUnique(n, a / n, a % n + k, (a + k) / n, (a + k) % n);
  }

  /** A block that does not reach the end of the ring is contiguous there. */
  lemma Contiguous(ring: seq<Byte>, offset: nat, j: nat, n: nat)
    requires |ring| > 0 && (j + offset) % |ring| + n <= |ring|
    ensures var from := (j + offset) % |ring|;
            forall i | j <= i < j + n :: RingAt(ring, offset, i) == ring[from + (i - j)]
  {
    forall i | j <= i < j + n ensures RingAt(ring, offset, i) == ring[(j + offset) % |ring| + (i - j)] {
      Ahead(|ring|, j + offset, i - j);
    }
  }

  /** What the copy has put in place so far. */
  ghost predicate Copied(buffer: array<Byte>, ring: seq<Byte>, offset: nat, upto: nat)
    requires |ring| > 0
    reads buffer
  {
    upto <= buffer.Length && forall i | 0 <= i < upto :: buffer[i] == RingAt(ring, offset, i)
  }

  class AuxReader {
    /** The ring shared with the kernel, and the flat buffer for records that wrap. */
    const ring: array<Byte>
    const buffer: array<Byte>
    var tail: nat
    /** The ring was overfull at the last record. */
    var overfull: bool

    ghost predicate Valid()
      reads this
    {
      ring.Length > 0 && buffer.Length == BUFFER_SIZE && ring != buffer
    }

    constructor (ring: array<Byte>)
      requires ring.Length > 0
      ensures Valid() && this.ring == ring && tail == 0 && !overfull && fresh(buffer)
    {
      this.ring := ring;
      buffer := new Byte[BUFFER_SIZE](_ => 0);
      tail, overfull := 0, false;
    }

    /** One 32-byte block: at once where it does not come near the end of the ring, else byte by byte. */
    method CopyBlock(offset: nat, j: nat)
      requires Valid() && j + ALIGNMENT <= BUFFER_SIZE && Copied(buffer, ring[..], offset, j)
      modifies buffer
      ensures Copied(buffer, ring[..], offset, j + ALIGNMENT)
    {
      var from := (j + offset) % ring.Length;
      if from + ALIGNMENT < ring.Length {
        Contiguous(ring[..], offset, j, ALIGNMENT);
        hide RingAt;
        CopyVector(from, j);
      } else {
        CopyBytes(offset, j, ALIGNMENT);
      }
    }

    /** One vector load and store. */
    method CopyVector(from: nat, j: nat)
      requires Valid() && from + ALIGNMENT <= ring.Length && j + ALIGNMENT <= BUFFER_SIZE
      modifies buffer
      ensures forall i | 0 <= i < BUFFER_SIZE ::
                buffer[i] == if j <= i < j + ALIGNMENT then ring[from + (i - j)] else old(buffer[i])
    {
      forall i | j <= i < j + ALIGNMENT {
        buffer[i] := ring[from + (i - j)];
      }
    }

    method CopyBytes(offset: nat, j: nat, n: nat)
      requires Valid() && j + n <= BUFFER_SIZE && Copied(buffer, ring[..], offset, j)
      modifies buffer
      ensures Copied(buffer, ring[..], offset, j + n)
    {
      var k := 0;
      while k < n
        invariant k <= n && Copied(buffer, ring[..], offset, j + k)
      {
        buffer[j + k] := ring[(j + k + offset) % ring.Length];
        k := k + 1;
      }
    }

    /** Copy a record that reaches the end of the ring. */
    method Linearise(offset: nat, size: nat)
      requires Valid() && size <= BUFFER_SIZE
      modifies buffer
      ensures buffer[..size] == Straight(ring[..], offset, size)
    {
      var blocks := ALIGNMENT * (size / ALIGNMENT);
      var j := 0;
      while j < blocks
        invariant 0 <= j <= blocks && j % ALIGNMENT == 0 && Copied(buffer, ring[..], offset, j)
      {
        CopyBlock(offset, j);
        j := j + ALIGNMENT;
      }
      CopyBytes(offset, j, size % ALIGNMENT);
    }

    /** Take one record: None stands for the stop after an error message, otherwise the bytes handed to
        the decoder. */
    method TakeRecord(head: nat, offset: nat, size: nat) returns (x: Option<seq<Byte>>)
      requires Valid() && tail <= head
      modifies this`tail, this`overfull, buffer
      ensures Valid()
      ensures (x, tail, overfull) == Take(ring[..], old(tail), old(overfull), head, offset, size)
    {
      if overfull || offset != tail {
        return None;
      }
      overfull := head - tail > ring.Length;
      if offset % ring.Length + size >= ring.Length {
        if size > BUFFER_SIZE {
          return None;
        }
        Linearise(offset, size);
        x := Some(buffer[..size]);
      } else {
        var from := offset % ring.Length;
        x := Some(ring[from..from + size]);
        forall k | 0 <= k < size ensures x.value[k] == RingAt(ring[..], offset, k) {
          Ahead(ring.Length, offset, k);
        }
        assert x.value == Straight(ring[..], offset, size);
      }
      tail := offset + size;
    }
  }

  /** One record, as a function of the ring's bytes: what is handed on, the new tail, and whether the
      ring was overfull. */
  function Take(ring: seq<Byte>, tail: nat, overfull: bool, head: nat, offset: nat, size: nat)
    : (Option<seq<Byte>>, nat, bool)
    requires |ring| > 0 && tail <= head
  {
    if overfull || offset != tail then (None, tail, overfull)
    else
      var over := head - tail > |ring|;
      if offset % |ring| + size >= |ring| && size > BUFFER_SIZE then (None, tail, over)
      else (Some(Straight(ring, offset, size)), offset + size, over)
  }

  // ---- Whole runs ----

  /** A record, with the ring's bytes when it is taken. */
  datatype Record = Record(head: nat, offset: nat, size: nat, ring: seq<Byte>)

  /** The stream as the processor writes it, and what the kernel promises of a record: the ring holds the
      last bytes written, and the record lies below the head. */
  ghost predicate Written(stream: nat -> Byte, r: Record) {
    && |r.ring| > 0 && r.offset + r.size <= r.head
    && forall p: nat | p < r.head <= p + |r.ring| :: r.ring[p % |r.ring|] == stream(p)
  }

  /** The chunks handed to the decoder over a run, and the final tail; None after a stop. */
  function TakeAll(rs: seq<Record>, tail: nat, overfull: bool): Option<(seq<seq<Byte>>, nat, bool)>
    requires forall r | r in rs :: |r.ring| > 0
    decreases |rs|
  {
    if rs == [] then Some(([], tail, overfull))
    else
      var r := rs[0];
      if tail > r.head then None
      else
        match Take(r.ring, tail, overfull, r.head, r.offset, r.size)
        case (None, _, _) => None
        case (Some(x), tail', over) =>
          match TakeAll(rs[1..], tail', over)
          case None => None
          case Some((xs, end, last)) => Some(([x] + xs, end, last))
  }

  function Piece(stream: nat -> Byte, from: nat, to: nat): (x: seq<Byte>)
    requires from <= to
    ensures |x| == to - from
  {
    seq(to - from, k requires 0 <= k < to - from => stream(from + k))
  }

  lemma StraightIsPiece(stream: nat -> Byte, r: Record)
    requires Written(stream, r) && r.head - r.offset <= |r.ring|
    ensures Straight(r.ring, r.offset, r.size) == Piece(stream, r.offset, r.offset + r.size)
  {
    forall k | 0 <= k < r.size ensures Straight(r.ring, r.offset, r.size)[k] == stream(r.offset + k) {
      assert r.head <= r.offset + k + |r.ring|;
    }
  }

  lemma PiecesJoin(stream: nat -> Byte, a: nat, b: nat, c: nat)
    requires a <= b <= c
    ensures Piece(stream, a, b) + Piece(stream, b, c) == Piece(stream, a, c)
  {
  }

  /** Over any run that is not stopped the chunks are the stream itself, without gap or repetition,
      from the first tail to the last; only the last record may have been overwritten, and then the
      ring was found overfull. */
  lemma {:induction false} RunTiles(stream: nat -> Byte, rs: seq<Record>, tail: nat, overfull: bool)
    requires forall r | r in rs :: |r.ring| > 0 && Written(stream, r)
    requires TakeAll(rs, tail, overfull).Some?
    ensures var (xs, end, last) := TakeAll(rs, tail, overfull).value;
            && tail <= end
            && |xs| == |rs|
            && (!last ==> Concat(xs) == Piece(stream, tail, end))
    decreases |rs|
  {
    if rs != [] {
      var r := rs[0];
      assert r in rs;
      var (x, tail', over) := Take(r.ring, tail, overfull, r.head, r.offset, r.size);
      hide Written, Straight, Piece;
      RunTiles(stream, rs[1..], tail', over);
      var (xs, end, last) := TakeAll(rs[1..], tail', over).value;
      if !last {
        OverfullStays(rs[1..], tail', over);
        StraightIsPiece(stream, r);
        PiecesJoin(stream, tail, tail', end);
      }
    }
  }

  /** A run that begins with the ring overfull takes no record. */
  lemma OverfullStays(rs: seq<Record>, tail: nat, overfull: bool)
    requires forall r | r in rs :: |r.ring| > 0
    requires TakeAll(rs, tail, overfull).Some? && !TakeAll(rs, tail, overfull).value.2
    ensures !overfull
  {
  }

  /** The stream with another byte at one place. */
  function Altered(stream: nat -> Byte, at: nat): nat -> Byte {
    p => if p == at then (stream(p) + 1) % 256 else stream(p)
  }

  /** What is handed on for a record is the stream for certain if and only if the record is empty or
      none of it has been overwritten. */
  lemma IntactIff(stream: nat -> Byte, r: Record)
    requires Written(stream, r)
    ensures (forall other: nat -> Byte | Written(other, r) ::
               Straight(r.ring, r.offset, r.size) == Piece(other, r.offset, r.offset + r.size))
            <==> r.size == 0 || r.head - r.offset <= |r.ring|
  {
    var x := Straight(r.ring, r.offset, r.size);
    if r.size == 0 || r.head - r.offset <= |r.ring| {
      forall other: nat -> Byte | Written(other, r) ensures x == Piece(other, r.offset, r.offset + r.size) {
        if r.size > 0 {
          StraightIsPiece(other, r);
        }
      }
    } else {
      var other := Altered(stream, r.offset);
      assert Written(other, r);
      assert Piece(stream, r.offset, r.offset + r.size)[0] != Piece(other, r.offset, r.offset + r.size)[0];
    }
  }

  /** A record that is accepted and wrong: the ring of two bytes has come round twice, so the first byte
      of the stream is gone, and the overfull ring is only noted for the next record. */
  lemma OverfullAccepted(stream: nat -> Byte)
    requires stream(0) == 5 && stream(2) == 7 && stream(3) == 8
    ensures var r := Record(4, 0, 1, [7, 8]);
            && Written(stream, r)
            && Take(r.ring, 0, false, r.head, r.offset, r.size) == (Some([7]), 1, true)
            && Piece(stream, 0, 1) == [5]
  {
    assert Straight([7, 8], 0, 1) == [7];
  }

  /** A record is only taken when the ring was not overfull before, so in a run all chunks but the
      last are the stream in any case. */
  lemma AllButLast(stream: nat -> Byte, rs: seq<Record>, r: Record, tail: nat, overfull: bool)
    requires |r.ring| > 0 && forall q | q in rs :: |q.ring| > 0 && Written(stream, q)
    requires TakeAll(rs + [r], tail, overfull).Some?
    ensures TakeAll(rs, tail, overfull).Some? && |TakeAll(rs + [r], tail, overfull).value.0| == |rs| + 1
    ensures var (xs, end, _) := TakeAll(rs, tail, overfull).value;
            && tail <= end && Concat(xs) == Piece(stream, tail, end)
            && xs == TakeAll(rs + [r], tail, overfull).value.0[..|rs|]
  {
    PrefixTaken(rs, r, tail, overfull);
    RunTiles(stream, rs, tail, overfull);
  }

  lemma {:induction false} PrefixTaken(rs: seq<Record>, r: Record, tail: nat, overfull: bool)
    requires |r.ring| > 0 && forall q | q in rs :: |q.ring| > 0
    requires TakeAll(rs + [r], tail, overfull).Some?
    ensures TakeAll(rs, tail, overfull).Some? && !TakeAll(rs, tail, overfull).value.2
    ensures |TakeAll(rs + [r], tail, overfull).value.0| == |rs| + 1
    ensures TakeAll(rs, tail, overfull).value.0 == TakeAll(rs + [r], tail, overfull).value.0[..|rs|]
    decreases |rs|
  {
    hide Straight;
    if rs == [] {
      assert [r][1..] == [];
    } else {
      var q := rs[0];
      assert (rs + [r])[0] == q && (rs + [r])[1..] == rs[1..] + [r];
      var (x, tail', over) := Take(q.ring, tail, overfull, q.head, q.offset, q.size);
      PrefixTaken(rs[1..], r, tail', over);
    }
  }

  /** A run is taken to its end exactly if each record begins where the one before ended and lies below its
      head, none was taken before with the ring overfull, and no record that reaches the end of the ring
      is longer than 8 MB. */
  ghost predicate Acceptable(rs: seq<Record>, tail: nat, overfull: bool)
    requires forall r | r in rs :: |r.ring| > 0
  {
    forall k | 0 <= k < |rs| :: Fits(rs, tail, overfull, k)
  }

  ghost predicate Fits(rs: seq<Record>, tail: nat, overfull: bool, k: nat)
    requires k < |rs| && |rs[k].ring| > 0
  {
    && rs[k].offset == (if k == 0 then tail else rs[k - 1].offset + rs[k - 1].size)
    && rs[k].offset <= rs[k].head
    && (if k == 0 then !overfull else rs[k - 1].head - rs[k - 1].offset <= |rs[k - 1].ring|)
    && (rs[k].offset % |rs[k].ring| + rs[k].size < |rs[k].ring| || rs[k].size <= 0x80_0000)
  }

  lemma {:induction false} TakenIff(rs: seq<Record>, tail: nat, overfull: bool)
    requires forall r | r in rs :: |r.ring| > 0
    ensures TakeAll(rs, tail, overfull).Some? <==> Acceptable(rs, tail, overfull)
    decreases |rs|
  {
    hide Straight;
    if rs != [] {
      var r, rest := rs[0], rs[1..];
      var (x, tail', over) := if tail > r.head then (None, tail, overfull)
        else Take(r.ring, tail, overfull, r.head, r.offset, r.size);
      assert x.Some? <==> Fits(rs, tail, overfull, 0);
      if x.Some? {
        TakenIff(rest, tail', over);
        forall k | 0 < k < |rs| ensures Fits(rs, tail, overfull, k) <==> Fits(rest, tail', over, k - 1) {
        }
        assert Acceptable(rest, tail', over) ==> Acceptable(rs, tail, overfull);
        assert forall k | 0 <= k < |rest| :: Fits(rs, tail, overfull, k + 1) ==> Fits(rest, tail', over, k);
      }
    }
  }
}
