/** Whole byte streams: printing and parsing are inverse, and parsing composes over chunks. */
module Streams {
  import opened Options
  import opened Bytes
  import opened Packets
  import opened PacketTheory
  import Ip = IpCompression

  function StateAfter(s: State, ps: seq<Packet>): State
    decreases |ps|
  {
    if ps == [] then s else StateAfter(NextState(s, ps[0]), ps[1..])
  }

  // ---- The state, read off the packets ----

  /** The last address: read backwards, that of the latest address packet that carried one since the latest
      PSB, which resets it. */
  function LastIp(lastIp: nat, ps: seq<Packet>): nat
    decreases |ps|
  {
    if ps == [] then lastIp
    else
      var n := |ps| - 1;
      match ps[n]
      case Psb => 0
      case Address(_, mode, ip) => if mode == 0 then LastIp(lastIp, ps[..n]) else ip
      case _ => LastIp(lastIp, ps[..n])
  }

  /** Whether a block group is open: the latest packet that opens or closes one opened it. */
  function InBlock(inBlock: bool, ps: seq<Packet>): bool
    decreases |ps|
  {
    if ps == [] then inBlock
    else
      var n := |ps| - 1;
      match ps[n]
      case Bbp(_, _) => true
      case Bep(_) => false
      case Plain(op, _) => !op.Ovf? && InBlock(inBlock, ps[..n])
      case _ => InBlock(inBlock, ps[..n])
  }

  lemma {:induction false} StateAfterLast(s: State, ps: seq<Packet>, p: Packet)
    ensures StateAfter(s, ps + [p]) == NextState(StateAfter(s, ps), p)
    decreases |ps|
  {
    if ps == [] {
      assert [p][1..] == [] && [] + [p] == [p];
    } else {
      assert (ps + [p])[0] == ps[0] && (ps + [p])[1..] == ps[1..] + [p];
      StateAfterLast(NextState(s, ps[0]), ps[1..], p);
    }
  }

  /** The parser's state after any packets is what the packets say. */
  lemma {:induction false} StateIsReadOff(s: State, ps: seq<Packet>)
    ensures StateAfter(s, ps) == State(LastIp(s.lastIp, ps), InBlock(s.inBlock, ps))
    decreases |ps|
  {
    if ps != [] {
      var n := |ps| - 1;
      assert ps == ps[..n] + [ps[n]];
      StateAfterLast(s, ps[..n], ps[n]);
      StateIsReadOff(s, ps[..n]);
    }
  }

  predicate WellFormedAll(s: State, ps: seq<Packet>)
    decreases |ps|
  {
    ps == [] || (WellFormed(s, ps[0]) && WellFormedAll(NextState(s, ps[0]), ps[1..]))
  }

  function PrintAll(s: State, ps: seq<Packet>): seq<Byte>
    requires WellFormedAll(s, ps)
    decreases |ps|
  {
    if ps == [] then [] else Print(s, ps[0]) + PrintAll(NextState(s, ps[0]), ps[1..])
  }

  /** The bytes of any well-formed packet sequence are decoded to exactly those packets. */
  lemma {:induction false} StreamRoundTrip(s: State, ps: seq<Packet>)
    requires WellFormedAll(s, ps)
    ensures ParseAll(s, PrintAll(s, ps)) == Some((ps, StateAfter(s, ps)))
    decreases |ps|
  {
    hide ParseOne, Print, WellFormed;
    if ps != [] {
      var next := NextState(s, ps[0]);
      var rest := PrintAll(next, ps[1..]);
      var head := Print(s, ps[0]);
      PacketRoundTrip(s, ps[0], rest);
      assert (head + rest)[|head|..] == rest;
      StreamRoundTrip(next, ps[1..]);
      assert [ps[0]] + ps[1..] == ps;
    }
  }

  /** Every packet can be sent after those before it. */
  predicate EachFits(s: State, ps: seq<Packet>) {
    forall k | 0 <= k < |ps| :: WellFormed(State(LastIp(s.lastIp, ps[..k]), InBlock(s.inBlock, ps[..k])), ps[k])
  }

  lemma {:induction false} EachFitsAll(s: State, ps: seq<Packet>)
    ensures WellFormedAll(s, ps) <==> EachFits(s, ps)
    decreases |ps|
  {
    hide WellFormed, NextState;
    if ps != [] {
      var next, rest := NextState(s, ps[0]), ps[1..];
      EachFitsAll(next, rest);
      assert ps[..0] == [];
      forall k | 1 <= k < |ps|
        ensures State(LastIp(s.lastIp, ps[..k]), InBlock(s.inBlock, ps[..k]))
                == State(LastIp(next.lastIp, rest[..k - 1]), InBlock(next.inBlock, rest[..k - 1]))
      {
        assert ps[..k][0] == ps[0] && ps[..k][1..] == rest[..k - 1];
        StateIsReadOff(s, ps[..k]);
        StateIsReadOff(next, rest[..k - 1]);
      }
      if EachFits(s, ps) {
        forall k | 0 <= k < |rest|
          ensures WellFormed(State(LastIp(next.lastIp, rest[..k]), InBlock(next.inBlock, rest[..k])), rest[k])
        {
          assert WellFormed(State(LastIp(s.lastIp, ps[..k + 1]), InBlock(s.inBlock, ps[..k + 1])), ps[k + 1]);
        }
      }
      if WellFormedAll(s, ps) {
        forall k | 0 <= k < |ps|
          ensures WellFormed(State(LastIp(s.lastIp, ps[..k]), InBlock(s.inBlock, ps[..k])), ps[k])
        {
          if k > 0 {
            assert WellFormed(State(LastIp(next.lastIp, rest[..k - 1]), InBlock(next.inBlock, rest[..k - 1])),
                              rest[k - 1]);
          }
        }
      }
    }
  }

  /** Of packets each of which fits what was sent before it, with the last address and the block group read
      off the packets, the bytes are decoded to exactly those packets, and the parser ends in the state the
      packets say. */
  lemma StreamIsParsed(s: State, ps: seq<Packet>)
    requires EachFits(s, ps)
    ensures WellFormedAll(s, ps)
    ensures ParseAll(s, PrintAll(s, ps)) == Some((ps, State(LastIp(s.lastIp, ps), InBlock(s.inBlock, ps))))
  {
    hide EachFits, ParseAll, PrintAll;
    EachFitsAll(s, ps);
    StreamRoundTrip(s, ps);
    StateIsReadOff(s, ps);
  }

  /** Whatever the bytes: the state a parse ends in is read off the packets it found. */
  lemma {:induction false} ParsedState(s: State, x: seq<Byte>)
    requires ParseAll(s, x).Some?
    ensures var (ps, end) := ParseAll(s, x).value; end == State(LastIp(s.lastIp, ps), InBlock(s.inBlock, ps))
    decreases |x|
  {
    hide ParseOne, NextState;
    var (ps, end) := ParseAll(s, x).value;
    if x != [] {
      var Got(p, len) := ParseOne(s, x);
      ParsedState(NextState(s, p), x[len..]);
      var (rest, _) := ParseAll(NextState(s, p), x[len..]).value;
      assert ([p] + rest)[0] == p && ([p] + rest)[1..] == rest;
      StateIsReadOff(NextState(s, p), rest);
    }
    StateIsReadOff(s, ps);
  }

  // ---- Locality ----

  lemma PlainOpLocal(a: seq<Byte>, b: seq<Byte>)
    requires |a| >= 2
    ensures PlainOp(a + b) == None ==> PlainOp(a) == None
    ensures var op := PlainOp(a + b);
            op.Some? && |OpCode(op.value)| + OpPayload(op.value) <= |a| ==> PlainOp(a) == op
  {
    var x := a + b;
    assert x[1] == a[1];
    assert |a| >= 3 ==> x[2] == a[2];
  }

  lemma ExtendedLocal(a: seq<Byte>, b: seq<Byte>)
    requires |a| >= 1
    ensures var whole := ParseExtended(a + b);
            (whole == None || whole.value.len <= |a|) ==> ParseExtended(a) == whole
  {
    hide Number, Pow256, PlainOp, OpPayload, OpCode;
    var x := a + b;
    assert x[0] == a[0];
    if a[0] == 0x02 && |a| >= 2 {
      PlainOpLocal(a, b);
      assert x[1] == a[1];
      assert |a| >= 4 ==> x[2] == a[2] && x[3] == a[3];
      var op := PlainOp(x);
      if op.Some? {
        var code, len := |OpCode(op.value)|, OpPayload(op.value);
        assert code + len <= |a| ==> x[code..code + len] == a[code..code + len];
      } else {
        FieldsLocal(a, b);
      }
    }
  }

  lemma FieldsLocal(a: seq<Byte>, b: seq<Byte>)
    ensures var x := a + b;
            && (|a| >= 3 ==> x[2] == a[2])
            && (|a| >= 7 ==> x[2..4] == a[2..4] && x[5] == a[5] && x[6] == a[6])
            && (|a| >= 8 ==> x[2..8] == a[2..8])
            && (|a| >= 10 ==> x[2..10] == a[2..10])
  {
  }

  lemma AddressLocal(lastIp: nat, op: IpOp, a: seq<Byte>, b: seq<Byte>)
    requires |a| >= 1
    ensures var whole := ParseAddress(lastIp, op, a + b);
            whole.Got? && whole.len <= |a| ==> ParseAddress(lastIp, op, a) == whole
  {
    var x := a + b;
    assert x[0] == a[0];
    var k := Ip.PayloadLength(a[0] / 32);
    if k.Some? && 1 + k.value <= |a| {
      assert x[1..1 + k.value] == a[1..1 + k.value];
    }
  }

  lemma {:induction false} CyclesLocal(a: seq<Byte>, b: seq<Byte>, shift: nat, value: nat)
    ensures var whole := ParseCycles(a + b, shift, value);
            whole.Some? && whole.value.1 <= |a| ==> ParseCycles(a, shift, value) == whole
    decreases |a|
  {
    hide Shl;
    if a != [] {
      assert (a + b)[1..] == a[1..] + b;
      if shift <= 63 {
        CyclesLocal(a[1..], b, shift + 7, (value + Shl(a[0] / 2, shift)) % TWO64);
      }
    }
  }

  lemma CycLocal(a: seq<Byte>, b: seq<Byte>)
    requires |a| >= 1
    ensures var whole := ParseCyc(a + b);
            whole.Got? && whole.len <= |a| ==> ParseCyc(a) == whole
  {
    hide ParseCycles;
    assert (a + b)[1..] == a[1..] + b;
    CyclesLocal(a[1..], b, 5, a[0] / 8);
  }

  lemma BaseLocal(s: State, a: seq<Byte>, b: seq<Byte>)
    requires |a| >= 1
    ensures var whole := ParseBase(s, a + b);
            whole.Got? && whole.len <= |a| ==> ParseBase(s, a) == whole
  {
    hide ParseAddress, ParseCyc, ParseTnt, Number, Low;
    BytesLocal(a, b);
    if op :| Low(a[0], 32) == IpCode(op) {
      AddressLocal(s.lastIp, op, a, b);
    }
    CycLocal(a, b);
  }

  lemma BytesLocal(a: seq<Byte>, b: seq<Byte>)
    requires |a| >= 1
    ensures var x := a + b;
            && x[0] == a[0]
            && (|a| >= 2 ==> x[1] == a[1])
            && (|a| >= 8 ==> x[1..8] == a[1..8])
            && (|a| >= 9 ==> x[1..9] == a[1..9])
  {
  }

  /** A packet that ends inside the first chunk is parsed the same when only that chunk is there. */
  lemma ParseLocal(s: State, a: seq<Byte>, b: seq<Byte>)
    requires ParseOne(s, a + b).Got? && ParseOne(s, a + b).len <= |a|
    ensures ParseOne(s, a) == ParseOne(s, a + b)
  {
    hide ParseExtended, ParseBase;
    assert |a| > 0 && (a + b)[0] == a[0];
    ExtendedLocal(a, b);
    BaseLocal(s, a, b);
  }

  /** Parsing x comes to a packet boundary at offset k. */
  predicate Reaches(s: State, x: seq<Byte>, k: nat)
    decreases k
  {
    k == 0 ||
    match ParseOne(s, x)
    case Error => false
    case Got(p, len) => len <= k && Reaches(NextState(s, p), x[len..], k - len)
  }

  /** If no packet straddles the chunk boundary, parsing chunk by chunk is parsing the whole. */
  lemma {:induction false} ChunksCompose(s: State, a: seq<Byte>, b: seq<Byte>)
    requires Reaches(s, a + b, |a|)
    ensures ParseAll(s, a).Some?
    ensures ParseAll(s, a + b) == Then(ParseAll(s, a).value.0, ParseAll(ParseAll(s, a).value.1, b))
    decreases |a|
  {
    hide ParseOne, NextState;
    if a == [] {
      assert a + b == b;
      ThenThen([], [], ParseAll(s, b));
    } else {
      ParseLocal(s, a, b);
      var Got(p, len) := ParseOne(s, a);
      assert (a + b)[len..] == a[len..] + b;
      var next := NextState(s, p);
      ChunksCompose(next, a[len..], b);
      var (first, mid) := ParseAll(next, a[len..]).value;
      ThenThen([p], first, ParseAll(mid, b));
    }
  }

  // ---- A packet that straddles the boundary ----

  /** Beyond a boundary, boundaries are those of what follows. */
  lemma {:induction false} ReachesOn(s: State, a: seq<Byte>, b: seq<Byte>, n: nat)
    requires Reaches(s, a + b, |a|) && n <= |b|
    ensures ParseAll(s, a).Some? && (Reaches(s, a + b, |a| + n) <==> Reaches(ParseAll(s, a).value.1, b, n))
    decreases |a|
  {
    hide ParseOne, NextState;
    if a == [] {
      assert a + b == b;
    } else {
      ParseLocal(s, a, b);
      var Got(p, len) := ParseOne(s, a);
      assert (a + b)[len..] == a[len..] + b;
      ReachesOn(NextState(s, p), a[len..], b, n);
    }
  }

  /** The bytes a packet takes; only a cycle packet can be written at different lengths. */
  function PacketLength(p: Packet): nat {
    match p
    case Psb => 4
    case Plain(op, _) => |OpCode(op)| + OpPayload(op)
    case Tma(_, _) => 7
    case Bbp(_, _) => 3
    case Pip(_) => 8
    case Cfe(_, _, _) => 4
    case Cbr(_) => 4
    case Bep(_) => 2
    case Ptw(_, _) => 10
    case Mode(_) => 2
    case Mtc(_) => 2
    case Tsc(_) => 8
    case Pad => 1
    case Address(_, mode, _) => 1 + (match Ip.PayloadLength(mode) case None => 0 case Some(k) => k)
    case Bip(_, _) => 9
    case Cyc(_) => 0
    case Tnt(_, _) => 1
  }

  lemma ExtendedLength(x: seq<Byte>)
    requires |x| >= 1 && ParseExtended(x).Some?
    ensures var got := ParseExtended(x).value; got.len == PacketLength(got.p) && !got.p.Cyc?
  {
    hide Number, OpCode, OpPayload;
  }

  lemma AddressLength(lastIp: nat, op: IpOp, x: seq<Byte>)
    requires |x| >= 1 && ParseAddress(lastIp, op, x).Got?
    ensures var got := ParseAddress(lastIp, op, x); got.len == PacketLength(got.p) && !got.p.Cyc?
  {
    hide Ip.Decode;
  }

  lemma BaseLength(s: State, x: seq<Byte>)
    requires |x| >= 1 && ParseBase(s, x).Got?
    ensures var got := ParseBase(s, x);
            if got.p.Cyc? then got == ParseCyc(x) && Low(x[0], 4) == 3 else got.len == PacketLength(got.p)
  {
    if ParseAddress(s.lastIp, Fup, x).Got? {
      AddressLength(s.lastIp, Fup, x);
    }
    if ParseAddress(s.lastIp, TipPge, x).Got? {
      AddressLength(s.lastIp, TipPge, x);
    }
    if ParseAddress(s.lastIp, Tip, x).Got? {
      AddressLength(s.lastIp, Tip, x);
    }
    if ParseAddress(s.lastIp, TipPgd, x).Got? {
      AddressLength(s.lastIp, TipPgd, x);
    }
    hide ParseAddress, ParseCycles, Number, PacketLength;
    CycIsCyc(x);
    SimpleLengths(s, x);
  }

  lemma CycIsCyc(x: seq<Byte>)
    requires |x| >= 1
    ensures ParseCyc(x).Got? ==> ParseCyc(x).p.Cyc?
  {
  }

  lemma SimpleLengths(s: State, x: seq<Byte>)
    ensures forall bits :: PacketLength(Mode(bits)) == 2
    ensures forall ctc :: PacketLength(Mtc(ctc)) == 2
    ensures forall tsc :: PacketLength(Tsc(tsc)) == 8
    ensures forall id, value :: PacketLength(Bip(id, value)) == 9
    ensures forall bits, len :: PacketLength(Tnt(bits, len)) == 1
    ensures PacketLength(Pad) == 1
  {
  }

  /** A cycle packet that is cut is an error. */
  lemma {:induction false} CyclesCut(a: seq<Byte>, b: seq<Byte>, shift: nat, value: nat)
    requires ParseCycles(a + b, shift, value).Some? && ParseCycles(a + b, shift, value).value.1 > |a|
    ensures ParseCycles(a, shift, value) == None
    decreases |a|
  {
    hide Shl;
    if a != [] {
      assert (a + b)[1..] == a[1..] + b;
      if shift <= 63 && a[0] % 2 == 1 {
        CyclesCut(a[1..], b, shift + 7, (value + Shl(a[0] / 2, shift)) % TWO64);
      }
    }
  }

  lemma CycCut(a: seq<Byte>, b: seq<Byte>)
    requires |a| >= 1 && ParseCyc(a + b).Got? && ParseCyc(a + b).len > |a|
    ensures ParseCyc(a) == Error
  {
    hide ParseCycles;
    assert (a + b)[1..] == a[1..] + b;
    CyclesCut(a[1..], b, 5, a[0] / 8);
  }

  /** A packet cut by the end of the buffer is an error or another packet. */
  lemma CutDiffers(s: State, a: seq<Byte>, b: seq<Byte>)
    requires a != [] && ParseOne(s, a + b).Got? && ParseOne(s, a + b).len > |a|
    ensures ParseOne(s, a).Got? ==> ParseOne(s, a).p != ParseOne(s, a + b).p
  {
    var x := a + b;
    assert x[0] == a[0];
    Lengths(s, x);
    var whole := ParseOne(s, x);
    if whole.p.Cyc? {
      CycCut(a, b);
      ParsesAsCyc(s, a);
    } else if ParseOne(s, a).Got? {
      Lengths(s, a);
    }
  }

  lemma Lengths(s: State, x: seq<Byte>)
    requires x != [] && ParseOne(s, x).Got?
    ensures var got := ParseOne(s, x);
            if got.p.Cyc? then got == ParseCyc(x) && Low(x[0], 4) == 3 else got.len == PacketLength(got.p)
  {
    hide ParseExtended, ParseBase, ParseCyc, PacketLength;
    if ParseExtended(x).Some? {
      ExtendedLength(x);
    } else {
      BaseLength(s, x);
    }
  }

  /** For a buffer that can be parsed: parsing two chunks in turn gives what parsing the whole gives if
      and only if no packet straddles the boundary. */
  lemma {:induction false} ChunksExactly(s: State, a: seq<Byte>, b: seq<Byte>)
    requires ParseAll(s, a + b).Some?
    ensures Reaches(s, a + b, |a|) <==>
            && ParseAll(s, a).Some?
            && ParseAll(s, a + b) == Then(ParseAll(s, a).value.0, ParseAll(ParseAll(s, a).value.1, b))
    decreases |a|
  {
    hide ParseOne, NextState;
    if Reaches(s, a + b, |a|) {
      ChunksCompose(s, a, b);
    } else {
      var Got(p, len) := ParseOne(s, a + b);
      if len > |a| {
        CutDiffers(s, a, b);
        if ParseAll(s, a).Some? {
          CutMisreads(s, a, b);
        }
      } else {
        ParseLocal(s, a, b);
        var next := NextState(s, p);
        assert (a + b)[len..] == a[len..] + b;
        ChunksExactly(next, a[len..], b);
        ChunksFail(s, a, b, p, len);
      }
    }
  }

  lemma CutMisreads(s: State, a: seq<Byte>, b: seq<Byte>)
    requires a != [] && ParseAll(s, a + b).Some? && ParseAll(s, a).Some?
    requires ParseOne(s, a).p != ParseOne(s, a + b).p
    ensures ParseAll(s, a + b) != Then(ParseAll(s, a).value.0, ParseAll(ParseAll(s, a).value.1, b))
  {
    hide ParseOne, NextState;
    assert ParseAll(s, a).value.0[0] == ParseOne(s, a).p;
    assert ParseAll(s, a + b).value.0[0] == ParseOne(s, a + b).p;
  }

  /** If the rest goes wrong after the first packet, the whole does. */
  lemma ChunksFail(s: State, a: seq<Byte>, b: seq<Byte>, p: Packet, len: nat)
    requires ParseAll(s, a + b).Some? && a != [] && ParseOne(s, a) == Got(p, len) == ParseOne(s, a + b)
    requires var next, rest := NextState(s, p), a[len..];
             !(ParseAll(next, rest).Some?
               && ParseAll(next, rest + b)
                  == Then(ParseAll(next, rest).value.0, ParseAll(ParseAll(next, rest).value.1, b)))
    ensures !(&& ParseAll(s, a).Some?
              && ParseAll(s, a + b) == Then(ParseAll(s, a).value.0, ParseAll(ParseAll(s, a).value.1, b)))
  {
    hide ParseOne, NextState;
    var next, rest := NextState(s, p), a[len..];
    assert (a + b)[len..] == rest + b;
    if ParseAll(next, rest).Some? {
      var (first, mid) := ParseAll(next, rest).value;
      ThenThen([p], first, ParseAll(mid, b));
      if ParseAll(s, a + b) == Then(ParseAll(s, a).value.0, ParseAll(ParseAll(s, a).value.1, b)) {
        SameAfter(p, ParseAll(next, rest + b), Then(first, ParseAll(mid, b)));
      }
    }
  }

  lemma SameAfter(p: Packet, q: Option<(seq<Packet>, State)>, r: Option<(seq<Packet>, State)>)
    requires Then([p], q) == Then([p], r)
    ensures q == r
  {
    if q.Some? {
      assert ([p] + q.value.0)[1..] == q.value.0 && ([p] + r.value.0)[1..] == r.value.0;
    }
  }

  /** The same for the bytes of any well-formed packets: a cut between two packets, and no other, is
      read as the packets that were sent. */
  lemma PrintedChunks(s: State, ps: seq<Packet>, k: nat)
    requires WellFormedAll(s, ps) && k <= |PrintAll(s, ps)|
    ensures var x := PrintAll(s, ps);
            Reaches(s, x, k) <==>
            && ParseAll(s, x[..k]).Some?
            && Then(ParseAll(s, x[..k]).value.0, ParseAll(ParseAll(s, x[..k]).value.1, x[k..]))
               == Some((ps, StateAfter(s, ps)))
  {
    hide PrintAll, ParseAll, Reaches;
    var x := PrintAll(s, ps);
    StreamRoundTrip(s, ps);
    assert x[..k] + x[k..] == x;
    ChunksExactly(s, x[..k], x[k..]);
  }

  /** A packet that does straddle is misread: the first byte of a two-byte packet alone is taken for
      a packet without outcomes, and the second for a cycle count. */
  lemma StraddlingMisread(s: State)
    ensures var a: seq<Byte>, b: seq<Byte> := [0x02], [0x83];
            && ParseOne(s, a + b) == Got(Plain(TraceStop, []), 2)
            && ParseOne(s, a) == Got(Tnt(0, 0), 1)
            && ParseOne(s, b) == Got(Cyc(16), 1)
  {
    var a: seq<Byte>, b: seq<Byte> := [0x02], [0x83];
    assert (a + b)[2..2] == [];
    assert HighBit(2) == 1;
    NotExtended(b);
  }
}
