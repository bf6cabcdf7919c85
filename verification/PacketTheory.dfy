/** The parser inverts the printer, and parsing is local: it may be done chunk by chunk. */
module PacketTheory {
  import Arithmetic
  import opened Options
  import opened Bytes
  import opened Packets
  import Ip = IpCompression

  // ---- Cycle counts ----

  lemma Pow2By7(n: nat)
    ensures Arithmetic.Pow2(n + 7) == 128 * Arithmetic.Pow2(n)
  {
    var p := Arithmetic.Pow2(n);
    assert Arithmetic.Pow2(n + 1) == 2 * p;
    assert Arithmetic.Pow2(n + 2) == 4 * p;
    assert Arithmetic.Pow2(n + 3) == 8 * p;
    assert Arithmetic.Pow2(n + 4) == 16 * p;
    assert Arithmetic.Pow2(n + 5) == 32 * p;
    assert Arithmetic.Pow2(n + 6) == 64 * p;
  }

  lemma {:induction false} Pow2Grows(m: nat, n: nat)
    requires m <= n
    ensures Arithmetic.Pow2(m) <= Arithmetic.Pow2(n)
    decreases n
  {
    if m < n {
      Pow2Grows(m, n - 1);
    }
  }

  lemma Pow2Is64()
    ensures Arithmetic.Pow2(64) == TWO64
  {
    var n := 0;
    while n < 63
      invariant n <= 63 && n % 7 == 0
      invariant Arithmetic.Pow2(n) == (match n case 0 => 1 case 7 => 0x80 case 14 => 0x4000 case 21 => 0x20_0000
                                   case 28 => 0x1000_0000 case 35 => 0x8_0000_0000 case 42 => 0x400_0000_0000
                                   case 49 => 0x2_0000_0000_0000 case 56 => 0x100_0000_0000_0000
                                   case _ => 0x8000_0000_0000_0000)
      decreases 63 - n
    {
      Pow2By7(n);
      n := n + 7;
    }
  }

  lemma ShiftFits(shift: nat)
    requires Arithmetic.Pow2(shift) < TWO64
    ensures shift <= 63
  {
    Pow2Is64();
    if shift >= 64 {
      Pow2Grows(64, shift);
    }
  }

  /** Seven bits at a time put a number together again. */
  lemma ShlSplits(q: nat, r: nat, n: nat)
    ensures Shl(128 * q + r, n) == Shl(q, n + 7) + Shl(r, n)
  {
    var p := Arithmetic.Pow2(n);
    Pow2By7(n);
    assert q * (128 * p) == 128 * q * p;
    assert (128 * q + r) * p == 128 * q * p + r * p;
  }

  lemma ShlBounded(r: nat, n: nat, low: nat)
    requires r < 128 && low < Arithmetic.Pow2(n)
    ensures low + Shl(r, n) < Arithmetic.Pow2(n + 7)
  {
    var p := Arithmetic.Pow2(n);
    Pow2By7(n);
    assert 128 * p == r * p + (128 - r) * p;
    assert (128 - r) * p >= p;
  }

  lemma ShlAtLeast(q: nat, n: nat)
    requires q >= 1
    ensures Arithmetic.Pow2(n) <= Shl(q, n)
  {
  }

  lemma LastSevenBits(v: nat, shift: nat, low: nat, x: seq<Byte>)
    requires v < 128 && shift <= 63 && Shl(v, shift) + low < TWO64
    requires x != [] && x[0] == v * 2
    ensures ParseCycles(x, shift, low) == Some((Shl(v, shift) + low, 1))
  {
    hide Shl;
    assert x[0] / 2 == v;
  }

  lemma MoreSevenBits(digit: nat, shift: nat, low: nat, x: seq<Byte>, sum: nat)
    requires digit < 128 && shift <= 63 && sum == low + Shl(digit, shift) < TWO64
    requires x != [] && x[0] == digit * 2 + 1
    ensures ParseCycles(x, shift, low) == match ParseCycles(x[1..], shift + 7, sum)
                                          case None => None
                                          case Some((v, k)) => Some((v, k + 1))
  {
    hide Shl;
    assert x[0] / 2 == digit;
  }

  lemma {:induction false} CyclesRoundTrip(v: nat, shift: nat, low: nat, rest: seq<Byte>)
    requires shift <= 63 && Shl(v, shift) + low < TWO64 && low < Arithmetic.Pow2(shift)
    ensures ParseCycles(PrintCycles(v) + rest, shift, low) == Some((Shl(v, shift) + low, |PrintCycles(v)|))
    decreases v
  {
    hide ParseCycles, Shl, Arithmetic.Pow2;
    var x := PrintCycles(v) + rest;
    if v < 128 {
      LastSevenBits(v, shift, low, x);
    } else {
      var q, r := v / 128, v % 128;
      var sum := low + Shl(r, shift);
      ShlSplits(q, r, shift);
      ShlBounded(r, shift, low);
      ShlAtLeast(q, shift + 7);
      ShiftFits(shift + 7);
      assert x[1..] == PrintCycles(q) + rest;
      MoreSevenBits(r, shift, low, x, sum);
      CyclesRoundTrip(q, shift + 7, sum, rest);
    }
  }

  // ---- One packet ----

  lemma FieldAt(head: seq<Byte>, field: seq<Byte>, rest: seq<Byte>)
    ensures (head + field + rest)[|head|..|head| + |field|] == field
  {
  }

  lemma PlainRoundTrip(op: Op, payload: seq<Byte>, rest: seq<Byte>)
    requires |payload| == OpPayload(op)
    ensures var x := OpCode(op) + payload + rest;
            ParseExtended(x) == Some(Got(Plain(op, payload), |OpCode(op)| + |payload|))
  {
    FieldAt(OpCode(op), payload, rest);
  }

  lemma ShortRoundTrip(s: State, p: Packet, rest: seq<Byte>)
    requires WellFormed(s, p) && (p.Psb? || p.Bbp? || p.Cfe? || p.Cbr? || p.Bep?)
    ensures ParseExtended(Print(s, p) + rest) == Some(Got(p, |Print(s, p)|))
  {
  }

  lemma TmaRoundTrip(s: State, ctc: nat, fc: nat, rest: seq<Byte>)
    requires WellFormed(s, Tma(ctc, fc))
    ensures ParseExtended(Print(s, Tma(ctc, fc)) + rest) == Some(Got(Tma(ctc, fc), 7))
  {
    var tail: seq<Byte> := [0x00, fc % 256, fc / 256];
    var x := Print(s, Tma(ctc, fc)) + rest;
    assert x == [0x02, 0x73] + Digits(ctc, 2) + (tail + rest);
    FieldAt([0x02, 0x73], Digits(ctc, 2), tail + rest);
    Powers();
    NumberOfDigits(ctc, 2);
    assert x[5] == fc % 256 && x[6] == fc / 256;
    assert Number([x[5], x[6] % 2]) == fc by {
      assert [x[5], x[6] % 2][1..] == [x[6] % 2] && [x[6] % 2][1..] == [];
    }
  }

  lemma PipRoundTrip(s: State, pgd: nat, rest: seq<Byte>)
    requires WellFormed(s, Pip(pgd))
    ensures ParseExtended(Print(s, Pip(pgd)) + rest) == Some(Got(Pip(pgd), 8))
  {
    Powers();
    FieldAt([0x02, 0x43], Digits(pgd / 16, 6), rest);
    NumberOfDigits(pgd / 16, 6);
  }

  lemma PtwRoundTrip(s: State, fup: bool, value: nat, rest: seq<Byte>)
    requires WellFormed(s, Ptw(fup, value))
    ensures ParseExtended(Print(s, Ptw(fup, value)) + rest) == Some(Got(Ptw(fup, value), 10))
  {
    Powers();
    NumberOfDigits(value, 8);
    hide Number, Digits, Pow256;
    var code: Byte := 0x32 + Flag(fup, 128);
    var x := Print(s, Ptw(fup, value)) + rest;
    FieldAt([0x02, code], Digits(value, 8), rest);
    assert x[2..10] == Digits(value, 8) && x[0] == 0x02 && x[1] == code;
    PtwByCode(x, fup);
  }

  lemma PtwByCode(x: seq<Byte>, fup: bool)
    requires |x| >= 10 && x[0] == 0x02 && x[1] == (if fup then 0xB2 else 0x32)
    ensures ParseExtended(x) == Some(Got(Ptw(fup, Number(x[2..10])), 10))
  {
    hide Number;
  }

  lemma AddressRoundTrip(s: State, op: IpOp, mode: nat, ip: nat, rest: seq<Byte>)
    requires WellFormed(s, Address(op, mode, ip))
    ensures ParseOne(s, Print(s, Address(op, mode, ip)) + rest)
            == Got(Address(op, mode, ip), |Print(s, Address(op, mode, ip))|)
  {
    var head: seq<Byte> := [mode * 32 + IpCode(op)];
    var x := Print(s, Address(op, mode, ip)) + rest;
    assert x[0] / 32 == mode && x[0] % 32 == IpCode(op);
    FieldAt(head, Ip.Encode(mode, ip), rest);
    Ip.DecodesOne(s.lastIp, mode, ip);
    assert ParseAddress(s.lastIp, op, x) == Got(Address(op, mode, ip), |Print(s, Address(op, mode, ip))|);
  }

  lemma CycRoundTrip(s: State, cycles: nat, rest: seq<Byte>)
    requires WellFormed(s, Cyc(cycles))
    ensures ParseCyc(Print(s, Cyc(cycles)) + rest) == Got(Cyc(cycles), |Print(s, Cyc(cycles))|)
  {
    hide ParseCycles;
    var x := Print(s, Cyc(cycles)) + rest;
    if cycles >= 32 {
      assert x[0] == cycles % 32 * 8 + 7;
      assert x[1..] == PrintCycles(cycles / 32) + rest;
      assert Arithmetic.Pow2(5) == 32;
      assert Shl(cycles / 32, 5) == cycles / 32 * 32;
      CyclesRoundTrip(cycles / 32, 5, cycles % 32, rest);
    } else {
      assert x[0] == cycles * 8 + 3;
    }
  }

  lemma HighBitUnique(b: nat, n: nat)
    requires b > 0 && Arithmetic.Pow2(n) <= b < Arithmetic.Pow2(n + 1)
    ensures HighBit(b) == n
  {
    var m := HighBit(b);
    if m < n {
      Pow2Grows(m + 1, n);
    } else if n < m {
      Pow2Grows(n + 1, m);
    }
  }

  lemma TntParts(p: nat, bits: nat, len: nat)
    requires p == Arithmetic.Pow2(len) && bits < p
    ensures HighBit(2 * (p + bits)) == len + 1
    ensures 2 * (p + bits) / 2 % p == bits
  {
    assert Arithmetic.Pow2(len + 1) == 2 * p;
    assert Arithmetic.Pow2(len + 2) == 4 * p;
    hide HighBit, Arithmetic.Pow2;
    HighBitUnique(2 * (p + bits), len + 1);
    RemainderAbove(p, bits);
  }

  lemma TntOfByte(b: Byte, bits: nat, len: nat)
    requires b > 0 && b % 2 == 0
    requires HighBit(b) == len + 1 && b / 2 % Arithmetic.Pow2(len) == bits
    ensures ParseTnt(b) == Tnt(bits, len)
  {
  }

  lemma EvenDouble(n: nat)
    ensures 2 * n % 2 == 0
  {
  }

  lemma TntRoundTrip(bits: nat, len: nat)
    requires 1 <= len <= 6 && bits < Arithmetic.Pow2(len)
    ensures 4 <= TntByte(bits, len) < 256 && TntByte(bits, len) % 2 == 0
    ensures ParseTnt(TntByte(bits, len)) == Tnt(bits, len)
  {
    hide HighBit, Arithmetic.Pow2, ParseTnt;
    TntByteFits(bits, len);
    var p := Arithmetic.Pow2(len);
    TntParts(p, bits, len);
    EvenDouble(p + bits);
    var b: Byte := 2 * (p + bits);
    TntOfByte(b, bits, len);
  }

  lemma RemainderAbove(p: nat, r: nat)
    requires r < p
    ensures (p + r) % p == r
  {
    assert (p + r) / p == 1;
  }

  lemma BaseRoundTrip(s: State, p: Packet, rest: seq<Byte>)
    requires WellFormed(s, p) && (p.Mode? || p.Mtc? || p.Tsc? || p.Pad?)
    ensures ParseOne(s, Print(s, p) + rest) == Got(p, |Print(s, p)|)
  {
    Powers();
    hide Number, Digits, Pow256, ParseAddress, ParseCyc, ParseTnt;
    if p.Tsc? {
      FieldAt([0x19], Digits(p.tsc, 7), rest);
      NumberOfDigits(p.tsc, 7);
    }
  }

  lemma BipRoundTrip(s: State, id: nat, value: nat, rest: seq<Byte>)
    requires WellFormed(s, Bip(id, value))
    ensures ParseOne(s, Print(s, Bip(id, value)) + rest) == Got(Bip(id, value), 9)
  {
    Powers();
    NumberOfDigits(value, 8);
    hide Number, Digits, Pow256, ParseOne;
    var head: seq<Byte> := [id * 8 + 4];
    var x := Print(s, Bip(id, value)) + rest;
    FieldAt(head, Digits(value, 8), rest);
    assert x[1..9] == Digits(value, 8) && x[0] == id * 8 + 4;
    ParsesAsBip(s, x, id);
  }

  /** Every packet a tracer may send is parsed as what it is, whatever follows it. */
  lemma PacketRoundTrip(s: State, p: Packet, rest: seq<Byte>)
    requires WellFormed(s, p)
    ensures ParseOne(s, Print(s, p) + rest) == Got(p, |Print(s, p)|)
  {
    hide Number, Digits, ParseCycles, PrintCycles, HighBit, Arithmetic.Pow2;
    match p {
      case Plain(op, payload) => PlainRoundTrip(op, payload, rest);
      case Tma(ctc, fc) => TmaRoundTrip(s, ctc, fc, rest);
      case Pip(pgd) => PipRoundTrip(s, pgd, rest);
      case Ptw(fup, value) => PtwRoundTrip(s, fup, value, rest);
      case Address(op, mode, ip) => AddressRoundTrip(s, op, mode, ip, rest);
      case Cyc(cycles) => CycDispatch(s, cycles, rest);
      case Tnt(bits, len) => TntDispatch(s, bits, len, rest);
      case Bip(id, value) => BipRoundTrip(s, id, value, rest);
      case _ =>
        if p.Mode? || p.Mtc? || p.Tsc? || p.Pad? {
          BaseRoundTrip(s, p, rest);
        } else {
          ShortRoundTrip(s, p, rest);
        }
    }
  }

  lemma NotExtended(x: seq<Byte>)
    requires |x| >= 1 && x[0] != 0x02
    ensures ParseExtended(x) == None
  {
  }

  /** The low bits of a byte are the low bits of its low five bits. */
  lemma LowBits(b: nat)
    ensures b % 32 % 4 == b % 4 && b % 32 % 2 == b % 2
  {
    var q, r := b / 32, b % 32;
    assert b == 4 * (8 * q) + r && b == 2 * (16 * q) + r;
    LowTwo(8 * q, r);
    LowOne(16 * q, r);
  }

  lemma LowTwo(k: nat, r: nat)
    ensures (4 * k + r) % 4 == r % 4
  {
  }

  lemma LowOne(k: nat, r: nat)
    ensures (2 * k + r) % 2 == r % 2
  {
  }

  lemma ParsesAsCyc(s: State, x: seq<Byte>)
    requires |x| >= 1 && x[0] % 4 == 3
    ensures ParseOne(s, x) == ParseCyc(x)
  {
    LowBits(x[0]);
    NotExtended(x);
    hide ParseCyc, ParseExtended, ParseAddress;
  }

  /** An even byte is none of the codes that are tested before the outcome packets. */
  lemma EvenByte(b: nat)
    requires b % 2 == 0
    ensures b % 32 != 0x1D && b % 32 != 0x11 && b % 32 != 0x0D && b % 32 != 0x01 && b % 4 != 3
    ensures b != 0x99 && b != 0x59 && b != 0x19
  {
    LowBits(b);
    var low := b % 32;
    assert low % 2 == 0;
    LowOne(2 * (b / 4), b % 4);
    assert b == 2 * (2 * (b / 4)) + b % 4;
  }

  lemma ParsesAsBip(s: State, x: seq<Byte>, id: nat)
    requires |x| >= 9 && x[0] == id * 8 + 4 && s.inBlock
    ensures ParseOne(s, x) == Got(Bip(id, Number(x[1..9])), 9)
  {
    var b := x[0];
    BipByte(b, id);
    EvenByte(b);
    NotExtended(x);
    hide ParseCyc, ParseExtended, ParseAddress, ParseTnt, Number;
  }

  lemma BipByte(b: nat, id: nat)
    requires b == id * 8 + 4
    ensures b % 2 == 0 && b % 8 == 4 && b / 8 == id && b >= 4
  {
    LowOne(id * 4 + 2, 0);
  }

  lemma ParsesAsTnt(s: State, x: seq<Byte>)
    requires |x| >= 1 && x[0] >= 4 && x[0] % 2 == 0 && !(s.inBlock && x[0] % 8 == 4)
    ensures ParseOne(s, x) == Got(ParseTnt(x[0]), 1)
  {
    EvenByte(x[0]);
    NotExtended(x);
    hide ParseCyc, ParseExtended, ParseAddress, ParseTnt;
  }

  lemma CycDispatch(s: State, cycles: nat, rest: seq<Byte>)
    requires WellFormed(s, Cyc(cycles))
    ensures ParseOne(s, Print(s, Cyc(cycles)) + rest) == Got(Cyc(cycles), |Print(s, Cyc(cycles))|)
  {
    CycRoundTrip(s, cycles, rest);
    var x := Print(s, Cyc(cycles)) + rest;
    assert x[0] % 4 == 3;
    hide ParseCyc, ParseOne, Print;
    ParsesAsCyc(s, x);
  }

  lemma TntDispatch(s: State, bits: nat, len: nat, rest: seq<Byte>)
    requires WellFormed(s, Tnt(bits, len))
    ensures ParseOne(s, Print(s, Tnt(bits, len)) + rest) == Got(Tnt(bits, len), 1)
  {
    TntRoundTrip(bits, len);
    var x := Print(s, Tnt(bits, len)) + rest;
    assert x[0] == TntByte(bits, len);
    hide ParseTnt, ParseOne, TntByte, Print;
    ParsesAsTnt(s, x);
  }
}
