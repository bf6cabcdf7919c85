/** The bytes of packets as chapter "Intel Processor Trace" of the Intel SDM lays them out, where printer
    and parser share a definition, and what the parser makes of bytes that the printer never sends. */
module Layouts {
  import opened Bytes
  import opened Packets
  import Ip = IpCompression
  import Arithmetic
  import PacketTheory

  lemma {:induction false} DigitAt(v: nat, n: nat, k: nat)
    requires k < n
    ensures Digits(v, n)[k] == Byte256(v, k)
    decreases k
  {
    if k > 0 {
      DigitAt(v / 256, n - 1, k - 1);
    }
  }

  /** Byte k of a number. */
  function Byte256(v: nat, k: nat): Byte {
    if k == 0 then v % 256 else Byte256(v / 256, k - 1)
  }

  /** What lies above the n low bytes does not change them. */
  lemma {:induction false} DigitsBelow(low: nat, n: nat, h: nat)
    ensures Digits(low + Pow256(n) * h, n) == Digits(low, n)
    decreases n
  {
    if n > 0 {
      var t := Pow256(n - 1) * h;
      assert Pow256(n) * h == 256 * t by {
        Associates(256, Pow256(n - 1), h);
      }
      assert (low + 256 * t) / 256 == low / 256 + t && (low + 256 * t) % 256 == low % 256;
      DigitsBelow(low / 256, n - 1, h);
    }
  }

  lemma Associates(a: nat, b: nat, c: nat)
    ensures a * b * c == a * (b * c)
  {
  }

  lemma Split(v: nat, m: nat) returns (low: nat, h: nat)
    requires m > 0
    ensures v == low + m * h && low == v % m
  {
    low, h := v % m, v / m;
  }

  lemma LowDigitAt(ip: nat, n: nat, k: nat)
    requires k < n
    ensures Digits(ip % Pow256(n), n)[k] == Byte256(ip, k)
  {
    hide Pow256, Digits, Byte256;
    var low, h := Split(ip, Pow256(n));
    DigitsBelow(low, n, h);
    DigitAt(ip, n, k);
  }

  /** An address packet: the upper three bits of the first byte say how many bytes of the address follow,
      the lowest first; the lower five which packet it is. */
  lemma AddressLayout(s: State, op: IpOp, mode: nat, ip: nat)
    requires WellFormed(s, Address(op, mode, ip))
    ensures var x := Print(s, Address(op, mode, ip));
            && x[0] == mode * 32 + (match op case Fup => 0x1D case TipPge => 0x11 case Tip => 0x0D case TipPgd => 0x01)
            && |x| == 1 + (match mode case 0 => 0 case 1 => 2 case 2 => 4 case 6 => 8 case _ => 6)
            && forall k | 0 <= k < |x| - 1 :: x[1 + k] == Byte256(ip, k)
  {
    var n := Ip.PayloadLength(mode).value;
    forall k | 0 <= k < n ensures Digits(ip % Pow256(n), n)[k] == Byte256(ip, k) {
      LowDigitAt(ip, n, k);
    }
  }

  /** An outcome packet: below the stop bit the outcomes, the oldest first; the lowest bit is zero. */
  lemma TntLayout(s: State)
    requires !s.inBlock
    ensures Print(s, Tnt(1, 1)) == [0x06] && Print(s, Tnt(0, 1)) == [0x04]
    ensures Print(s, Tnt(2, 2)) == [0x0C] && Print(s, Tnt(1, 2)) == [0x0A]
    ensures Print(s, Tnt(37, 6)) == [0xCA]
  {
    assert Arithmetic.Pow2(1) == 2 && Arithmetic.Pow2(2) == 4 && Arithmetic.Pow2(3) == 8;
    assert Arithmetic.Pow2(4) == 16 && Arithmetic.Pow2(5) == 32 && Arithmetic.Pow2(6) == 64;
  }

  /** The extension byte before anything it does not extend is an outcome packet without outcomes. */
  lemma UnknownExtension(s: State, x: seq<Byte>)
    requires x != [] && x[0] == 0x02 && ParseExtended(x).None?
    ensures ParseOne(s, x) == Got(Tnt(0, 0), 1)
  {
  }

  /** The address bit of an EXSTOP is not looked at. */
  lemma ExStopBit(s: State, second: Byte, rest: seq<Byte>)
    requires second == 0x62 || second == 0xE2
    ensures ParseOne(s, [0x02, second] + rest) == Got(Plain(ExStop, []), 2)
  {
    hide ParseBase;
    var x := [0x02, second] + rest;
    assert x[1] == second && x[2..2] == [];
  }

  /** Nor is the payload size of a PTW: eight bytes are taken. */
  lemma PtwSize(s: State, second: Byte, payload: seq<Byte>, rest: seq<Byte>)
    requires second % 0x20 == 0x12 && |payload| == 8
    ensures ParseOne(s, [0x02, second] + payload + rest) == Got(Ptw(second >= 0x80, Number(payload)), 10)
  {
    hide ParseBase, Number;
    var x := [0x02, second] + payload + rest;
    assert x[0] == 0x02 && x[1] == second && |x| >= 10 && x[2..10] == payload;
    assert second != 0x13 && second != 0x43 && second != 0x63 && second != 0x73;
    assert PlainOp(x).None?;
  }

  // ---- Whatever is parsed could have been sent ----

  lemma ExtendedFits(s: State, x: seq<Byte>)
    requires x != [] && ParseExtended(x).Some?
    ensures WellFormed(s, ParseExtended(x).value.p)
  {
    Powers();
    if |x| >= 7 {
      TwoBytes(x[5], x[6] % 2);
    }
    if |x| >= 8 {
      SixteenTimes(Number(x[2..8]));
    }
    hide Pow256, Number;
  }

  lemma TwoBytes(a: Byte, b: Byte)
    ensures Number([a, b]) == a as nat + 256 * b as nat
  {
    assert [a, b][1..] == [b] && [b][1..] == [];
  }

  lemma SixteenTimes(n: nat)
    ensures n * 16 % 16 == 0 && n * 16 / 16 == n
  {
  }

  lemma SignRestores(low: nat)
    requires low < TWO48
    ensures Ip.SignExtend(low) % TWO48 == low && Ip.SignExtend(low) < TWO64
  {
  }

  lemma UpperRestores(lastIp: nat, low: nat)
    requires lastIp < TWO64
    ensures low < TWO16 ==> var ip := lastIp / TWO16 * TWO16 + low; ip % TWO16 == low && ip < TWO64
    ensures low < TWO32 ==> var ip := lastIp / TWO32 * TWO32 + low; ip % TWO32 == low && ip < TWO64
    ensures low < TWO48 ==> var ip := lastIp / TWO48 * TWO48 + low; ip % TWO48 == low && ip < TWO64
  {
  }

  lemma AddressFits(s: State, op: IpOp, x: seq<Byte>)
    requires x != [] && s.lastIp < TWO64 && ParseAddress(s.lastIp, op, x).Got?
    ensures WellFormed(s, ParseAddress(s.lastIp, op, x).p)
  {
    var mode := x[0] / 32;
    var k := Ip.PayloadLength(mode).value;
    var low := Number(x[1..1 + k]);
    Powers();
    hide Pow256, Number, Ip.SignExtend;
    UpperRestores(s.lastIp, low);
    if mode == 3 {
      SignRestores(low);
    }
    Ip.Restored(s.lastIp, mode, Ip.Decode(s.lastIp, mode, x[1..1 + k]), low);
  }

  lemma TntFits(b: Byte)
    requires b > 0 && b % 2 == 0
    ensures var p := ParseTnt(b);
            && p.len <= 6 && p.bits < Arithmetic.Pow2(p.len) && TntByte(p.bits, p.len) == b
            && (p.len == 0 ==> p.bits == 0)
  {
    HighBitRange(b);
    var len := HighBit(b) - 1;
    var m := Arithmetic.Pow2(len);
    assert Arithmetic.Pow2(len + 1) == 2 * m && Arithmetic.Pow2(len + 2) == 4 * m;
    Below(b / 2, m);
  }

  lemma Below(v: nat, m: nat)
    requires m <= v < 2 * m
    ensures v % m == v - m
  {
    assert v / m == 1;
  }

  lemma HighBitRange(b: Byte)
    requires b > 1
    ensures 1 <= HighBit(b) <= 7
  {
    assert Arithmetic.Pow2(8) == 256 by {
      assert Arithmetic.Pow2(4) == 16;
    }
    var n := HighBit(b);
    if n >= 8 {
      PacketTheory.Pow2Grows(8, n);
    }
  }

  /** What a packet of the parser is, if a tracer may not send it there. */
  predicate Unsent(s: State, x: seq<Byte>, p: Packet) {
    || p == Tnt(0, 0)
    || (p.Cyc? && p.cycles >= 0x2000_0000_0000_0000)
    || (p.Tnt? && s.inBlock && |x| < 9)
  }

  lemma BaseFits(s: State, x: seq<Byte>)
    requires s.lastIp < TWO64 && x != [] && ParseBase(s, x).Got?
    ensures WellFormed(s, ParseBase(s, x).p) || Unsent(s, x, ParseBase(s, x).p)
  {
    Powers();
    if x[0] % 32 in {0x1D, 0x11, 0x0D, 0x01} && x[0] != 0x99 && x[0] != 0x59 && x[0] != 0x19 {
      AddressFits(s, if x[0] % 32 == 0x1D then Fup else if x[0] % 32 == 0x11 then TipPge
                     else if x[0] % 32 == 0x0D then Tip else TipPgd, x);
    } else if x[0] != 0 && x[0] % 2 == 0 {
      TntFits(x[0]);
    }
    hide Pow256, Number, ParseTnt, TntByte, ParseAddress;
  }

  /** Whatever the parser reads, from any bytes, is a packet that may be sent there, except an outcome
      packet without outcomes, a cycle count of more than 61 bits, and outcomes in an open block of whose
      item not all bytes are there. */
  lemma ParsedFits(s: State, x: seq<Byte>)
    requires s.lastIp < TWO64 && ParseOne(s, x).Got?
    ensures WellFormed(s, ParseOne(s, x).p) || Unsent(s, x, ParseOne(s, x).p)
  {
    if ParseExtended(x).Some? {
      ExtendedFits(s, x);
    } else {
      BaseFits(s, x);
    }
    hide WellFormed, Unsent, ParseExtended, ParseBase;
  }
}
