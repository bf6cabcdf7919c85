/** The packet parser (`intel_pt_decode_online`, src/intel_pt.c) and a printer for what it accepts.
    Parsing depends on two pieces of state: the last address, and whether a block packet group is
    open (a byte that starts a block item there is an outcome packet elsewhere). */
module Packets {
  import Arithmetic
  import opened Options
  import opened Bytes
  import Ip = IpCompression

  /** Packets that are recognised by their code and length only. */
  datatype Op = Mnt | Ovf | Vmcs | Mwait | LongTnt | Pwrx | TraceStop | Evd | PsbEnd | Pwre | ExStop

  datatype IpOp = Fup | TipPge | Tip | TipPgd

  datatype Packet =
    | Psb
    | Plain(op: Op, payload: seq<Byte>)
    | Tma(ctc: nat, fc: nat)
    | Bbp(kind: nat, short: bool)
    | Pip(pgd: nat)
    | Cfe(fup: bool, kind: nat, vector: nat)
    | Cbr(ratio: nat)
    | Bep(fup: bool)
    | Ptw(fup: bool, value: nat)
    | Mode(bits: nat)
    | Mtc(ctc: nat)
    | Tsc(tsc: nat)
    | Pad
    | Address(ipOp: IpOp, mode: nat, ip: nat)
    | Bip(id: nat, value: nat)
    | Cyc(cycles: nat)
    | Tnt(bits: nat, len: nat)

  /** The state the parser depends on. */
  datatype State = State(lastIp: nat, inBlock: bool)

  function NextState(s: State, p: Packet): State {
    match p
    case Psb => s.(lastIp := 0)
    case Plain(op, _) => if op.Ovf? then s.(inBlock := false) else s
    case Bbp(_, _) => s.(inBlock := true)
    case Bep(_) => s.(inBlock := false)
    case Address(_, mode, ip) => s.(lastIp := Ip.NextLast(s.lastIp, mode, ip))
    case _ => s
  }

  /** A packet and the number of bytes it took, or the stop after a decode error. */
  datatype Parsed = Got(p: Packet, len: nat) | Error

  // ---- Codes ----

  function OpCode(op: Op): (code: seq<Byte>)
    ensures |code| >= 2
  {
    match op
    case Mnt => [0x02, 0xC3, 0x88]
    case Ovf => [0x02, 0xF3]
    case Vmcs => [0x02, 0xC8]
    case Mwait => [0x02, 0xC2]
    case LongTnt => [0x02, 0xA3]
    case Pwrx => [0x02, 0xA2]
    case TraceStop => [0x02, 0x83]
    case Evd => [0x02, 0x53]
    case PsbEnd => [0x02, 0x23]
    case Pwre => [0x02, 0x22]
    case ExStop => [0x02, 0x62]
  }

  /** Bytes after the code. */
  function OpPayload(op: Op): nat {
    match op
    case Mnt => 8
    case Ovf => 0
    case Vmcs => 5
    case Mwait => 8
    case LongTnt => 6
    case Pwrx => 5
    case TraceStop => 0
    case Evd => 9
    case PsbEnd => 0
    case Pwre => 2
    case ExStop => 0
  }

  function IpCode(op: IpOp): nat {
    match op
    case Fup => 0x1D
    case TipPge => 0x11
    case Tip => 0x0D
    case TipPgd => 0x01
  }

  // ---- Parsing ----

  /** The operation named by the second byte of an extended packet, when its other bytes are there. */
  function PlainOp(x: seq<Byte>): Option<Op>
    requires |x| >= 2
  {
    var n, b := |x|, x[1];
    if b == 0xC3 && n >= 11 && x[2] == 0x88 then Some(Mnt)
    else if b == 0xF3 then Some(Ovf)
    else if b == 0xC8 && n >= 7 then Some(Vmcs)
    else if b == 0xC2 && n >= 10 then Some(Mwait)
    else if b == 0xA3 && n >= 8 then Some(LongTnt)
    else if b == 0xA2 && n >= 7 then Some(Pwrx)
    else if b == 0x83 then Some(TraceStop)
    else if b == 0x53 && n >= 11 then Some(Evd)
    else if b == 0x23 then Some(PsbEnd)
    else if b == 0x22 && n >= 4 then Some(Pwre)
    else if b % 128 == 0x62 then Some(ExStop)
    else None
  }

  /** Packets that begin with 0x02 and a known second byte. A shorter or unknown one is no error: it
      falls through to the outcome packets, as a packet without outcomes. */
  function ParseExtended(x: seq<Byte>): (r: Option<Parsed>)
    requires |x| >= 1
    ensures r.Some? ==> r.value.Got? && 0 < r.value.len <= |x|
  {
    var n := |x|;
    if x[0] != 0x02 || n < 2 then None
    else if x[1] == 0x82 && n >= 4 && x[2] == 0x02 && x[3] == 0x82 then Some(Got(Psb, 4))
    else if PlainOp(x).Some? then
      var op := PlainOp(x).value;
      var code := |OpCode(op)|;
      Some(Got(Plain(op, x[code..code + OpPayload(op)]), code + OpPayload(op)))
    else if x[1] == 0x73 && n >= 7 then Some(Got(Tma(Number(x[2..4]), Number([x[5], x[6] % 2])), 7))
    else if x[1] == 0x63 && n >= 3 then Some(Got(Bbp(x[2] % 32, x[2] / 128 == 1), 3))
    else if x[1] == 0x43 && n >= 8 then Some(Got(Pip(Number(x[2..8]) * 16), 8))
    else if x[1] == 0x13 && n >= 4 then Some(Got(Cfe(x[2] / 128 == 1, x[2] % 32, x[3]), 4))
    else if x[1] == 0x03 && n >= 4 then Some(Got(Cbr(x[2]), 4))
    else if x[1] % 128 == 0x33 then Some(Got(Bep(x[1] / 128 == 1), 2))
    else if x[1] % 32 == 0x12 && n >= 10 then Some(Got(Ptw(x[1] / 128 == 1, Number(x[2..10])), 10))
    else None
  }

  function ParseAddress(lastIp: nat, op: IpOp, x: seq<Byte>): (r: Parsed)
    requires |x| >= 1
    ensures r.Got? ==> 0 < r.len <= |x|
  {
    var mode := x[0] / 32;
    match Ip.PayloadLength(mode)
    case None => Error
    case Some(k) => if |x| < 1 + k then Error else Got(Address(op, mode, Ip.Decode(lastIp, mode, x[1..1 + k])), 1 + k)
  }

  /** Shift left. */
  function Shl(v: nat, n: nat): nat {
    v * Arithmetic.Pow2(n)
  }

  /** The continuation bytes of a cycle packet: seven bits each, the lowest bit says whether another
      follows. `shift` is where the next seven bits go; the value is kept in 64 bits. */
  function ParseCycles(x: seq<Byte>, shift: nat, value: nat): (r: Option<(nat, nat)>)
    ensures r.Some? ==> 0 < r.value.1 <= |x|
    decreases |x|
  {
    if x == [] || shift > 63 then None
    else
      var sum := (value + Shl(x[0] / 2, shift)) % TWO64;
      if x[0] % 2 == 0 then Some((sum, 1))
      else match ParseCycles(x[1..], shift + 7, sum)
        case None => None
        case Some((v, k)) => Some((v, k + 1))
  }

  function ParseCyc(x: seq<Byte>): (r: Parsed)
    requires |x| >= 1
    ensures r.Got? ==> 0 < r.len <= |x|
  {
    if x[0] / 4 % 2 == 0 then Got(Cyc(x[0] / 8), 1)
    else match ParseCycles(x[1..], 5, x[0] / 8)
      case None => Error
      case Some((v, k)) => Got(Cyc(v), k + 1)
  }

  /** Position of the highest set bit. */
  function HighBit(b: nat): (n: nat)
    requires b > 0
    ensures Arithmetic.Pow2(n) <= b < Arithmetic.Pow2(n + 1)
  {
    if b == 1 then 0 else HighBit(b / 2) + 1
  }

  /** An outcome packet: below the highest bit, the outcomes; the lowest bit is not one. */
  function ParseTnt(b: Byte): Packet
    requires b > 0 && b % 2 == 0
  {
    var len := HighBit(b) - 1;
    Tnt(b / 2 % Arithmetic.Pow2(len), len)
  }

  /** What a mask of low bits leaves of a byte (m a power of two). */
  function Low(b: nat, m: nat): nat
    requires m > 0
  {
    b % m
  }

  /** Packets known by their first byte. */
  function ParseBase(s: State, x: seq<Byte>): (r: Parsed)
    requires |x| >= 1
    ensures r.Got? ==> 0 < r.len <= |x|
  {
    var n, b := |x|, x[0];
    if b == 0x99 && n >= 2 then Got(Mode(x[1]), 2)
    else if b == 0x59 && n >= 2 then Got(Mtc(x[1]), 2)
    else if b == 0x19 && n >= 8 then Got(Tsc(Number(x[1..8])), 8)
    else if b == 0x00 then Got(Pad, 1)
    else if Low(b, 32) == IpCode(Fup) then ParseAddress(s.lastIp, Fup, x)
    else if Low(b, 32) == IpCode(TipPge) then ParseAddress(s.lastIp, TipPge, x)
    else if Low(b, 32) == IpCode(Tip) then ParseAddress(s.lastIp, Tip, x)
    else if Low(b, 32) == IpCode(TipPgd) then ParseAddress(s.lastIp, TipPgd, x)
    else if n >= 9 && Low(b, 8) == 4 && s.inBlock then Got(Bip(b / 8, Number(x[1..9])), 9)
    else if Low(b, 4) == 3 then ParseCyc(x)
    else if Low(b, 2) == 0 then Got(ParseTnt(b), 1)
    else Error
  }

  /** One packet at the front of the buffer. */
  function ParseOne(s: State, x: seq<Byte>): (r: Parsed)
    ensures r.Got? ==> 0 < r.len <= |x|
  {
    if x == [] then Error
    else match ParseExtended(x)
      case Some(found) => found
      case None => ParseBase(s, x)
  }

  /** All packets of a buffer; None is the stop after a decode error. */
  function ParseAll(s: State, x: seq<Byte>): Option<(seq<Packet>, State)>
    decreases |x|
  {
    if x == [] then Some(([], s))
    else match ParseOne(s, x)
      case Error => None
      case Got(p, len) =>
        match ParseAll(NextState(s, p), x[len..])
        case None => None
        case Some((ps, end)) => Some(([p] + ps, end))
  }

  // ---- Printing ----

  function PrintCycles(v: nat): (x: seq<Byte>)
    ensures |x| > 0
  {
    if v < 128 then [v * 2] else [v % 128 * 2 + 1] + PrintCycles(v / 128)
  }

  /** The packets a tracer may send in a state, apart from repeated PSB words being listed one by one. */
  predicate WellFormed(s: State, p: Packet) {
    match p
    case Plain(op, payload) => |payload| == OpPayload(op)
    case Tma(ctc, fc) => ctc < TWO16 && fc < 512
    case Bbp(kind, _) => kind < 32
    case Pip(pgd) => pgd % 16 == 0 && pgd / 16 < TWO48
    case Cfe(_, kind, vector) => kind < 32 && vector < 256
    case Cbr(ratio) => ratio < 256
    case Ptw(_, value) => value < TWO64
    case Mode(bits) => bits < 256
    case Mtc(ctc) => ctc < 256
    case Tsc(tsc) => tsc < 0x100_0000_0000_0000
    case Address(_, mode, ip) => Ip.Legal(s.lastIp, mode, ip)
    case Bip(id, value) => s.inBlock && id < 32 && value < TWO64
    case Cyc(cycles) => cycles < 0x2000_0000_0000_0000
    case Tnt(bits, len) => 1 <= len <= 6 && bits < Arithmetic.Pow2(len) && !(s.inBlock && TntByte(bits, len) % 8 == 4)
    case _ => true
  }

  function TntByte(bits: nat, len: nat): nat {
    2 * (Arithmetic.Pow2(len) + bits)
  }

  function Flag(b: bool, weight: nat): nat {
    if b then weight else 0
  }

  lemma TntByteFits(bits: nat, len: nat)
    requires 1 <= len <= 6 && bits < Arithmetic.Pow2(len)
    ensures 4 <= TntByte(bits, len) < 256
  {
    assert Arithmetic.Pow2(1) == 2 && Arithmetic.Pow2(2) == 4 && Arithmetic.Pow2(3) == 8;
    assert Arithmetic.Pow2(4) == 16 && Arithmetic.Pow2(5) == 32 && Arithmetic.Pow2(6) == 64;
  }

  function Print(s: State, p: Packet): (x: seq<Byte>)
    requires WellFormed(s, p)
    ensures |x| > 0
  {
    match p
    case Psb => [0x02, 0x82, 0x02, 0x82]
    case Plain(op, payload) => OpCode(op) + payload
    case Tma(ctc, fc) => [0x02, 0x73] + Digits(ctc, 2) + [0x00, fc % 256, fc / 256]
    case Bbp(kind, short) => [0x02, 0x63, kind + Flag(short, 128)]
    case Pip(pgd) => [0x02, 0x43] + Digits(pgd / 16, 6)
    case Cfe(fup, kind, vector) => [0x02, 0x13, kind + Flag(fup, 128), vector]
    case Cbr(ratio) => [0x02, 0x03, ratio, 0x00]
    case Bep(fup) => [0x02, 0x33 + Flag(fup, 128)]
    case Ptw(fup, value) => [0x02, 0x32 + Flag(fup, 128)] + Digits(value, 8)
    case Mode(bits) => [0x99, bits]
    case Mtc(ctc) => [0x59, ctc]
    case Tsc(tsc) => [0x19] + Digits(tsc, 7)
    case Pad => [0x00]
    case Address(op, mode, ip) => [mode * 32 + IpCode(op)] + Ip.Encode(mode, ip)
    case Bip(id, value) => [id * 8 + 4] + Digits(value, 8)
    case Cyc(cycles) => if cycles < 32 then [cycles * 8 + 3] else [cycles % 32 * 8 + 7] + PrintCycles(cycles / 32)
    case Tnt(bits, len) => TntByteFits(bits, len); [TntByte(bits, len)]
  }
}
