/** The addresses of branch packets and their compression against the last address
    (`ip_decode`, src/intel_pt.c; the IPBytes field of the Intel SDM). */
module IpCompression {
  import opened Options
  import opened Bytes

  /** How many bytes follow for an IPBytes value; None if the value is reserved. */
  function PayloadLength(mode: nat): Option<nat> {
    match mode
    case 0 => Some(0)
    case 1 => Some(2)
    case 2 => Some(4)
    case 3 => Some(6)
    case 4 => Some(6)
    case 6 => Some(8)
    case _ => None
  }

  /** Copy bit 47 into the 16 bits above it. */
  function SignExtend(low: nat): nat
    requires low < TWO48
  {
    if low / 0x8000_0000_0000 == 1 then low + (TWO64 - TWO48) else low
  }

  /** The address: the payload below, the last address above. */
  function Decode(lastIp: nat, mode: nat, payload: seq<Byte>): nat
    requires PayloadLength(mode) == Some(|payload|)
  {
    Powers();
    match mode
    case 0 => 0
    case 1 => lastIp / TWO16 * TWO16 + Number(payload)
    case 2 => lastIp / TWO32 * TWO32 + Number(payload)
    case 3 => SignExtend(Number(payload))
    case 4 => lastIp / TWO48 * TWO48 + Number(payload)
    case _ => Number(payload)
  }

  /** Only a packet that carries an address moves the reference. */
  function NextLast(lastIp: nat, mode: nat, ip: nat): nat {
    if mode == 0 then lastIp else ip
  }

  // ---- The tracer's side ----

  /** The choices a tracer has for sending `ip`: the low bytes alone if the others are those of the last
      address, 48 bits if bits 47 to 63 are all equal, or everything. */
  predicate Legal(lastIp: nat, mode: nat, ip: nat) {
    ip < TWO64 &&
    match mode
    case 1 => ip / TWO16 == lastIp / TWO16
    case 2 => ip / TWO32 == lastIp / TWO32
    case 3 => ip < 0x8000_0000_0000 || ip >= 0xFFFF_8000_0000_0000
    case 4 => ip / TWO48 == lastIp / TWO48
    case 6 => true
    case 0 => ip == 0
    case _ => false
  }

  function Encode(mode: nat, ip: nat): seq<Byte>
    requires PayloadLength(mode).Some?
  {
    var n := PayloadLength(mode).value;
    Digits(ip % Pow256(n), n)
  }

  /** Copying bit 47 gives back exactly the addresses whose upper bits equal it. */
  lemma SignFits(ip: nat)
    requires ip < TWO64
    ensures SignExtend(ip % TWO48) == ip <==> ip < 0x8000_0000_0000 || ip >= 0xFFFF_8000_0000_0000
  {
  }

  /** A choice is decoded correctly exactly when it is legal. */
  lemma DecodesOne(lastIp: nat, mode: nat, ip: nat)
    requires PayloadLength(mode).Some? && ip < TWO64
    ensures PayloadLength(mode) == Some(|Encode(mode, ip)|)
    ensures Decode(lastIp, mode, Encode(mode, ip)) == ip <==> Legal(lastIp, mode, ip)
  {
    hide Number, Digits, Pow256, SignExtend, Legal;
    var payload := Encode(mode, ip);
    Powers();
    match mode {
      case 0 =>
      case 1 => NumberIs(ip, 2, TWO16);
      case 2 => NumberIs(ip, 4, TWO32);
      case 3 => NumberIs(ip, 6, TWO48);
      case 4 => NumberIs(ip, 6, TWO48);
      case 6 => NumberIs(ip, 8, TWO64);
    }
    hide Encode;
    Restored(lastIp, mode, ip, Number(payload));
  }

  lemma NumberIs(ip: nat, n: nat, w: nat)
    requires w == Pow256(n)
    ensures Number(Digits(ip % w, n)) == ip % w
  {
    NumberOfDigits(ip % w, n);
  }

  /** What is decoded from the low part of an address. */
  lemma Restored(lastIp: nat, mode: nat, ip: nat, low: nat)
    requires PayloadLength(mode).Some? && ip < TWO64
    requires mode == 1 ==> low == ip % TWO16
    requires mode == 2 ==> low == ip % TWO32
    requires mode == 3 || mode == 4 ==> low == ip % TWO48
    requires mode == 6 ==> low == ip
    ensures var r := match mode
                     case 0 => 0
                     case 1 => lastIp / TWO16 * TWO16 + low
                     case 2 => lastIp / TWO32 * TWO32 + low
                     case 3 => SignExtend(low)
                     case 4 => lastIp / TWO48 * TWO48 + low
                     case _ => low;
            r == ip <==> Legal(lastIp, mode, ip)
  {
    SignFits(ip);
    UpperKept(lastIp, ip);
    hide SignExtend;
  }

  /** The low bytes under the upper ones of the last address are the address exactly if those are its own. */
  lemma UpperKept(lastIp: nat, ip: nat)
    ensures lastIp / TWO16 * TWO16 + ip % TWO16 == ip <==> ip / TWO16 == lastIp / TWO16
    ensures lastIp / TWO32 * TWO32 + ip % TWO32 == ip <==> ip / TWO32 == lastIp / TWO32
    ensures lastIp / TWO48 * TWO48 + ip % TWO48 == ip <==> ip / TWO48 == lastIp / TWO48
  {
  }

  // ---- Whole sessions ----

  /** What happens to the reference: an address is sent, or a PSB resets it. */
  datatype Event = Sent(mode: nat, ip: nat) | Reset

  /** The last address sent since the latest reset: read backwards, the latest packet that carried one. */
  function Reference(lastIp: nat, events: seq<Event>): nat
    decreases |events|
  {
    if events == [] then lastIp
    else
      var n := |events| - 1;
      match events[n]
      case Reset => 0
      case Sent(mode, ip) => if mode == 0 then Reference(lastIp, events[..n]) else ip
  }

  /** Every choice is legal against the reference at that time. */
  predicate LegalAll(lastIp: nat, events: seq<Event>) {
    forall k | 0 <= k < |events| && events[k].Sent? ::
      Legal(Reference(lastIp, events[..k]), events[k].mode, events[k].ip)
  }

  /** The first event moves the reference as the decoder does. */
  lemma {:induction false} ReferenceFirst(lastIp: nat, events: seq<Event>)
    requires events != []
    ensures var next := if events[0].Reset? then 0 else NextLast(lastIp, events[0].mode, events[0].ip);
            Reference(lastIp, events) == Reference(next, events[1..])
    decreases |events|
  {
    var n := |events| - 1;
    if n > 0 {
      ReferenceFirst(lastIp, events[..n]);
      assert events[..n][1..] == events[1..][..n - 1];
    } else {
      assert events[..n] == [] && events[1..] == [];
    }
  }

  lemma LegalRest(lastIp: nat, events: seq<Event>)
    requires events != [] && LegalAll(lastIp, events)
    ensures var next := if events[0].Reset? then 0 else NextLast(lastIp, events[0].mode, events[0].ip);
            LegalAll(next, events[1..])
    ensures events[0].Sent? ==> Legal(lastIp, events[0].mode, events[0].ip)
  {
    hide Legal;
    var next := if events[0].Reset? then 0 else NextLast(lastIp, events[0].mode, events[0].ip);
    assert events[..0] == [];
    forall k | 0 <= k < |events[1..]| && events[1..][k].Sent?
      ensures Legal(Reference(next, events[1..][..k]), events[1..][k].mode, events[1..][k].ip)
    {
      ReferenceFirst(lastIp, events[..k + 1]);
      assert events[..k + 1][1..] == events[1..][..k] && events[..k + 1][0] == events[0];
      assert events[k + 1] == events[1..][k];
    }
  }

  /** What travels: the IPBytes value and the payload; or a reset. */
  datatype Wire = Bits(mode: nat, payload: seq<Byte>) | Restart

  function Send(events: seq<Event>): seq<Wire>
    requires forall e | e in events :: e.Sent? ==> PayloadLength(e.mode).Some?
  {
    seq(|events|, k requires 0 <= k < |events| && events[k] in events =>
      match events[k]
      case Reset => Restart
      case Sent(mode, ip) => Bits(mode, Encode(mode, ip)))
  }

  /** The addresses the decoder sees, and its reference afterwards. */
  function Receive(lastIp: nat, wires: seq<Wire>): (seq<nat>, nat)
    requires forall w | w in wires :: w.Bits? ==> PayloadLength(w.mode) == Some(|w.payload|)
    decreases |wires|
  {
    if wires == [] then ([], lastIp)
    else
      assert wires[0] in wires;
      match wires[0]
      case Restart => Receive(0, wires[1..])
      case Bits(mode, payload) =>
        var ip := Decode(lastIp, mode, payload);
        var (ips, end) := Receive(NextLast(lastIp, mode, ip), wires[1..]);
        ([ip] + ips, end)
  }

  function SentIps(events: seq<Event>): seq<nat> {
    if events == [] then [] else (if events[0].Sent? then [events[0].ip] else []) + SentIps(events[1..])
  }

  lemma LegalSendable(lastIp: nat, events: seq<Event>)
    requires LegalAll(lastIp, events)
    ensures forall e | e in events :: e.Sent? ==> PayloadLength(e.mode).Some?
  {
    forall e | e in events && e.Sent? ensures PayloadLength(e.mode).Some? {
      var k :| 0 <= k < |events| && events[k] == e;
      assert Legal(Reference(lastIp, events[..k]), events[k].mode, events[k].ip);
    }
  }

  /** For every legal choice of compression, with resets anywhere, the decoder sees the addresses
      that were sent, and its reference is the last address sent since the latest reset. */
  lemma {:induction false} SessionRoundTrip(lastIp: nat, events: seq<Event>)
    requires LegalAll(lastIp, events)
    ensures forall e | e in events :: e.Sent? ==> PayloadLength(e.mode).Some?
    ensures forall w | w in Send(events) :: w.Bits? ==> PayloadLength(w.mode) == Some(|w.payload|)
    ensures Receive(lastIp, Send(events)) == (SentIps(events), Reference(lastIp, events))
    decreases |events|
  {
    LegalSendable(lastIp, events);
    if events != [] {
      var e, rest := events[0], events[1..];
      assert e in events;
      var next := if e.Reset? then 0 else NextLast(lastIp, e.mode, e.ip);
      LegalRest(lastIp, events);
      ReferenceFirst(lastIp, events);
      SessionRoundTrip(next, rest);
      var wires := Send(events);
      assert wires[1..] == Send(rest);
      assert forall w | w in wires :: w == wires[0] || w in wires[1..];
      if e.Sent? {
        DecodesOne(lastIp, e.mode, e.ip);
        assert wires[0] == Bits(e.mode, Encode(e.mode, e.ip));
        assert Receive(lastIp, wires) == ([e.ip] + Receive(next, wires[1..]).0, Receive(next, wires[1..]).1);
      } else {
        assert wires[0] == Restart;
        assert SentIps(events) == SentIps(rest);
      }
    }
  }
}
