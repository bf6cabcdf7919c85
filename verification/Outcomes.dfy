/** Branch outcomes on their way from the processor to the replay: as they are packed into a packet, and
    as the replay takes them out again. */
module Outcomes {
  import opened Arithmetic
  import opened Replay
  import opened ReplayTheory
  import opened Execution

  // ---- The processor's side ----

  /** Outcomes in one number: the oldest has the highest weight, the youngest weight one. */
  function Packed(outs: seq<bool>): (bits: nat)
    ensures bits < Pow2(|outs|)
  {
    if outs == [] then 0 else (if outs[0] then Pow2(|outs| - 1) else 0) + Packed(outs[1..])
  }

  /** The outcomes some acts leave behind: of a conditional branch whether it was taken, of a compressed
      return that it was. */
  function Outs(acts: seq<Act>): seq<bool> {
    if acts == [] then [] else OutOf(acts[0]) + Outs(acts[1..])
  }

  function OutOf(act: Act): seq<bool> {
    match act
    case Took(taken) => [taken]
    case Went(_, compressed) => if compressed then [true] else []
    case Fall => []
  }

  /** The packet reports exactly these acts: their outcomes, or their one target. Above its outcomes a
      word may hold anything. */
  predicate Carries(f: Feed, acts: seq<Act>) {
    match f
    case Bits(bits, len) =>
      len == |Outs(acts)| && bits % Pow2(len) == Packed(Outs(acts)) && TipsOfActs(acts) == []
    case Target(addr) => Outs(acts) == [] && TipsOfActs(acts) == if addr == 0 then [] else [addr]
  }

  /** The packets together hold these outcomes, in whatever groups, and these targets. */
  predicate CarryAll(fs: seq<Feed>, outs: seq<bool>, tips: seq<nat>)
    decreases |fs|
  {
    if fs == [] then outs == [] && tips == []
    else match fs[0]
      case Bits(bits, len) =>
        && len <= |outs| && bits % Pow2(len) == Packed(outs[..len])
        && CarryAll(fs[1..], outs[len..], tips)
      case Target(addr) =>
        if addr == 0 then CarryAll(fs[1..], outs, tips)
        else tips != [] && addr == tips[0] && CarryAll(fs[1..], outs, tips[1..])
  }

  /** Whatever the outcomes, there is a packet that carries them. */
  lemma EveryOutcomeCarried(acts: seq<Act>)
    requires TipsOfActs(acts) == []
    ensures Carries(Bits(Packed(Outs(acts)), |Outs(acts)|), acts)
  {
    SmallMod(Packed(Outs(acts)), Pow2(|Outs(acts)|));
  }

  lemma SmallMod(a: nat, n: nat)
    requires a < n
    ensures a % n == a
  {
  }

  // ---- The replay's side ----

  function Marked(outs: seq<bool>, en: bool): seq<Bit> {
    seq(|outs|, k requires 0 <= k < |outs| => Bit(outs[k], en))
  }

  /** The top bit of a word, and the word below it. */
  lemma TopBit(bits: nat, n: nat, top: bool, rest: nat)
    requires rest < Pow2(n) && bits % Pow2(n + 1) == (if top then Pow2(n) else 0) + rest
    ensures (bits / Pow2(n) % 2 == 1) == top && bits % Pow2(n) == rest
  {
    Halves(Pow2(n), Pow2(n + 1), bits, if top then 1 else 0, rest);
  }

  function Quotient(a: nat, n: nat): nat
    requires n > 0
  {
    a / n
  }

  function Remainder(a: nat, n: nat): nat
    requires n > 0
  {
    a % n
  }

  lemma Euclid(a: nat, n: nat)
    requires n > 0
    ensures a == n * Quotient(a, n) + Remainder(a, n) && Remainder(a, n) < n
  {
  }

  lemma Halves(p: nat, two: nat, bits: nat, o: nat, rest: nat)
    requires two == 2 * p && rest < p && o < 2
    requires Remainder(bits, two) == (if o == 1 then p else 0) + rest
    ensures Quotient(bits, p) % 2 == o && Remainder(bits, p) == rest
  {
    hide Quotient, Remainder;
    Euclid(bits, two);
    Euclid(bits, p);
    HalvesOf(p, two, bits, Quotient(bits, p), Remainder(bits, p), Quotient(bits, two), o, rest);
  }

  lemma HalvesOf(p: nat, two: nat, bits: nat, d: nat, m: nat, q: nat, o: nat, rest: nat)
    requires two == 2 * p && bits == p * d + m && bits == two * q + ((if o == 1 then p else 0) + rest)
    requires m < p && rest < p && o < 2
    ensures d == 2 * q + o && d % 2 == o && m == rest
  {
    Distribute(p, q, o);
    DivisionUnique(p, d, m, 2 * q + o, rest);
  }

  lemma Distribute(p: nat, q: nat, o: nat)
    requires o < 2
    ensures p * (2 * q + o) == 2 * p * q + if o == 1 then p else 0
  {
  }

  /** A packed word gives back its outcomes, the oldest first. */
  lemma {:induction false} PackedUnpacks(outs: seq<bool>, bits: nat, en: bool)
    requires bits % Pow2(|outs|) == Packed(outs)
    ensures BitsOf(Replay.Tnt(bits, |outs|, en)) == Marked(outs, en)
    decreases |outs|
  {
    if outs != [] {
      var n := |outs| - 1;
      TopBit(bits, n, outs[0], Packed(outs[1..]));
      PackedUnpacks(outs[1..], bits, en);
      assert Marked(outs, en) == [Bit(outs[0], en)] + Marked(outs[1..], en);
    }
  }

  /** The outcome the replay looks at first is the oldest. */
  lemma OldestFirst(outs: seq<bool>, bits: nat, en: bool, more: seq<Replay.Tnt>)
    requires outs != [] && bits % Pow2(|outs|) == Packed(outs)
    ensures FrontBit([Replay.Tnt(bits, |outs|, en)] + more) == Front(Marked(outs, en))
  {
    TopBit(bits, |outs| - 1, outs[0], Packed(outs[1..]));
  }

  lemma MarkedConcat(a: seq<bool>, b: seq<bool>, en: bool)
    ensures Marked(a + b, en) == Marked(a, en) + Marked(b, en)
  {
  }

  lemma {:induction false} OutsAreBits(en: bool, acts: seq<Act>)
    ensures BitsOfActs(en, acts) == Marked(Outs(acts), en)
  {
    if acts != [] {
      OutsAreBits(en, acts[1..]);
      MarkedConcat(OutOf(acts[0]), Outs(acts[1..]), en);
      assert ActBits(en, acts[0]) == Marked(OutOf(acts[0]), en);
    }
  }

  /** What a packet carries is what the replay is fed. */
  lemma CarriesFeeds(en: bool, f: Feed, acts: seq<Act>)
    requires Carries(f, acts)
    ensures FeedBits(en, f) == BitsOfActs(en, acts) && FeedTips(f) == TipsOfActs(acts)
  {
    OutsAreBits(en, acts);
    if f.Bits? {
      PackedUnpacks(Outs(acts), f.bits, en);
    }
  }

  lemma NothingMarked(en: bool)
    ensures Marked([], en) == []
  {
  }

  lemma FedBits(en: bool, bits: nat, len: nat)
    ensures FeedBits(en, Bits(bits, len)) == BitsOf(Tnt(bits, len, en)) && FeedTips(Bits(bits, len)) == []
  {
    hide BitsOf;
  }

  lemma FedTarget(en: bool, addr: nat)
    ensures FeedBits(en, Target(addr)) == [] && FeedTips(Target(addr)) == if addr == 0 then [] else [addr]
  {
  }

  lemma {:induction false} CarryAllFeeds(en: bool, fs: seq<Feed>, outs: seq<bool>, tips: seq<nat>)
    requires CarryAll(fs, outs, tips)
    ensures AllBits(en, fs) == Marked(outs, en) && AllTips(fs) == tips
    decreases |fs|
  {
    hide BitsOf, Pow2, Marked, Packed, FeedBits;
    if fs == [] {
      assert Marked([], en) == [] by {
        NothingMarked(en);
      }
    } else {
      match fs[0] {
        case Bits(bits, len) =>
          PackedUnpacks(outs[..len], bits, en);
          FedBits(en, bits, len);
          CarryAllFeeds(en, fs[1..], outs[len..], tips);
          assert outs == outs[..len] + outs[len..];
          MarkedConcat(outs[..len], outs[len..], en);
        case Target(addr) =>
          FedTarget(en, addr);
          CarryAllFeeds(en, fs[1..], outs, if addr == 0 then tips else tips[1..]);
      }
    }
  }
}
