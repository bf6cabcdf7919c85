/** The timing part of `record_intel_pt_pkt` (src/intel_pt.c): the 8-bit tick counter of MTC packets
    unwrapped to a full count since the last anchor, also across lost packets, and the cycles since
    the last tick. */
module Ticks {
  import opened Bytes
  import opened PacketLog

  /** `en`: an anchor is known. `lost`: overflows since the last tick. `base`: the counter at the
      anchor. `wraps`: how often the counter has come round to it. `prev`: the last counter value.
      `ticks`: ticks since the anchor. `cycRef`, `cycs`: the cycle counter last seen, and the cycles
      since the last tick. */
  datatype Clock = Clock(en: bool, lost: nat, base: nat, wraps: nat, prev: nat, ticks: nat, cycRef: nat, cycs: nat)

  function Initial(): Clock {
    Clock(false, 0, 0, 0, 0, 0, 0, 0)
  }

  /** Packets that carry a cycle count, and the cycle packets themselves. */
  predicate Counts(kind: Kind) {
    kind.Ovf? || kind.Vmcs? || kind.Pip? || kind.ExStop? || kind.Ptw? || kind.ModeExec? || kind.Mtc? || kind.Tsc?
    || kind.TipPge? || kind.Tip? || kind.TipPgd? || kind.ShortTnt? || kind.Cyc?
  }

  /** Difference of 64-bit counters. */
  function Minus(a: nat, b: nat): nat {
    (a + (TWO64 - b % TWO64)) % TWO64
  }

  /** Whether the counter came round to the base between prev and ctc when packets were lost. */
  function LostWrap(base: nat, prev: nat, ctc: nat): nat {
    if prev < base then (if prev >= ctc || ctc >= base then 1 else 0)
    else if prev == base then 0
    else if base <= ctc <= prev then 1 else 0
  }

  /** `record_intel_pt_pkt` for a packet of a kind, with its value and the cycle counter. */
  function Record(c: Clock, kind: Kind, val: nat, cyc: nat): Clock {
    var noted := if kind.Ovf? then c.(lost := c.lost + 1) else c;
    if kind.Tma? then noted.(en := true, ticks := 0, cycs := 0, lost := 0)
    else if kind.Mtc? && noted.en then
      var wraps := noted.wraps + if noted.lost >= 1 then LostWrap(noted.base, noted.prev, val)
        else if val == noted.base then 1 else 0;
      noted.(wraps := wraps, ticks := (val + 256 - noted.base % 256) % 256 + 256 * wraps,
             cycs := 0, lost := 0, cycRef := cyc, prev := val)
    else if kind.Tsc? then noted.(en := false, ticks := 0, cycs := 0, lost := 0)
    else if Counts(kind) && noted.en then noted.(cycs := (noted.cycs + Minus(cyc, noted.cycRef)) % TWO64, cycRef := cyc)
    else noted
  }

  /** A TSC packet forgets the anchor. */
  function AtTsc(c: Clock, cyc: nat): Clock {
    Record(c.(wraps := 0, base := 0, cycRef := cyc), Tsc, 0, cyc)
  }

  /** A TMA packet is the anchor: counter value ctc at the cycle counter of its TSC packet. */
  function AtTma(c: Clock, ctc: nat, cyc: nat): Clock {
    Record(c.(wraps := 0, base := ctc % 256, cycRef := cyc), Tma, ctc % 256, cyc)
  }

  // ---- One tick packet ----

  /** The clock has counted n ticks since the anchor, and has seen the counter there. */
  predicate Exact(c: Clock, n: nat) {
    c.en && c.base < 256 && c.ticks == n && c.wraps == n / 256 && c.prev == (c.base + n) % 256
  }

  lemma OffsetOf(base: nat, n: nat)
    requires base < 256
    ensures ((base + n) % 256 + 256 - base) % 256 == n % 256
    ensures (base + n) % 256 == base <==> n % 256 == 0
  {
    var q, r := n / 256, n % 256;
    assert (base + n) % 256 == (base + r) % 256 by {
      assert base + n == (base + r) + 256 * q;
    }
  }

  /** Without loss the count stays right exactly when the step does not pass the next wrap. */
  lemma TickCounts(c: Clock, n: nat, n': nat, cyc: nat)
    requires c.en && c.base < 256 && c.wraps == n / 256 && c.lost == 0 && n < n'
    ensures var r := Record(c, Mtc, (c.base + n') % 256, cyc);
            Exact(r, n') <==> n' <= 256 * (n / 256) + 256
    ensures var r := Record(c, Mtc, (c.base + n') % 256, cyc);
            r.ticks == n' <==> Exact(r, n')
  {
    OffsetOf(c.base, n');
  }

  lemma LostWrapMeans(base: nat, n: nat, n': nat)
    requires base < 256 && n < n'
    ensures LostWrap(base, (base + n) % 256, (base + n') % 256)
            == if n % 256 != 0 && n' % 256 <= n % 256 then 1 else 0
  {
    OffsetOf(base, n);
    OffsetOf(base, n');
  }

  /** After a loss the count stays right exactly when fewer than 256 ticks were lost, or 256 from a
      point off the anchor's phase. */
  lemma LostTickCounts(c: Clock, n: nat, n': nat, cyc: nat)
    requires Exact(c, n) && c.lost >= 1 && n < n'
    ensures var r := Record(c, Mtc, (c.base + n') % 256, cyc);
            Exact(r, n') <==> n' - n <= 255 || (n' - n == 256 && n % 256 != 0)
    ensures var r := Record(c, Mtc, (c.base + n') % 256, cyc);
            r.ticks == n' <==> Exact(r, n')
  {
    OffsetOf(c.base, n');
    LostWrapMeans(c.base, n, n');
    var q, q', d, d' := n / 256, n' / 256, n % 256, n' % 256;
    assert n == 256 * q + d && n' == 256 * q' + d';
    hide LostWrap;
    LostCase(q, d, q', d');
  }

  /** When the wrap that is counted after a loss is all there was. */
  lemma LostCase(q: nat, d: nat, q': nat, d': nat)
    requires d < 256 && d' < 256 && 256 * q + d < 256 * q' + d'
    ensures var wrapped := if d != 0 && d' <= d then 1 else 0;
            var step := 256 * q' + d' - (256 * q + d);
            q' == q + wrapped <==> step <= 255 || (step == 256 && d != 0)
  {
  }

  // ---- Whole runs ----

  /** After the anchor: a tick packet sent at tick n, an overflow, or any other packet. */
  datatype Event = Tick(n: nat, cyc: nat) | Loss(cyc: nat) | Other(kind: Kind, val: nat, cyc: nat)

  function Happens(c: Clock, e: Event): Clock {
    match e
    case Tick(n, cyc) => Record(c, Mtc, (c.base + n) % 256, cyc)
    case Loss(cyc) => Record(c, Ovf, 0, cyc)
    case Other(kind, val, cyc) => Record(c, kind, val, cyc)
  }

  /** The next tick comes up to the next wrap, or after a loss at most 255 ticks later, or 256 off phase. */
  predicate InTime(n: nat, n': nat, lossy: bool) {
    if lossy then n' - n <= 255 || (n' - n == 256 && n % 256 != 0) else n' <= 256 * (n / 256) + 256
  }

  /** The steps the clock can count: at most up to the next wrap, or up to 255 (256 off phase) after a
      loss. A loss needs an earlier tick since the anchor. */
  predicate Countable(events: seq<Event>, n: nat, ticked: bool, lossy: bool)
    decreases |events|
  {
    events == [] ||
    match events[0]
    case Tick(n', _) =>
      && n < n'
      && InTime(n, n', lossy)
      && Countable(events[1..], n', true, false)
    case Loss(_) => ticked && Countable(events[1..], n, ticked, true)
    case Other(kind, _, _) =>
      !kind.Mtc? && !kind.Tma? && !kind.Tsc? && !kind.Ovf? && Countable(events[1..], n, ticked, lossy)
  }

  function AllHappen(c: Clock, events: seq<Event>): Clock
    decreases |events|
  {
    if events == [] then c else AllHappen(Happens(c, events[0]), events[1..])
  }

  function LastTick(events: seq<Event>, n: nat): nat
    decreases |events|
  {
    if events == [] then n else LastTick(events[1..], if events[0].Tick? then events[0].n else n)
  }

  /** The true number of ticks since the anchor is known throughout. */
  lemma {:induction false} TicksFrom(c: Clock, events: seq<Event>, n: nat, ticked: bool, lossy: bool)
    requires c.en && c.base < 256 && c.ticks == n && c.wraps == n / 256 && (ticked ==> Exact(c, n))
    requires lossy == (c.lost > 0) && (lossy ==> ticked)
    requires Countable(events, n, ticked, lossy)
    ensures AllHappen(c, events).ticks == LastTick(events, n)
    decreases |events|
  {
    if events != [] {
      match events[0] {
        case Tick(n', cyc) =>
          if lossy {
            LostTickCounts(c, n, n', cyc);
          } else {
            TickCounts(c, n, n', cyc);
          }
          TicksFrom(Happens(c, events[0]), events[1..], n', true, false);
        case Loss(_) =>
          TicksFrom(Happens(c, events[0]), events[1..], n, ticked, true);
        case Other(_, _, _) =>
          TicksFrom(Happens(c, events[0]), events[1..], n, ticked, lossy);
      }
    }
  }

  /** From a TMA anchor on, whatever the decoder's earlier state. */
  lemma TicksSinceAnchor(c: Clock, ctc: nat, cyc: nat, events: seq<Event>)
    requires Countable(events, 0, false, false)
    ensures AllHappen(AtTma(c, ctc, cyc), events).ticks == LastTick(events, 0)
  {
    TicksFrom(AtTma(c, ctc, cyc), events, 0, false, false);
  }

  /** Tick packets come in order, a loss not before the first one since the anchor; no new anchor. */
  predicate InOrder(events: seq<Event>, n: nat, ticked: bool)
    decreases |events|
  {
    events == [] ||
    match events[0]
    case Tick(n', _) => n < n' && InOrder(events[1..], n', true)
    case Loss(_) => ticked && InOrder(events[1..], n, ticked)
    case Other(kind, _, _) =>
      !kind.Mtc? && !kind.Tma? && !kind.Tsc? && !kind.Ovf? && InOrder(events[1..], n, ticked)
  }

  /** After the first k events the count is the true one. */
  predicate RightAfter(c: Clock, events: seq<Event>, n: nat, k: nat)
    requires k <= |events|
  {
    AllHappen(c, events[..k]).ticks == LastTick(events[..k], n)
  }

  predicate AlwaysRight(c: Clock, events: seq<Event>, n: nat) {
    forall k | 0 <= k <= |events| :: RightAfter(c, events, n, k)
  }

  lemma RightLater(c: Clock, events: seq<Event>, n: nat)
    requires events != [] && c.ticks == n
    ensures var n' := if events[0].Tick? then events[0].n else n;
            AlwaysRight(c, events, n) <==> AlwaysRight(Happens(c, events[0]), events[1..], n')
  {
    hide Happens;
    var n', c' := if events[0].Tick? then events[0].n else n, Happens(c, events[0]);
    forall k | 0 < k <= |events| ensures RightAfter(c, events, n, k) <==> RightAfter(c', events[1..], n', k - 1) {
      assert events[..k][1..] == events[1..][..k - 1] && events[..k][0] == events[0];
    }
    assert RightAfter(c, events, n, 0);
    if AlwaysRight(c, events, n) {
      forall k | 0 <= k <= |events[1..]| ensures RightAfter(c', events[1..], n', k) {
        assert RightAfter(c, events, n, k + 1);
      }
    }
  }

  /** The count stays right exactly as long as every step is countable. */
  lemma {:induction false} RightIff(c: Clock, events: seq<Event>, n: nat, ticked: bool, lossy: bool)
    requires c.en && c.base < 256 && c.ticks == n && c.wraps == n / 256 && (ticked ==> Exact(c, n))
    requires lossy == (c.lost > 0) && (lossy ==> ticked) && InOrder(events, n, ticked)
    ensures AlwaysRight(c, events, n) <==> Countable(events, n, ticked, lossy)
    decreases |events|
  {
    hide AlwaysRight, LostWrap;
    if events == [] {
      NothingWrong(c, n);
    } else {
      RightLater(c, events, n);
      match events[0] {
        case Tick(n', cyc) =>
          if lossy {
            LostTickCounts(c, n, n', cyc);
          } else {
            TickCounts(c, n, n', cyc);
          }
          if InTime(n, n', lossy) {
            RightIff(Happens(c, events[0]), events[1..], n', true, false);
          } else {
            RightNow(Happens(c, events[0]), events[1..], n');
          }
        case Loss(_) =>
          RightIff(Happens(c, events[0]), events[1..], n, ticked, true);
        case Other(_, _, _) =>
          RightIff(Happens(c, events[0]), events[1..], n, ticked, lossy);
      }
    }
  }

  lemma NothingWrong(c: Clock, n: nat)
    requires c.ticks == n
    ensures AlwaysRight(c, [], n)
  {
  }

  lemma RightNow(c: Clock, events: seq<Event>, n: nat)
    ensures AlwaysRight(c, events, n) ==> c.ticks == n
  {
    if AlwaysRight(c, events, n) {
      assert RightAfter(c, events, n, 0);
    }
  }

  /** From a TMA anchor on, whatever comes: the count is the true number of ticks after every packet if
      and only if every step is countable. */
  lemma TicksRightIff(c: Clock, ctc: nat, cyc: nat, events: seq<Event>)
    requires InOrder(events, 0, false)
    ensures AlwaysRight(AtTma(c, ctc, cyc), events, 0) <==> Countable(events, 0, false, false)
  {
    RightIff(AtTma(c, ctc, cyc), events, 0, false, false);
  }

  /** Between a time stamp and its anchor nothing is counted, whatever comes. */
  lemma {:induction false} NothingCounted(c: Clock, events: seq<Event>)
    requires !c.en && c.ticks == 0 && c.cycs == 0 && forall e | e in events && e.Other? :: !e.kind.Tma?
    ensures var r := AllHappen(c, events);
            !r.en && r.ticks == 0 && r.cycs == 0
    decreases |events|
  {
    if events != [] {
      assert events[0] in events && forall e | e in events[1..] :: e in events;
      NothingCounted(Happens(c, events[0]), events[1..]);
    }
  }

  lemma NotCountedYet(c: Clock, cyc: nat, events: seq<Event>)
    requires forall e | e in events && e.Other? :: !e.kind.Tma?
    ensures var r := AllHappen(AtTsc(c, cyc), events);
            !r.en && r.ticks == 0 && r.cycs == 0
  {
    NothingCounted(AtTsc(c, cyc), events);
  }

  // ---- Cycles ----

  /** Equal up to a multiple of the counter's range. */
  lemma Congruent(x: int, y: int, k: int)
    requires x == y + TWO64 * k
    ensures x % TWO64 == y % TWO64
  {
  }

  lemma MinusIs(a: nat, b: nat) returns (k: int)
    ensures Minus(a, b) == a - b + TWO64 * k
  {
    var t := a + (TWO64 - b % TWO64);
    k := 1 + b / TWO64 - t / TWO64;
  }

  lemma MinusTelescopes(a: nat, b: nat, c: nat)
    ensures (Minus(b, a) + Minus(c, b)) % TWO64 == Minus(c, a)
  {
    var j := MinusIs(b, a);
    var k := MinusIs(c, b);
    var l := MinusIs(c, a);
    Congruent(Minus(b, a) + Minus(c, b), Minus(c, a), j + k - l);
    assert Minus(c, a) < TWO64;
  }

  /** The cycle counter at the last tick, or the given one. */
  function TickCycles(events: seq<Event>, from: nat): nat
    decreases |events|
  {
    if events == [] then from
    else TickCycles(events[1..], if events[0].Tick? || (events[0].Other? && events[0].kind.Mtc?) then events[0].cyc
                                 else from)
  }

  /** No new anchor. */
  predicate KeepsAnchor(events: seq<Event>) {
    forall e | e in events && e.Other? :: !e.kind.Tma? && !e.kind.Tsc?
  }

  /** The cycle part is the difference of the cycle counters now and at the last tick. */
  lemma {:induction false} CyclesTelescope(c: Clock, events: seq<Event>, anchor: nat)
    requires c.en && c.cycs == Minus(c.cycRef, anchor) && KeepsAnchor(events)
    ensures var r := AllHappen(c, events);
            r.en && r.cycs == Minus(r.cycRef, TickCycles(events, anchor))
    decreases |events|
  {
    if events != [] {
      var e := events[0];
      assert e in events;
      if e.Tick? || (e.Other? && e.kind.Mtc?) {
        assert Minus(e.cyc, e.cyc) == 0;
        CyclesTelescope(Happens(c, e), events[1..], e.cyc);
      } else {
        MinusTelescopes(anchor, c.cycRef, e.cyc);
        CyclesTelescope(Happens(c, e), events[1..], anchor);
      }
    }
  }

  lemma {:induction false} LastHappens(c: Clock, events: seq<Event>)
    requires events != []
    ensures AllHappen(c, events) == Happens(AllHappen(c, events[..|events| - 1]), events[|events| - 1])
    decreases |events|
  {
    hide Happens;
    var front := events[..|events| - 1];
    if front == [] {
      assert AllHappen(c, events) == AllHappen(Happens(c, events[0]), events[1..]);
    } else {
      assert events[1..][..|events| - 2] == front[1..];
      LastHappens(Happens(c, events[0]), events[1..]);
    }
  }

  /** The cycle counter of the latest packet that carries one, read backwards, or the given one. */
  function LatestCycles(events: seq<Event>, from: nat): nat
    decreases |events|
  {
    if events == [] then from
    else
      match events[|events| - 1]
      case Tick(_, cyc) => cyc
      case Loss(cyc) => cyc
      case Other(kind, _, cyc) =>
        if kind in {Kind.Vmcs, Kind.Pip, Kind.ExStop, Kind.Ptw, Kind.ModeExec, Kind.TipPge, Kind.Tip, Kind.TipPgd,
                    Kind.ShortTnt, Kind.Cyc, Kind.Ovf, Kind.Mtc}
        then cyc
        else LatestCycles(events[..|events| - 1], from)
  }

  /** From an anchor on, the clock's reference is the counter of the latest packet that carries one. */
  lemma {:induction false} CyclesAreLatest(c: Clock, events: seq<Event>)
    requires c.en && KeepsAnchor(events)
    ensures var r := AllHappen(c, events);
            r.en && r.cycRef == LatestCycles(events, c.cycRef)
    decreases |events|
  {
    if events != [] {
      var front := events[..|events| - 1];
      var e := events[|events| - 1];
      assert e in events && forall e | e in front :: e in events;
      LastHappens(c, events);
      CyclesAreLatest(c, front);
    }
  }

  /** From a TMA anchor on, the cycle part is the difference between the counter of the latest packet
      that carries one and the counter at the last tick, or at the anchor. */
  lemma CyclesSinceTick(c: Clock, ctc: nat, cyc: nat, events: seq<Event>)
    requires KeepsAnchor(events)
    ensures AllHappen(AtTma(c, ctc, cyc), events).cycs == Minus(LatestCycles(events, cyc), TickCycles(events, cyc))
  {
    CyclesTelescope(AtTma(c, ctc, cyc), events, cyc);
    CyclesAreLatest(AtTma(c, ctc, cyc), events);
  }
}
