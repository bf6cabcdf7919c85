/** Reading the traced process's memory through a mirror: the search of the mirrored mappings by the
    tracer (`kmod_find_addr`, src/kmod.c), and the pages and mappings the kernel module makes
    (`do_kmaps`, kmod/main.c). */
module Kmaps {

  /** The mapping [lo, hi] of the traced process and where its mirror begins. Both ends count. */
  datatype Kmap = Kmap(lo: nat, hi: nat, mirror: nat)

  predicate Covers(m: Kmap, x: nat) {
    m.lo <= x <= m.hi
  }

  function Translate(m: Kmap, x: nat): nat
    requires Covers(m, x)
  {
    m.mirror + (x - m.lo)
  }

  /** In address order; neighbours may share an end. */
  ghost predicate Ordered(table: seq<Kmap>) {
    && (forall i | 0 <= i < |table| :: table[i].lo < table[i].hi)
    && (forall i, j | 0 <= i < j < |table| :: table[i].hi <= table[j].lo)
  }

  predicate HintOk(table: seq<Kmap>, hint: nat) {
    hint != 0 ==> hint < |table|
  }

  /** The binary search from bounds a and b: the answer and the probe it ends at. */
  function Narrow(table: seq<Kmap>, a: nat, b: int, hint: nat, x: nat): (r: (nat, nat))
    requires b < |table| && HintOk(table, hint)
    ensures HintOk(table, r.1)
    decreases b - a
  {
    if a > b then (0, hint)
    else
      var m := (a + b) / 2;
      if Covers(table[m], x) then (Translate(table[m], x), m)
      else if table[m].lo < x then Narrow(table, m + 1, b, m, x)
      else Narrow(table, a, m - 1, m, x)
  }

  /** One lookup among the first `count` slots, from the probe the last one ended at. */
  function SearchIn(slots: seq<Kmap>, count: nat, hint: nat, x: nat): (r: (nat, nat))
    requires count <= |slots| && HintOk(slots, hint)
    ensures HintOk(slots, r.1)
  {
    if x == 0 then (0, hint)
    else if hint == 0 then Narrow(slots, 0, count - 1, 0, x)
    else if Covers(slots[hint], x) then (Translate(slots[hint], x), hint)
    else if slots[hint].lo < x then Narrow(slots, hint + 1, count - 1, hint, x)
    else Narrow(slots, 0, hint - 1, hint, x)
  }

  /** One lookup in a table without stale slots. */
  function Search(table: seq<Kmap>, hint: nat, x: nat): (r: (nat, nat))
    requires HintOk(table, hint)
    ensures HintOk(table, r.1)
  {
    SearchIn(table, |table|, hint, x)
  }

  /** MAX_NO_KMAPS. */
  const MAX_KMAPS: nat := 512

  class Translator {
    const slots: array<Kmap>
    var count: nat
    /** The static probe index that survives from one lookup to the next. */
    var hint: nat

    ghost predicate Valid()
      reads this
    {
      slots.Length == MAX_KMAPS && count <= MAX_KMAPS && hint < MAX_KMAPS
    }

    /** The mappings in use. */
    ghost function Table(): seq<Kmap>
      requires Valid()
      reads this, slots
    {
      slots[..count]
    }

    constructor ()
      ensures Valid() && fresh(slots) && Table() == [] && hint == 0
    {
      slots := new Kmap[MAX_KMAPS](_ => Kmap(0, 0, 0));
      count, hint := 0, 0;
    }

    /** The kernel module hands over new mappings one by one: what lies beyond them stays, without any
        the count stays too, and so does the probe. */
    method Refresh(table: seq<Kmap>)
      requires Valid() && |table| <= MAX_KMAPS
      modifies this`count, slots
      ensures Valid() && (if table == [] then Table() == old(Table()) else Table() == table)
      ensures slots[|table|..] == old(slots[|table|..])
    {
      var k := 0;
      while k < |table|
        invariant k <= |table| && count <= MAX_KMAPS && (if k == 0 then count == old(count) else count == k)
        invariant slots[..k] == table[..k] && slots[k..] == old(slots[k..])
      {
        slots[k] := table[k];
        k := k + 1;
        count := k;
      }
    }

    /** `kmod_find_addr`. */
    method FindAddr(x: nat) returns (y: nat)
      requires Valid()
      modifies this`hint
      ensures Valid() && (y, hint) == SearchIn(slots[..], count, old(hint), x)
    {
      hide Narrow;
      ghost var view, was := slots[..], hint;
      if x == 0 {
        return 0;
      }
      var a, b := 0, count - 1;
      if hint != 0 {
        if Covers(slots[hint], x) {
          return Translate(slots[hint], x);
        } else if slots[hint].lo < x {
          a := hint + 1;
        } else {
          b := hint - 1;
        }
      }
      while a <= b
        invariant 0 <= a && b < MAX_KMAPS && Valid() && view == slots[..]
        invariant SearchIn(view, count, was, x) == Narrow(view, a, b, hint, x)
        decreases b - a
      {
        NarrowTurn(view, a, b, hint, x);
        hint := (a + b) / 2;
        if Covers(slots[hint], x) {
          return Translate(slots[hint], x);
        } else if slots[hint].lo < x {
          a := hint + 1;
        } else {
          b := hint - 1;
        }
      }
      NarrowEnds(view, a, b, hint, x);
      return 0;
    }
  }

  /** One turn of the search. */
  lemma NarrowTurn(table: seq<Kmap>, a: nat, b: int, hint: nat, x: nat)
    requires a <= b < |table| && HintOk(table, hint)
    ensures var m := (a + b) / 2;
            Narrow(table, a, b, hint, x) ==
            if Covers(table[m], x) then (Translate(table[m], x), m)
            else if table[m].lo < x then Narrow(table, m + 1, b, m, x)
            else Narrow(table, a, m - 1, m, x)
  {
  }

  lemma NarrowEnds(table: seq<Kmap>, a: nat, b: int, hint: nat, x: nat)
    requires b < |table| && HintOk(table, hint) && a > b
    ensures Narrow(table, a, b, hint, x) == (0, hint)
  {
  }

  // ---- Probes within the table, and stale ones ----

  lemma {:induction false} NarrowPrefix(slots: seq<Kmap>, count: nat, a: nat, b: int, hint: nat, x: nat)
    requires b < count <= |slots| && HintOk(slots[..count], hint)
    ensures Narrow(slots, a, b, hint, x) == Narrow(slots[..count], a, b, hint, x)
    decreases b - a
  {
    if a <= b {
      var m := (a + b) / 2;
      if slots[m].lo < x {
        NarrowPrefix(slots, count, m + 1, b, m, x);
      } else {
        NarrowPrefix(slots, count, a, m - 1, m, x);
      }
    }
  }

  /** With a probe inside the table the slots beyond it do not matter, now or later. */
  lemma ProbeInside(slots: seq<Kmap>, count: nat, hint: nat, x: nat)
    requires count <= |slots| && HintOk(slots[..count], hint)
    ensures SearchIn(slots, count, hint, x) == Search(slots[..count], hint, x)
  {
    if count == 0 {
    } else if hint == 0 || slots[hint].lo < x {
      NarrowPrefix(slots, count, if hint == 0 then 0 else hint + 1, count - 1, hint, x);
    } else {
      NarrowPrefix(slots, count, 0, hint - 1, hint, x);
    }
  }

  /** With a stale probe nothing above where its old mapping began is looked up: the answer is the old
      mapping's or zero, and the probe stays where it is. */
  lemma StaleProbe(slots: seq<Kmap>, count: nat, hint: nat, x: nat)
    requires count <= hint < |slots| && hint != 0 && slots[hint].lo < x
    ensures SearchIn(slots, count, hint, x) == (if Covers(slots[hint], x) then Translate(slots[hint], x) else 0, hint)
  {
  }

  // ---- What the search finds ----

  /** Mapping i is the only one to cover x. */
  ghost predicate Only(table: seq<Kmap>, i: nat, x: nat) {
    i < |table| && Covers(table[i], x) && forall j | 0 <= j < |table| && Covers(table[j], x) :: j == i
  }

  lemma {:induction false} NarrowFinds(table: seq<Kmap>, a: nat, b: int, hint: nat, x: nat, i: nat)
    requires Ordered(table) && b < |table| && HintOk(table, hint) && Only(table, i, x) && a <= i <= b
    ensures Narrow(table, a, b, hint, x).0 == Translate(table[i], x)
    decreases b - a
  {
    var m := (a + b) / 2;
    if !Covers(table[m], x) {
      if table[m].lo < x {
        NarrowFinds(table, m + 1, b, m, x, i);
      } else {
        NarrowFinds(table, a, m - 1, m, x, i);
      }
    }
  }

  lemma {:induction false} NarrowMisses(table: seq<Kmap>, a: nat, b: int, hint: nat, x: nat)
    requires b < |table| && HintOk(table, hint) && forall j | 0 <= j < |table| :: !Covers(table[j], x)
    ensures Narrow(table, a, b, hint, x).0 == 0
    decreases b - a
  {
    if a <= b {
      var m := (a + b) / 2;
      if table[m].lo < x {
        NarrowMisses(table, m + 1, b, m, x);
      } else {
        NarrowMisses(table, a, m - 1, m, x);
      }
    }
  }

  /** The search passes below a mapping it probes. */
  predicate Passes(m: Kmap, x: nat) {
    !Covers(m, x) && x <= m.lo
  }

  /** On its way to mapping i, the bisection of the slots from a to b passes below every stale slot it
      probes. */
  predicate ClearPath(slots: seq<Kmap>, count: nat, a: nat, b: int, i: nat, x: nat)
    requires a <= i <= b < |slots|
    decreases b - a
  {
    var m := (a + b) / 2;
    if m == i then true
    else if m < i then ClearPath(slots, count, m + 1, b, i, x)
    else (m >= count ==> Passes(slots[m], x)) && ClearPath(slots, count, a, m - 1, i, x)
  }

  lemma {:induction false} NarrowProbe(slots: seq<Kmap>, a: nat, b: int, hint: nat, x: nat)
    requires b < |slots| && HintOk(slots, hint)
    ensures var probe := Narrow(slots, a, b, hint, x).1; probe == hint || a <= probe <= b
    decreases b - a
  {
    if a <= b {
      var m := (a + b) / 2;
      if slots[m].lo < x {
        NarrowProbe(slots, m + 1, b, m, x);
      } else {
        NarrowProbe(slots, a, m - 1, m, x);
      }
    }
  }

  lemma {:induction false} NarrowPastStale(slots: seq<Kmap>, count: nat, a: nat, b: int, hint: nat, x: nat, i: nat)
    requires count <= |slots| && Ordered(slots[..count]) && Only(slots[..count], i, x)
    requires a <= i <= b < |slots| && HintOk(slots, hint)
    ensures Narrow(slots, a, b, hint, x) == (Translate(slots[i], x), i) <==> ClearPath(slots, count, a, b, i, x)
    decreases b - a
  {
    var m := (a + b) / 2;
    assert m < count ==> slots[..count][m] == slots[m];
    assert slots[..count][i] == slots[i];
    if m < i {
      NarrowPastStale(slots, count, m + 1, b, m, x, i);
    } else if m > i {
      if Covers(slots[m], x) {
        assert m >= count;
      } else if slots[m].lo < x {
        NarrowProbe(slots, m + 1, b, m, x);
      } else {
        NarrowPastStale(slots, count, a, m - 1, m, x, i);
      }
    }
  }

  /** From a stale probe a covered address is found in its own mapping exactly when the search passes below
      the stale mapping it begins with and below every other stale one it probes on the way. */
  lemma StaleProbeExactly(slots: seq<Kmap>, count: nat, hint: nat, x: nat, i: nat)
    requires count <= hint < |slots| && hint != 0 && Ordered(slots[..count]) && Only(slots[..count], i, x) && x != 0
    ensures SearchIn(slots, count, hint, x) == (Translate(slots[i], x), i)
            <==> Passes(slots[hint], x) && ClearPath(slots, count, 0, hint - 1, i, x)
  {
    assert slots[..count][i] == slots[i];
    if Passes(slots[hint], x) {
      NarrowPastStale(slots, count, 0, hint - 1, hint, x, i);
    } else if !Covers(slots[hint], x) {
      StaleProbe(slots, count, hint, x);
    }
  }

  lemma {:induction false} AllAboveIsClear(slots: seq<Kmap>, count: nat, a: nat, b: int, i: nat, x: nat)
    requires a <= i <= b < |slots| && forall s | count <= s <= b :: x < slots[s].lo
    ensures ClearPath(slots, count, a, b, i, x)
    decreases b - a
  {
    var m := (a + b) / 2;
    if m < i {
      AllAboveIsClear(slots, count, m + 1, b, i, x);
    } else if m > i {
      AllAboveIsClear(slots, count, a, m - 1, i, x);
    }
  }

  /** So it is found if the stale mappings up to the probe all begin above it. */
  lemma StaleProbeFinds(slots: seq<Kmap>, count: nat, hint: nat, x: nat, i: nat)
    requires count <= hint < |slots| && hint != 0 && Ordered(slots[..count]) && Only(slots[..count], i, x) && x != 0
    requires forall s | count <= s <= hint :: x < slots[s].lo
    ensures SearchIn(slots, count, hint, x) == (Translate(slots[i], x), i)
  {
    StaleProbeExactly(slots, count, hint, x, i);
    AllAboveIsClear(slots, count, 0, hint - 1, i, x);
  }

  /** Whatever was looked up before, an address that one mapping covers is translated by it. */
  lemma SearchFinds(table: seq<Kmap>, hint: nat, x: nat, i: nat)
    requires Ordered(table) && HintOk(table, hint) && x != 0 && Only(table, i, x)
    ensures Search(table, hint, x).0 == Translate(table[i], x)
  {
    if hint == 0 {
      NarrowFinds(table, 0, |table| - 1, 0, x, i);
    } else if !Covers(table[hint], x) {
      if table[hint].lo < x {
        NarrowFinds(table, hint + 1, |table| - 1, hint, x, i);
      } else {
        NarrowFinds(table, 0, hint - 1, hint, x, i);
      }
    }
  }

  /** An address that no mapping covers is answered with zero. */
  lemma SearchMisses(table: seq<Kmap>, hint: nat, x: nat)
    requires HintOk(table, hint) && forall j | 0 <= j < |table| :: !Covers(table[j], x)
    ensures Search(table, hint, x).0 == 0
  {
    if hint == 0 {
      NarrowMisses(table, 0, |table| - 1, 0, x);
    } else if table[hint].lo < x {
      NarrowMisses(table, hint + 1, |table| - 1, hint, x);
    } else {
      NarrowMisses(table, 0, hint - 1, hint, x);
    }
  }

  /** Two mappings cover an address only where the first ends and the second begins. */
  lemma CoveredTwice(table: seq<Kmap>, i: nat, j: nat, x: nat)
    requires Ordered(table) && i < j < |table| && Covers(table[i], x) && Covers(table[j], x)
    ensures j == i + 1 && SharedAt(table, i, x)
  {
    assert table[i + 1].lo < table[i + 1].hi;
  }

  predicate SharedAt(table: seq<Kmap>, i: nat, x: nat) {
    i + 1 < |table| && x == table[i].hi == table[i + 1].lo
  }

  lemma SharedCovers(table: seq<Kmap>, i: nat, x: nat)
    requires Ordered(table) && SharedAt(table, i, x)
    ensures Covers(table[i], x) && Covers(table[i + 1], x) && x != 0
    ensures forall m | 0 <= m < |table| :: (m < i ==> table[m].hi < x) && (m > i + 1 ==> table[m].lo > x)
  {
  }

  lemma {:induction false} NarrowShared(table: seq<Kmap>, a: nat, b: int, hint: nat, x: nat, i: nat)
    requires Ordered(table) && SharedAt(table, i, x) && a <= i && i + 1 <= b < |table| && HintOk(table, hint)
    requires Covers(table[i], x) && Covers(table[i + 1], x)
    ensures Narrow(table, a, b, hint, x).0 in {Translate(table[i], x), Translate(table[i + 1], x)}
    decreases b - a
  {
    SharedCovers(table, i, x);
    hide Ordered;
    var m := (a + b) / 2;
    if m < i {
      NarrowShared(table, m + 1, b, m, x, i);
    } else if m > i + 1 {
      NarrowShared(table, a, m - 1, m, x, i);
    }
  }

  /** At a shared end the answer is that of the one mapping or of the other. */
  lemma SharedAnswers(table: seq<Kmap>, i: nat, x: nat, hint: nat)
    requires Ordered(table) && SharedAt(table, i, x) && HintOk(table, hint)
    ensures Covers(table[i], x) && Covers(table[i + 1], x)
    ensures Search(table, hint, x).0 in {Translate(table[i], x), Translate(table[i + 1], x)}
  {
    SharedCovers(table, i, x);
    hide Ordered;
    if hint == 0 {
      NarrowShared(table, 0, |table| - 1, 0, x, i);
    } else if hint < i {
      NarrowShared(table, hint + 1, |table| - 1, hint, x, i);
    } else if hint > i + 1 {
      NarrowShared(table, 0, hint - 1, hint, x, i);
    }
  }

  /** Either answer is given, after a suitable lookup. */
  function FirstProbe(table: seq<Kmap>, i: nat): nat {
    if i > 0 then i else if |table| == 2 then 0 else 2
  }

  lemma BothAnswers(table: seq<Kmap>, i: nat, x: nat)
    requires Ordered(table) && SharedAt(table, i, x)
    ensures Covers(table[i], x) && Covers(table[i + 1], x) && HintOk(table, FirstProbe(table, i))
    ensures Search(table, FirstProbe(table, i), x).0 == Translate(table[i], x)
    ensures Search(table, i + 1, x).0 == Translate(table[i + 1], x)
  {
    SharedCovers(table, i, x);
    hide Ordered;
    if i == 0 {
      assert Narrow(table, 0, 1, FirstProbe(table, i), x).0 == Translate(table[0], x);
    }
  }

  /** The answer at a shared end is the same whatever was looked up before exactly when the two mirrors
      adjoin. */
  lemma SharedEnd(table: seq<Kmap>, i: nat, x: nat)
    requires Ordered(table) && SharedAt(table, i, x)
    ensures (forall g, h | HintOk(table, g) && HintOk(table, h) :: Search(table, g, x).0 == Search(table, h, x).0)
            <==> Adjoin(table, i)
  {
    hide Ordered, Search;
    BothAnswers(table, i, x);
    forall hint | HintOk(table, hint)
      ensures Search(table, hint, x).0 in {Translate(table[i], x), Translate(table[i + 1], x)}
    {
      SharedAnswers(table, i, x, hint);
    }
  }

  /** No answer depends on what was looked up before. */
  ghost predicate HistoryFree(table: seq<Kmap>) {
    forall g, h, x | HintOk(table, g) && HintOk(table, h) :: Search(table, g, x).0 == Search(table, h, x).0
  }

  predicate Adjoin(table: seq<Kmap>, i: nat)
    requires i + 1 < |table|
  {
    table[i + 1].mirror == table[i].mirror + (table[i].hi - table[i].lo)
  }

  predicate Meet(table: seq<Kmap>, i: nat) {
    i + 1 < |table| && table[i].hi == table[i + 1].lo
  }

  ghost predicate MirrorsAdjoin(table: seq<Kmap>) {
    forall i: nat | Meet(table, i) :: Adjoin(table, i)
  }

  /** In a table without stale slots the answers are those of one fixed translation exactly when the
      mirrors of mappings that meet adjoin. */
  lemma HistoryFreeIff(table: seq<Kmap>)
    requires Ordered(table)
    ensures HistoryFree(table) <==> MirrorsAdjoin(table)
  {
    hide Search, Ordered;
    if HistoryFree(table) {
      forall i: nat | Meet(table, i) ensures Adjoin(table, i) {
        SharedEnd(table, i, table[i].hi);
      }
    }
    if MirrorsAdjoin(table) {
      forall g, h, x | HintOk(table, g) && HintOk(table, h) ensures Search(table, g, x).0 == Search(table, h, x).0 {
        SameAnswer(table, g, h, x);
      }
    }
  }

  lemma SameAnswer(table: seq<Kmap>, g: nat, h: nat, x: nat)
    requires Ordered(table) && HintOk(table, g) && HintOk(table, h)
    requires MirrorsAdjoin(table)
    ensures Search(table, g, x).0 == Search(table, h, x).0
  {
    hide Narrow, Ordered;
    if x != 0 {
      if i :| 0 <= i < |table| && Covers(table[i], x) {
        if j :| 0 <= j < |table| && j != i && Covers(table[j], x) {
          CoveredTwice(table, if i < j then i else j, if i < j then j else i, x);
          SharedEnd(table, if i < j then i else j, x);
        } else {
          SearchFinds(table, g, x, i);
          SearchFinds(table, h, x, i);
        }
      } else {
        SearchMisses(table, g, x);
        SearchMisses(table, h, x);
      }
    }
  }

  // ---- The pages and mappings of the kernel module ----

  const PAGE: nat := 4096
  /** One less than the length of the page table (MAX_NO_PAGES - 1). */
  const MAX_PAGES: nat := 499_999

  datatype Vma = Vma(start: nat, end: nat, read: bool, write: bool, exec: bool, shared: bool, mergeable: bool,
                     pgoff: nat, file: bool)

  /** The heap bounds, the stack pointer and the mappings of the traced process. */
  datatype Process = Process(startBrk: nat, brk: nat, sp: nat, vmas: seq<Vma>)

  /** A pinned page: its address, and the mapping it belongs to. */
  datatype Page = Page(addr: nat, start: nat, end: nat)

  /** Private writable data outside the heap: the stack, and what lies high in the address space. */
  predicate Selected(p: Process, v: Vma) {
    var heap := !(p.startBrk <= p.sp <= p.brk) && v.start <= p.startBrk && p.brk <= v.end;
    && !heap
    && (v.start / 0x1000_0000_0000 % 8 != 0 || v.start <= p.sp < v.end)
    && v.read && v.write && !v.exec && !v.shared && !v.mergeable && (v.pgoff == 0 || !v.file)
  }

  /** A mapping is mirrored exactly if it is private data, readable and writable and not executable, from
      the upper seven eighths of the 47-bit address space or holding the stack pointer; the mapping around
      the whole heap is left out unless the stack lies on the heap. */
  lemma SelectedMeans(p: Process, v: Vma)
    ensures Selected(p, v) <==>
            && v.read && v.write && !v.exec && !v.shared && !v.mergeable && (v.file ==> v.pgoff == 0)
            && (v.start % 0x8000_0000_0000 >= 0x1000_0000_0000 || v.start <= p.sp < v.end)
            && (v.start <= p.startBrk && p.brk <= v.end ==> p.startBrk <= p.sp <= p.brk)
  {
    var q := v.start / 0x1000_0000_0000;
    assert v.start % 0x8000_0000_0000 == v.start % 0x1000_0000_0000 + 0x1000_0000_0000 * (q % 8);
  }

  /** The pages of a mapping from x on that can be faulted in and pinned. */
  function PagesFrom(v: Vma, x: nat, pinned: set<nat>): seq<Page>
    decreases v.end - x
  {
    if x >= v.end then []
    else (if x in pinned then [Page(x, v.start, v.end)] else []) + PagesFrom(v, x + PAGE, pinned)
  }

  function PagesOf(p: Process, v: Vma, pinned: set<nat>): seq<Page> {
    if Selected(p, v) then PagesFrom(v, v.start, pinned) else []
  }

  function AllPages(p: Process, vmas: seq<Vma>, pinned: set<nat>): seq<Page> {
    if vmas == [] then [] else PagesOf(p, vmas[0], pinned) + AllPages(p, vmas[1..], pinned)
  }

  function Take<T>(s: seq<T>, n: nat): seq<T> {
    if |s| <= n then s else s[..n]
  }

  /** The mappings made for the pages from i on: one for the first page of each mapping, if it could be
      remapped. */
  function KmapsFrom(pages: seq<Page>, remapped: set<nat>, base: nat, i: nat): seq<Kmap>
    decreases |pages| - i
  {
    if i >= |pages| then []
    else
      (if i in remapped && pages[i].addr == pages[i].start then [Kmap(pages[i].start, pages[i].end, base + PAGE * i)]
        else [])
      + KmapsFrom(pages, remapped, base, i + 1)
  }

  /** The kernel module's page table and its count. */
  class Mirror {
    const pages: array<Page>
    var count: nat

    ghost predicate Valid()
      reads this, pages
    {
      pages.Length == MAX_PAGES + 1 && count <= MAX_PAGES
    }

    ghost function Contents(): seq<Page>
      requires Valid()
      reads this, pages
    {
      pages[..count]
    }

    constructor ()
      ensures Valid() && Contents() == [] && fresh(pages)
    {
      pages := new Page[MAX_PAGES + 1](_ => Page(0, 0, 0));
      count := 0;
    }

    /** Pin the pages of one mapping, as far as there is room. */
    method PinPages(v: Vma, pinned: set<nat>)
      requires Valid()
      modifies this`count, pages
      ensures Valid() && Contents() == Take(old(Contents()) + PagesFrom(v, v.start, pinned), MAX_PAGES)
    {
      var x := v.start;
      ghost var goal := Contents() + PagesFrom(v, x, pinned);
      while x < v.end
        invariant Valid() && Contents() + PagesFrom(v, x, pinned) == goal
        decreases v.end - x
      {
        if x in pinned {
          if count >= MAX_PAGES {
            return;
          }
          pages[count] := Page(x, v.start, v.end);
          count := count + 1;
          assert Contents() == pages[..count - 1] + [Page(x, v.start, v.end)];
        }
        x := x + PAGE;
      }
    }

    /** The first half of `do_kmaps`. */
    method CollectPages(p: Process, pinned: set<nat>)
      requires Valid()
      modifies this`count, pages
      ensures Valid() && Contents() == Take(AllPages(p, p.vmas, pinned), 499_999)
    {
      hide PagesFrom, Selected, Take;
      count := 0;
      ghost var all := AllPages(p, p.vmas, pinned);
      assert p.vmas[0..] == p.vmas && Contents() + all == all;
      var k := 0;
      while k < |p.vmas|
        invariant k <= |p.vmas| && Valid()
        invariant Take(Contents() + AllPages(p, p.vmas[k..], pinned), MAX_PAGES) == Take(all, MAX_PAGES)
      {
        ghost var was, rest := Contents(), AllPages(p, p.vmas[k + 1..], pinned);
        assert p.vmas[k..][1..] == p.vmas[k + 1..];
        PinMapping(p, p.vmas[k], pinned);
        TakeTake(was, PagesOf(p, p.vmas[k], pinned), rest, MAX_PAGES);
        if count >= MAX_PAGES {
          TakeFull(Contents(), rest, MAX_PAGES);
          return;
        }
        k := k + 1;
      }
      TakeFull(Contents(), [], MAX_PAGES);
      assert Contents() + [] == Contents();
    }

    method PinMapping(p: Process, v: Vma, pinned: set<nat>)
      requires Valid()
      modifies this`count, pages
      ensures Valid() && Contents() == Take(old(Contents()) + PagesOf(p, v, pinned), MAX_PAGES)
    {
      if Selected(p, v) {
        PinPages(v, pinned);
      } else {
        assert Contents() + [] == Contents();
      }
    }

    /** The second half: mirror the pages one after another from `base`. */
    method MakeKmaps(base: nat, remapped: set<nat>) returns (table: seq<Kmap>)
      requires Valid()
      ensures table == KmapsFrom(Contents(), remapped, base, 0)
    {
      table := [];
      var i := 0;
      while i < count
        invariant i <= count
        invariant table + KmapsFrom(Contents(), remapped, base, i) == KmapsFrom(Contents(), remapped, base, 0)
      {
        if i in remapped && pages[i].addr == pages[i].start {
          table := table + [Kmap(pages[i].start, pages[i].end, base + PAGE * i)];
        }
        i := i + 1;
      }
    }
  }

  lemma TakeTake<T>(a: seq<T>, b: seq<T>, c: seq<T>, n: nat)
    ensures Take(Take(a + b, n) + c, n) == Take(a + (b + c), n)
  {
    assert a + (b + c) == a + b + c;
  }

  lemma TakeFull<T>(a: seq<T>, b: seq<T>, n: nat)
    requires |a| == n || (|a| < n && b == [])
    ensures Take(a + b, n) == a
  {
  }
}
