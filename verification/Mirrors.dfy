/** Page collection, mirroring and lookup together: where the tracer's translation of an address really
    shows that address. */
module Mirrors {
  import opened Options
  import opened Kmaps

  /** A whole page of its mapping. */
  predicate Whole(q: Page) {
    q.start <= q.addr && q.addr + PAGE <= q.end && (q.addr - q.start) % PAGE == 0
  }

  /** One page before another, in the same mapping or in one that ends before. */
  predicate Before(p: Page, q: Page) {
    p.addr + PAGE <= q.addr && ((p.start == q.start && p.end == q.end) || p.end <= q.start)
  }

  ghost predicate PagesOk(pages: seq<Page>) {
    && (forall k | 0 <= k < |pages| :: Whole(pages[k]))
    && (forall i, j | 0 <= i < j < |pages| :: Before(pages[i], pages[j]))
  }

  ghost predicate VmasOk(vmas: seq<Vma>) {
    && (forall i | 0 <= i < |vmas| ::
          vmas[i].start < vmas[i].end && vmas[i].start % PAGE == 0 && vmas[i].end % PAGE == 0)
    && (forall i, j | 0 <= i < j < |vmas| :: vmas[i].end <= vmas[j].start)
  }

  lemma RoomForPage(start: nat, x: nat, end: nat)
    requires start <= x < end && (x - start) % PAGE == 0 && (end - start) % PAGE == 0
    ensures x + PAGE <= end && (x + PAGE - start) % PAGE == 0
  {
  }

  lemma {:induction false} PagesFromOk(v: Vma, x: nat, pinned: set<nat>)
    requires v.start <= x && (x - v.start) % PAGE == 0 && v.start <= v.end && (v.end - v.start) % PAGE == 0
    ensures PagesOk(PagesFrom(v, x, pinned))
    ensures forall q | q in PagesFrom(v, x, pinned) :: q.start == v.start && q.end == v.end && q.addr >= x
    decreases v.end - x
  {
    hide PagesOk;
    if x < v.end {
      RoomForPage(v.start, x, v.end);
      PagesFromOk(v, x + PAGE, pinned);
      var first := if x in pinned then [Page(x, v.start, v.end)] else [];
      FewPagesOk(first);
      PagesConcat(first, PagesFrom(v, x + PAGE, pinned));
    } else {
      FewPagesOk([]);
    }
  }

  lemma FewPagesOk(pages: seq<Page>)
    requires |pages| <= 1 && forall q | q in pages :: Whole(q)
    ensures PagesOk(pages)
  {
  }

  lemma PagesConcat(a: seq<Page>, b: seq<Page>)
    requires PagesOk(a) && PagesOk(b)
    requires forall p, q | p in a && q in b :: Before(p, q)
    ensures PagesOk(a + b)
  {
    hide Before, Whole;
    var all := a + b;
    forall i, j | 0 <= i < j < |all| ensures Before(all[i], all[j]) {
      if i < |a| <= j {
        assert all[i] in a && all[j] in b;
      }
    }
  }

  lemma PageIsWhole(pages: seq<Page>, q: Page)
    requires PagesOk(pages) && q in pages
    ensures Whole(q)
  {
  }

  lemma {:induction false} AllPagesOk(p: Process, vmas: seq<Vma>, pinned: set<nat>)
    requires VmasOk(vmas)
    ensures PagesOk(AllPages(p, vmas, pinned))
    ensures forall q | q in AllPages(p, vmas, pinned) :: exists v | v in vmas :: q.start == v.start && q.end == v.end
  {
    hide Selected, PagesOk;
    FewPagesOk([]);
    if vmas != [] {
      var v := vmas[0];
      PagesFromOk(v, v.start, pinned);
      AllPagesOk(p, vmas[1..], pinned);
      var first, rest := PagesOf(p, v, pinned), AllPages(p, vmas[1..], pinned);
      forall a, b | a in first && b in rest ensures Before(a, b) {
        PageIsWhole(first, a);
        PageIsWhole(rest, b);
        var w :| w in vmas[1..] && b.start == w.start && b.end == w.end;
        LaterVma(vmas, w);
      }
      PagesConcat(first, rest);
      forall q: Page | q in first + rest ensures exists v | v in vmas :: q.start == v.start && q.end == v.end {
        if q in first {
          assert v in vmas;
        } else {
          var w :| w in vmas[1..] && q.start == w.start && q.end == w.end;
          assert w in vmas;
        }
      }
    }
  }

  // ---- The mappings ----

  /** Page k is the first of its mapping, and its mirror exists. */
  predicate Head(pages: seq<Page>, remapped: set<nat>, k: nat) {
    k < |pages| && k in remapped && pages[k].addr == pages[k].start
  }

  function KmapOf(pages: seq<Page>, base: nat, k: nat): Kmap
    requires k < |pages|
  {
    Kmap(pages[k].start, pages[k].end, base + PAGE * k)
  }

  lemma {:induction false} KmapsAreHeads(pages: seq<Page>, remapped: set<nat>, base: nat, i: nat)
    ensures forall m | m in KmapsFrom(pages, remapped, base, i) ::
              exists k: nat :: i <= k && Head(pages, remapped, k) && m == KmapOf(pages, base, k)
    ensures forall k: nat | i <= k && Head(pages, remapped, k) ::
            KmapOf(pages, base, k) in KmapsFrom(pages, remapped, base, i)
    decreases |pages| - i
  {
    if i < |pages| {
      KmapsAreHeads(pages, remapped, base, i + 1);
      var rest := KmapsFrom(pages, remapped, base, i + 1);
      forall m | m in KmapsFrom(pages, remapped, base, i)
        ensures exists k: nat :: i <= k && Head(pages, remapped, k) && m == KmapOf(pages, base, k)
      {
        if m in rest {
          var k: nat :| i + 1 <= k && Head(pages, remapped, k) && m == KmapOf(pages, base, k);
        } else {
          assert Head(pages, remapped, i) && m == KmapOf(pages, base, i);
        }
      }
    }
  }

  lemma HeadsApart(pages: seq<Page>, remapped: set<nat>, i: nat, j: nat)
    requires PagesOk(pages) && Head(pages, remapped, i) && Head(pages, remapped, j) && i < j
    ensures pages[i].end <= pages[j].start
  {
  }

  lemma {:induction false} KmapsOrdered(pages: seq<Page>, remapped: set<nat>, base: nat, i: nat)
    requires PagesOk(pages)
    ensures Ordered(KmapsFrom(pages, remapped, base, i))
    decreases |pages| - i
  {
    hide PagesOk;
    if i < |pages| {
      KmapsOrdered(pages, remapped, base, i + 1);
      KmapsAreHeads(pages, remapped, base, i + 1);
      var rest := KmapsFrom(pages, remapped, base, i + 1);
      if Head(pages, remapped, i) {
        PageInside(pages, i);
        forall j | 0 <= j < |rest| ensures pages[i].end <= rest[j].lo {
          assert rest[j] in rest;
          var k: nat :| i + 1 <= k && Head(pages, remapped, k) && rest[j] == KmapOf(pages, base, k);
          HeadsApart(pages, remapped, i, k);
        }
      }
    }
  }

  lemma PageInside(pages: seq<Page>, k: nat)
    requires PagesOk(pages) && k < |pages|
    ensures pages[k].start <= pages[k].addr < pages[k].end
  {
  }

  // ---- Mirrored addresses ----

  /** The address of the traced process whose memory is seen at y. */
  function Behind(pages: seq<Page>, remapped: set<nat>, base: nat, y: nat): Option<nat> {
    if y < base || (y - base) / PAGE >= |pages| || (y - base) / PAGE !in remapped then None
    else Some(pages[(y - base) / PAGE].addr + (y - base) % PAGE)
  }

  predicate Present(pages: seq<Page>, a: nat) {
    exists k | 0 <= k < |pages| :: pages[k].addr == a
  }

  /** Page number 0 to n after an address are all there. */
  predicate UpTo(pages: seq<Page>, a: nat, n: nat) {
    forall t: nat | t <= n :: Present(pages, a + PAGE * t)
  }

  lemma {:induction false} AtLeast(pages: seq<Page>, i: nat, j: nat)
    requires PagesOk(pages) && i + j < |pages|
    ensures pages[i].addr + PAGE * j <= pages[i + j].addr
    decreases j
  {
    if j > 0 {
      AtLeast(pages, i, j - 1);
      assert Before(pages[i + (j - 1)], pages[i + j]);
    }
  }

  lemma Increasing(pages: seq<Page>)
    requires PagesOk(pages)
    ensures forall i, j | 0 <= i < j < |pages| :: pages[i].addr + PAGE <= pages[j].addr
  {
    forall i, j | 0 <= i < j < |pages| ensures pages[i].addr + PAGE <= pages[j].addr {
      assert Before(pages[i], pages[j]);
    }
  }

  /** The j-th page after page i is the j-th page in memory exactly when none before it is missing. */
  lemma {:induction false} Contiguous(pages: seq<Page>, i: nat, j: nat)
    requires PagesOk(pages) && i < |pages|
    ensures (i + j < |pages| && pages[i + j].addr == pages[i].addr + PAGE * j)
            <==> UpTo(pages, pages[i].addr, j)
    decreases j
  {
    hide PagesOk;
    if i + j < |pages| && pages[i + j].addr == pages[i].addr + PAGE * j {
      forall t: nat | t <= j ensures Present(pages, pages[i].addr + PAGE * t) {
        AtLeast(pages, i, t);
        AtLeast(pages, i + t, j - t);
        assert pages[i + t].addr == pages[i].addr + PAGE * t;
      }
    }
    if UpTo(pages, pages[i].addr, j) {
      if j > 0 {
        Contiguous(pages, i, j - 1);
        assert Present(pages, pages[i].addr + PAGE * j);
        assert pages[i + (j - 1)].addr + PAGE == pages[i].addr + PAGE * j;
        NextPage(pages, i + (j - 1));
      }
    }
  }

  lemma NextPage(pages: seq<Page>, i: nat)
    requires PagesOk(pages) && i < |pages| && Present(pages, pages[i].addr + PAGE)
    ensures i + 1 < |pages| && pages[i + 1].addr == pages[i].addr + PAGE
  {
    var k :| 0 <= k < |pages| && pages[k].addr == pages[i].addr + PAGE;
    Increasing(pages);
  }

  /** The addresses where a mapping ends and the next begins have two translations. */
  predicate SharedWithPrevious(pages: seq<Page>, remapped: set<nat>, x: nat) {
    exists k | 0 <= k < |pages| && Head(pages, remapped, k) :: pages[k].end == x
  }

  lemma OnlyHead(pages: seq<Page>, remapped: set<nat>, base: nat, i: nat, x: nat) returns (t: nat)
    requires PagesOk(pages) && Head(pages, remapped, i) && pages[i].start <= x < pages[i].end
    requires !SharedWithPrevious(pages, remapped, x)
    ensures Only(KmapsFrom(pages, remapped, base, 0), t, x)
    ensures KmapsFrom(pages, remapped, base, 0)[t] == KmapOf(pages, base, i)
  {
    var table := KmapsFrom(pages, remapped, base, 0);
    KmapsAreHeads(pages, remapped, base, 0);
    KmapsOrdered(pages, remapped, base, 0);
    assert KmapOf(pages, base, i) in table;
    t :| 0 <= t < |table| && table[t] == KmapOf(pages, base, i);
    forall j | 0 <= j < |table| && Covers(table[j], x) ensures j == t {
      assert table[j] in table;
      var k: nat :| Head(pages, remapped, k) && table[j] == KmapOf(pages, base, k);
      if k < i {
        HeadsApart(pages, remapped, k, i);
      } else if i < k {
        HeadsApart(pages, remapped, i, k);
      }
    }
  }

  lemma Shifted(a: nat, i: nat, d: nat)
    ensures (PAGE * i + d) / PAGE == i + d / PAGE && (PAGE * i + d) % PAGE == d % PAGE
    ensures d == PAGE * (d / PAGE) + d % PAGE
  {
  }

  /** What is seen d bytes after the mirror of page i. */
  lemma BehindAfter(pages: seq<Page>, remapped: set<nat>, base: nat, i: nat, d: nat)
    requires PagesOk(pages) && i < |pages|
    ensures Behind(pages, remapped, base, base + PAGE * i + d) == Some(pages[i].addr + d)
            <==> i + d / PAGE in remapped && UpTo(pages, pages[i].addr, d / PAGE)
  {
    hide PagesOk, Present;
    Shifted(base, i, d);
    Contiguous(pages, i, d / PAGE);
  }

  /** The answer for an address of a mirrored mapping, whatever was looked up before; and it really
      shows that address exactly when its page and no page of the mapping before it is missing. */
  lemma MirrorShows(pages: seq<Page>, remapped: set<nat>, base: nat, i: nat, x: nat, hint: nat)
    requires PagesOk(pages) && Head(pages, remapped, i) && pages[i].start <= x < pages[i].end && x != 0
    requires !SharedWithPrevious(pages, remapped, x) && HintOk(KmapsFrom(pages, remapped, base, 0), hint)
    ensures var y := Search(KmapsFrom(pages, remapped, base, 0), hint, x).0;
            var n := (x - pages[i].start) / PAGE;
            && y == base + PAGE * i + (x - pages[i].start)
            && (Behind(pages, remapped, base, y) == Some(x)
                <==> i + n in remapped && UpTo(pages, pages[i].start, n))
  {
    hide PagesOk, Search, SharedWithPrevious, Ordered, Only, KmapsFrom, UpTo, Behind;
    KmapsOrdered(pages, remapped, base, 0);
    var t := OnlyHead(pages, remapped, base, i, x);
    SearchFinds(KmapsFrom(pages, remapped, base, 0), hint, x, t);
    BehindAfter(pages, remapped, base, i, x - pages[i].start);
  }

  // ---- Where one mapping ends and the next begins ----

  lemma SharedHeads(pages: seq<Page>, remapped: set<nat>, base: nat, i: nat, k: nat) returns (t: nat)
    requires PagesOk(pages) && Head(pages, remapped, i) && Head(pages, remapped, k) && pages[i].end == pages[k].start
    ensures var table := KmapsFrom(pages, remapped, base, 0);
            && Ordered(table) && SharedAt(table, t, pages[k].start)
            && table[t] == KmapOf(pages, base, i) && table[t + 1] == KmapOf(pages, base, k)
  {
    hide PagesOk;
    var table := KmapsFrom(pages, remapped, base, 0);
    KmapsAreHeads(pages, remapped, base, 0);
    KmapsOrdered(pages, remapped, base, 0);
    PageInside(pages, i);
    PageInside(pages, k);
    assert KmapOf(pages, base, i) in table && KmapOf(pages, base, k) in table;
    t :| 0 <= t < |table| && table[t] == KmapOf(pages, base, i);
    var u :| 0 <= u < |table| && table[u] == KmapOf(pages, base, k);
    hide KmapsFrom;
    CoveredTwice(table, t, u, pages[k].start);
  }

  /** Where two mirrored mappings meet, the answer shows the address whatever was looked up before exactly
      when no page of the first is missing; else looking up the first one makes the next answer wrong. */
  lemma SharedShows(pages: seq<Page>, remapped: set<nat>, base: nat, i: nat, k: nat)
    requires PagesOk(pages) && Head(pages, remapped, i) && Head(pages, remapped, k) && pages[i].end == pages[k].start
    requires (pages[i].end - pages[i].start) % PAGE == 0
    ensures var table, x := KmapsFrom(pages, remapped, base, 0), pages[k].start;
            AlwaysShows(pages, remapped, base, table, x)
            <==> UpTo(pages, pages[i].start, (x - pages[i].start) / PAGE)
  {
    var u := SharedHeads(pages, remapped, base, i, k);
    OwnPage(pages, remapped, k, base);
    FirstShows(pages, remapped, base, i, k);
    hide PagesOk, Search, Ordered, KmapsFrom, Behind, UpTo, Head, AlwaysShows, Present, Covers, SharedAt;
    EitherAnswer(pages, remapped, base, KmapsFrom(pages, remapped, base, 0), u, pages[k].start);
  }

  lemma FirstShows(pages: seq<Page>, remapped: set<nat>, base: nat, i: nat, k: nat)
    requires PagesOk(pages) && Head(pages, remapped, i) && Head(pages, remapped, k) && pages[i].end == pages[k].start
    requires (pages[i].end - pages[i].start) % PAGE == 0
    ensures pages[i].start < pages[k].start
    ensures var x := pages[k].start;
            Behind(pages, remapped, base, base + PAGE * i + (x - pages[i].start)) == Some(x)
            <==> UpTo(pages, pages[i].start, (x - pages[i].start) / PAGE)
  {
    PageInside(pages, i);
    var d := pages[k].start - pages[i].start;
    MeetsHead(pages, remapped, i, k, d / PAGE);
    hide PagesOk, Behind, Present;
    BehindAfter(pages, remapped, base, i, d);
  }

  lemma OwnPage(pages: seq<Page>, remapped: set<nat>, k: nat, base: nat)
    requires Head(pages, remapped, k)
    ensures Behind(pages, remapped, base, base + PAGE * k) == Some(pages[k].start) && Present(pages, pages[k].start)
  {
    Shifted(base, k, 0);
  }

  /** If the second answer at a shared end shows the address, all do exactly when the first does. */
  lemma EitherAnswer(pages: seq<Page>, remapped: set<nat>, base: nat, table: seq<Kmap>, u: nat, x: nat)
    requires Ordered(table) && SharedAt(table, u, x) && Behind(pages, remapped, base, table[u + 1].mirror) == Some(x)
    ensures table[u].lo < x
    ensures AlwaysShows(pages, remapped, base, table, x)
            <==> Behind(pages, remapped, base, table[u].mirror + (x - table[u].lo)) == Some(x)
  {
    BothAnswers(table, u, x);
    var first := table[u].mirror + (x - table[u].lo);
    assert Shows(pages, remapped, base, table, FirstProbe(table, u), x)
           == (Behind(pages, remapped, base, first) == Some(x)) by {
      hide Ordered, Behind;
    }
    assert table[u].lo < x;
    hide Search, Ordered, Behind, HintOk, FirstProbe;
    if Behind(pages, remapped, base, first) == Some(x) {
      forall hint | HintOk(table, hint) ensures Shows(pages, remapped, base, table, hint, x) {
        SharedAnswers(table, u, x, hint);
      }
    }
  }

  ghost predicate AlwaysShows(pages: seq<Page>, remapped: set<nat>, base: nat, table: seq<Kmap>, x: nat) {
    forall hint | HintOk(table, hint) :: Shows(pages, remapped, base, table, hint, x)
  }

  /** The answer for x, after a lookup that left the probe there, shows x. */
  ghost predicate Shows(pages: seq<Page>, remapped: set<nat>, base: nat, table: seq<Kmap>, hint: nat, x: nat)
    requires HintOk(table, hint)
  {
    Behind(pages, remapped, base, Search(table, hint, x).0) == Some(x)
  }

  /** If no page is missing, the page after a mapping's last is the first of the next. */
  lemma MeetsHead(pages: seq<Page>, remapped: set<nat>, i: nat, k: nat, n: nat)
    requires PagesOk(pages) && Head(pages, remapped, i) && Head(pages, remapped, k)
    requires pages[i].end == pages[k].start && n == (pages[k].start - pages[i].start) / PAGE
    requires (pages[k].start - pages[i].start) % PAGE == 0
    ensures UpTo(pages, pages[i].addr, n) ==> i + n in remapped
  {
    Contiguous(pages, i, n);
    if UpTo(pages, pages[i].addr, n) {
      Increasing(pages);
      assert i + n == k;
    }
  }

  /** An address of no mirrored mapping, its end included, is answered with zero. */
  lemma MirrorHides(pages: seq<Page>, remapped: set<nat>, base: nat, x: nat, hint: nat)
    requires HintOk(KmapsFrom(pages, remapped, base, 0), hint)
    requires forall k: nat | Head(pages, remapped, k) :: !(pages[k].start <= x <= pages[k].end)
    ensures Search(KmapsFrom(pages, remapped, base, 0), hint, x).0 == 0
  {
    KmapsAreHeads(pages, remapped, base, 0);
    var table := KmapsFrom(pages, remapped, base, 0);
    forall j | 0 <= j < |table| ensures !Covers(table[j], x) {
      assert table[j] in table;
    }
    SearchMisses(table, hint, x);
  }

  // ---- A process ----

  lemma {:induction false} FromPinned(v: Vma, x: nat, pinned: set<nat>, a: nat)
    requires v.start <= x <= a < v.end && (a - x) % PAGE == 0
    ensures Page(a, v.start, v.end) in PagesFrom(v, x, pinned) <==> a in pinned
    decreases v.end - x
  {
    if x < a {
      FromPinned(v, x + PAGE, pinned, a);
      assert forall q | q in [Page(x, v.start, v.end)] :: q.addr == x;
    } else {
      LaterPages(v, x + PAGE, pinned);
    }
  }

  lemma {:induction false} LaterPages(v: Vma, x: nat, pinned: set<nat>)
    ensures forall q | q in PagesFrom(v, x, pinned) :: q.addr >= x && q.start == v.start && q.end == v.end
    decreases v.end - x
  {
    if x < v.end {
      LaterPages(v, x + PAGE, pinned);
    }
  }

  lemma LaterVma(vmas: seq<Vma>, w: Vma)
    requires VmasOk(vmas) && vmas != [] && w in vmas[1..]
    ensures vmas[0].end <= w.start < w.end
  {
    var k :| 1 <= k < |vmas| && vmas[k] == w;
  }

  /** A page of a selected mapping is collected exactly when it can be pinned. */
  lemma {:induction false} CollectedIffPinned(p: Process, vmas: seq<Vma>, pinned: set<nat>, v: Vma, a: nat)
    requires VmasOk(vmas) && v in vmas && Selected(p, v) && v.start <= a < v.end && (a - v.start) % PAGE == 0
    ensures Page(a, v.start, v.end) in AllPages(p, vmas, pinned) <==> a in pinned
  {
    hide Selected;
    var q := Page(a, v.start, v.end);
    if v == vmas[0] {
      FromPinned(v, v.start, pinned, a);
      AllPagesOk(p, vmas[1..], pinned);
      forall w | w in vmas[1..] ensures vmas[0].end <= w.start {
        LaterVma(vmas, w);
      }
    } else {
      LaterPages(vmas[0], vmas[0].start, pinned);
      assert v in vmas[1..];
      LaterVma(vmas, v);
      CollectedIffPinned(p, vmas[1..], pinned, v, a);
    }
  }

  /** Among all collected pages an address of a selected mapping occurs only as a page of that mapping. */
  lemma PresentIffPinned(p: Process, pinned: set<nat>, v: Vma, a: nat)
    requires VmasOk(p.vmas) && v in p.vmas && Selected(p, v) && v.start <= a < v.end && (a - v.start) % PAGE == 0
    ensures Present(AllPages(p, p.vmas, pinned), a) <==> a in pinned
  {
    hide Selected;
    var pages := AllPages(p, p.vmas, pinned);
    CollectedIffPinned(p, p.vmas, pinned, v, a);
    AllPagesOk(p, p.vmas, pinned);
    if Present(pages, a) {
      var k :| 0 <= k < |pages| && pages[k].addr == a;
      PageInside(pages, k);
      var w :| w in p.vmas && pages[k].start == w.start && pages[k].end == w.end;
      SameVma(p.vmas, v, w, a);
      assert pages[k] in pages;
    }
  }

  lemma SameVma(vmas: seq<Vma>, v: Vma, w: Vma, a: nat)
    requires VmasOk(vmas) && v in vmas && w in vmas && v.start <= a < v.end && w.start <= a < w.end
    ensures v == w
  {
    var i :| 0 <= i < |vmas| && vmas[i] == v;
    var j :| 0 <= j < |vmas| && vmas[j] == w;
  }

  // ---- The page table of a process ----

  /** What fits into the page table. */
  function Collected(p: Process, pinned: set<nat>): seq<Page> {
    Take(AllPages(p, p.vmas, pinned), MAX_PAGES)
  }

  lemma CollectedOk(p: Process, pinned: set<nat>)
    requires VmasOk(p.vmas)
    ensures PagesOk(Collected(p, pinned))
    ensures forall q | q in Collected(p, pinned) :: exists v | v in p.vmas :: q.start == v.start && q.end == v.end
  {
    hide Before, Whole, Selected, PagesFrom;
    AllPagesOk(p, p.vmas, pinned);
    var all := AllPages(p, p.vmas, pinned);
    assert forall q | q in Collected(p, pinned) :: q in all;
  }

  /** Pages are given up from the end. */
  lemma KeptBefore(pages: seq<Page>, n: nat, a: nat, b: nat)
    requires PagesOk(pages) && Present(pages, a) && Present(Take(pages, n), b) && a <= b
    ensures Present(Take(pages, n), a)
  {
    Increasing(pages);
    var i :| 0 <= i < |pages| && pages[i].addr == a;
    var k :| 0 <= k < |Take(pages, n)| && Take(pages, n)[k].addr == b;
    assert i <= k && Take(pages, n)[i].addr == a;
  }

  lemma KeptIsPresent(pages: seq<Page>, n: nat, a: nat)
    requires Present(Take(pages, n), a)
    ensures Present(pages, a)
  {
    var k :| 0 <= k < |Take(pages, n)| && Take(pages, n)[k].addr == a;
    assert pages[k].addr == a;
  }

  /** Every page of v up to number n is in the page table exactly when all of them could be pinned and
      there was room for the last. */
  lemma PresentUpTo(p: Process, pinned: set<nat>, v: Vma, n: nat)
    requires VmasOk(p.vmas) && v in p.vmas && Selected(p, v) && v.start + PAGE * n < v.end
    ensures UpTo(Collected(p, pinned), v.start, n)
            <==> Present(Collected(p, pinned), v.start + PAGE * n)
                 && forall t: nat | t <= n :: v.start + PAGE * t in pinned
  {
    hide Selected, Collected, Present, VmasOk;
    var last := v.start + PAGE * n;
    if Present(Collected(p, pinned), last) {
      forall t: nat | t <= n
        ensures Present(Collected(p, pinned), v.start + PAGE * t) <==> v.start + PAGE * t in pinned
      {
        assert (v.start + PAGE * t - v.start) % PAGE == 0;
        KeptIffPinned(p, pinned, v, v.start + PAGE * t, last);
      }
    }
  }

  lemma HeadOf(p: Process, pinned: set<nat>, v: Vma) returns (i: nat)
    requires VmasOk(p.vmas) && v in p.vmas && Selected(p, v) && Present(Collected(p, pinned), v.start)
    requires v.start < v.end
    ensures i < |Collected(p, pinned)| && Collected(p, pinned)[i] == Page(v.start, v.start, v.end)
  {
    hide Selected, Collected, AllPages;
    CollectedOk(p, pinned);
    var pages := Collected(p, pinned);
    i :| 0 <= i < |pages| && pages[i].addr == v.start;
    PageInside(pages, i);
    assert pages[i] in pages;
    var w :| w in p.vmas && pages[i].start == w.start && pages[i].end == w.end;
    SameVma(p.vmas, v, w, v.start);
  }

  /** A mapping whose first page is not in the page table is not mirrored at all. */
  lemma Unmirrored(p: Process, pinned: set<nat>, remapped: set<nat>, base: nat, v: Vma, x: nat, hint: nat)
    requires VmasOk(p.vmas) && v in p.vmas && v.start <= x < v.end && !Present(Collected(p, pinned), v.start)
    requires !SharedWithPrevious(Collected(p, pinned), remapped, x)
    requires HintOk(KmapsFrom(Collected(p, pinned), remapped, base, 0), hint)
    ensures Search(KmapsFrom(Collected(p, pinned), remapped, base, 0), hint, x).0 == 0
  {
    hide Selected, KmapsFrom, Search, PagesOk, Collected, AllPages;
    var pages := Collected(p, pinned);
    CollectedOk(p, pinned);
    assert forall k | 0 <= k < |pages| :: pages[k].addr != v.start;
    forall k: nat | Head(pages, remapped, k) ensures !(pages[k].start <= x <= pages[k].end) {
      assert pages[k] in pages;
      var w :| w in p.vmas && pages[k].start == w.start && pages[k].end == w.end;
      if w.start <= x < w.end {
        SameVma(p.vmas, v, w, x);
      }
    }
    MirrorHides(pages, remapped, base, x, hint);
  }

  /** The kernel module mirrors every page it has collected. */
  ghost predicate AllMirrored(p: Process, pinned: set<nat>, remapped: set<nat>) {
    forall k: nat | k < |Collected(p, pinned)| :: k in remapped
  }

  /** For a process whose collected pages are all mirrored, however many there are: an address of a
      selected mapping is seen at the answer, whatever was looked up before, exactly when every page of
      the mapping up to its own could be pinned and there was room for its own. */
  lemma TranslationIsTrue(p: Process, pinned: set<nat>, remapped: set<nat>, base: nat, v: Vma, x: nat, hint: nat)
    requires VmasOk(p.vmas) && v in p.vmas && Selected(p, v) && v.start <= x < v.end && x != 0 && base > 0
    requires AllMirrored(p, pinned, remapped) && !SharedWithPrevious(Collected(p, pinned), remapped, x)
    requires HintOk(KmapsFrom(Collected(p, pinned), remapped, base, 0), hint)
    ensures var pages, n := Collected(p, pinned), (x - v.start) / PAGE;
            Shows(pages, remapped, base, KmapsFrom(pages, remapped, base, 0), hint, x)
            <==> Present(pages, v.start + PAGE * n) && forall t: nat | t <= n :: v.start + PAGE * t in pinned
  {
    var pages, n := Collected(p, pinned), (x - v.start) / PAGE;
    PageWithin(v, x, n);
    PresentUpTo(p, pinned, v, n);
    CollectedOk(p, pinned);
    if Present(pages, v.start) {
      var i := HeadOf(p, pinned, v);
      hide PagesOk, Search, SharedWithPrevious, KmapsFrom, Selected, Present, Collected, Behind, VmasOk;
      MirrorShows(pages, remapped, base, i, x, hint);
      if UpTo(pages, v.start, n) {
        Contiguous(pages, i, n);
      }
    } else {
      hide PagesOk, Search, SharedWithPrevious, KmapsFrom, Selected, Present, Collected, VmasOk;
      Unmirrored(p, pinned, remapped, base, v, x, hint);
      assert v.start == v.start + PAGE * 0;
    }
  }

  /** The first address of a mapping is only ever seen through a page that starts there. */
  lemma SeenIsPresent(p: Process, pinned: set<nat>, remapped: set<nat>, base: nat, w: Vma, y: nat)
    requires VmasOk(p.vmas) && w in p.vmas && w.start < w.end
    requires Behind(Collected(p, pinned), remapped, base, y) == Some(w.start)
    ensures Present(Collected(p, pinned), w.start)
  {
    hide Collected;
    CollectedOk(p, pinned);
    var pages, k := Collected(p, pinned), (y - base) / PAGE;
    assert pages[k] in pages && Whole(pages[k]);
    var v :| v in p.vmas && pages[k].start == v.start && pages[k].end == v.end;
    SameVma(p.vmas, v, w, w.start);
  }

  /** Where a mirrored mapping v meets the mapping w after it: the address is seen, whatever was looked up
      before, exactly when there is a page for it and every page of v could be pinned. */
  lemma SharedEndIsTrue(p: Process, pinned: set<nat>, remapped: set<nat>, base: nat, v: Vma, w: Vma)
    requires VmasOk(p.vmas) && v in p.vmas && w in p.vmas && Selected(p, v) && Selected(p, w) && v.end == w.start
    requires AllMirrored(p, pinned, remapped) && Present(Collected(p, pinned), v.start) && v.start < v.end
             && w.start < w.end
    ensures var pages, x := Collected(p, pinned), w.start;
            var table := KmapsFrom(pages, remapped, base, 0);
            AlwaysShows(pages, remapped, base, table, x)
            <==> Present(pages, x) && forall t: nat | t < (x - v.start) / PAGE :: v.start + PAGE * t in pinned
  {
    hide Selected, PagesOk, KmapsFrom, Search, Behind, Present, Collected, AllPages, VmasOk;
    var pages, x := Collected(p, pinned), w.start;
    var table := KmapsFrom(pages, remapped, base, 0);
    if Present(pages, x) {
      var i := HeadOf(p, pinned, v);
      var k := HeadOf(p, pinned, w);
      CollectedOk(p, pinned);
      WholePages(p.vmas, v);
      SharedShows(pages, remapped, base, i, k);
      PagesBefore(p, pinned, v, x);
    } else {
      assert HintOk(table, 0);
      if Shows(pages, remapped, base, table, 0, x) {
        SeenIsPresent(p, pinned, remapped, base, w, Search(table, 0, x).0);
      }
    }
  }

  lemma PagesBefore(p: Process, pinned: set<nat>, v: Vma, x: nat)
    requires VmasOk(p.vmas) && v in p.vmas && Selected(p, v) && v.start < v.end == x && Present(Collected(p, pinned), x)
    ensures UpTo(Collected(p, pinned), v.start, (x - v.start) / PAGE)
            <==> forall t: nat | t < (x - v.start) / PAGE :: v.start + PAGE * t in pinned
  {
    var n := (x - v.start) / PAGE;
    assert x == v.start + PAGE * n by {
      WholePages(p.vmas, v);
    }
    hide Selected, Present, Collected, VmasOk;
    forall t: nat | t < n
      ensures Present(Collected(p, pinned), v.start + PAGE * t) <==> v.start + PAGE * t in pinned
    {
      KeptIffPinned(p, pinned, v, v.start + PAGE * t, x);
    }
  }

  lemma WholePages(vmas: seq<Vma>, v: Vma)
    requires VmasOk(vmas) && v in vmas
    ensures v.start < v.end && (v.end - v.start) % PAGE == 0
  {
  }

  /** Before a page in the page table every page that can be pinned is there. */
  lemma KeptIffPinned(p: Process, pinned: set<nat>, v: Vma, a: nat, x: nat)
    requires VmasOk(p.vmas) && v in p.vmas && Selected(p, v) && v.start <= a < v.end && (a - v.start) % PAGE == 0
    requires a <= x && Present(Collected(p, pinned), x)
    ensures Present(Collected(p, pinned), a) <==> a in pinned
  {
    hide Selected, PagesOk, Present, AllPages, VmasOk;
    var all := AllPages(p, p.vmas, pinned);
    AllPagesOk(p, p.vmas, pinned);
    PresentIffPinned(p, pinned, v, a);
    if Present(Collected(p, pinned), a) {
      KeptIsPresent(all, MAX_PAGES, a);
    } else if Present(all, a) {
      KeptBefore(all, MAX_PAGES, a, x);
    }
  }

  lemma PageWithin(v: Vma, x: nat, t: nat)
    requires v.start <= x < v.end && t <= (x - v.start) / PAGE
    ensures v.start <= v.start + PAGE * t <= x && (v.start + PAGE * t - v.start) % PAGE == 0
  {
  }
}
