/** The kernel module's list of code ranges: the kernel text, then instruction-slot pages, then the
    loaded modules inserted in address order (`x_init`, kmod/main.c). */
module Modules {
  const MAX_NO_MODS: nat := 256

  datatype Mod = Mod(name: string, addr: nat, size: nat)

  datatype State = Live | Coming | Going | Unformed

  /** A module as the kernel lists it, in some order. */
  datatype Listed = Listed(state: State, text: Mod)

  predicate Accepted(l: Listed) {
    (l.state.Live? || l.state.Coming?) && l.text.addr != 0
  }

  /** In front of the first range that begins above it. */
  function Insert(mods: seq<Mod>, m: Mod): (r: seq<Mod>)
    ensures |r| == |mods| + 1
  {
    if mods == [] || m.addr < mods[0].addr then [m] + mods else [mods[0]] + Insert(mods[1..], m)
  }

  /** The accepted modules in the order they are listed, inserted one by one. */
  function InsertAll(mods: seq<Mod>, listed: seq<Listed>): seq<Mod>
    decreases |listed|
  {
    if listed == [] then mods
    else InsertAll(if Accepted(listed[0]) then Insert(mods, listed[0].text) else mods, listed[1..])
  }

  function Texts(listed: seq<Listed>): seq<Mod> {
    if listed == [] then [] else (if Accepted(listed[0]) then [listed[0].text] else []) + Texts(listed[1..])
  }

  class ModuleTable {
    const mods: array<Mod>
    var count: nat

    ghost predicate Valid()
      reads this, mods
    {
      mods.Length == MAX_NO_MODS && 1 <= count <= MAX_NO_MODS
    }

    ghost function Contents(): seq<Mod>
      requires Valid()
      reads this, mods
    {
      mods[..count]
    }

    /** The kernel text comes first, the slot pages follow in the order they are found. */
    constructor (kernel: Mod, slots: seq<Mod>)
      requires |slots| < MAX_NO_MODS
      ensures Valid() && Contents() == [kernel] + slots && fresh(mods)
    {
      mods := new Mod[MAX_NO_MODS](k requires 0 <= k < MAX_NO_MODS =>
        if 1 <= k <= |slots| then slots[k - 1] else kernel);
      count := 1 + |slots|;
      new;
      assert mods[..count] == [kernel] + slots;
    }

    /** The first position, after the kernel text, of a range that begins above the address. */
    method Position(addr: nat) returns (i: nat)
      requires Valid()
      ensures 1 <= i <= count
      ensures forall k | 1 <= k < i :: mods[k].addr <= addr
      ensures i < count ==> addr < mods[i].addr
    {
      i := 1;
      while i < count
        invariant 1 <= i <= count
        invariant forall k | 1 <= k < i :: mods[k].addr <= addr
      {
        if addr < mods[i].addr {
          return;
        }
        i := i + 1;
      }
    }

    /** Make room at position i. */
    method ShiftUp(i: nat)
      requires Valid() && 1 <= i <= count < MAX_NO_MODS
      modifies mods
      ensures forall k | 0 <= k < i :: mods[k] == old(mods[k])
      ensures forall k | i <= k < count :: mods[k + 1] == old(mods[k])
    {
      var j := count;
      while j > i
        invariant i <= j <= count
        invariant forall k | 0 <= k < j :: mods[k] == old(mods[k])
        invariant forall k | j <= k < count :: mods[k + 1] == old(mods[k])
      {
        mods[j] := mods[j - 1];
        j := j - 1;
      }
    }

    method Add(m: Mod)
      requires Valid() && count < MAX_NO_MODS
      modifies this`count, mods
      ensures Valid() && Contents() == [old(Contents()[0])] + Insert(old(Contents())[1..], m)
    {
      var i := Position(m.addr);
      ghost var was := Contents();
      InsertAfterFirst(was, m, i);
      ShiftUp(i);
      mods[i] := m;
      count := count + 1;
      Placed(was, Contents(), m, i);
    }

    /** The module part of `x_init`. */
    method AddAll(listed: seq<Listed>)
      requires Valid() && count + |Texts(listed)| <= MAX_NO_MODS
      modifies this`count, mods
      ensures Valid() && Contents() == [old(Contents()[0])] + InsertAll(old(Contents())[1..], listed)
    {
      hide Insert;
      var k := 0;
      ghost var all := InsertAll(Contents()[1..], listed);
      assert listed[0..] == listed;
      while k < |listed|
        invariant k <= |listed| && Valid() && count + |Texts(listed[k..])| <= MAX_NO_MODS
        invariant Contents()[0] == old(Contents()[0]) && InsertAll(Contents()[1..], listed[k..]) == all
      {
        assert listed[k..][1..] == listed[k + 1..];
        if Accepted(listed[k]) {
          ghost var was := Contents();
          Add(listed[k].text);
          assert Contents()[1..] == Insert(was[1..], listed[k].text);
        }
        k := k + 1;
      }
    }
  }

  lemma {:induction false} InsertAt(mods: seq<Mod>, m: Mod, i: nat)
    requires i <= |mods| && (forall k | 0 <= k < i :: mods[k].addr <= m.addr) && (i < |mods| ==> m.addr < mods[i].addr)
    ensures Insert(mods, m) == mods[..i] + [m] + mods[i..]
    decreases i
  {
    if i > 0 {
      InsertAt(mods[1..], m, i - 1);
      assert mods[1..][..i - 1] == mods[1..i] && mods[1..][i - 1..] == mods[i..];
      assert mods[..i] == [mods[0]] + mods[1..i];
    }
  }

  lemma InsertAfterFirst(mods: seq<Mod>, m: Mod, i: nat)
    requires 1 <= i <= |mods| && (forall k | 1 <= k < i :: mods[k].addr <= m.addr)
             && (i < |mods| ==> m.addr < mods[i].addr)
    ensures [mods[0]] + Insert(mods[1..], m) == mods[..i] + [m] + mods[i..]
  {
    var t := mods[1..];
    InsertAt(t, m, i - 1);
    hide Insert;
    PastFirst(mods, m, i);
  }

  lemma PastFirst(mods: seq<Mod>, m: Mod, i: nat)
    requires 1 <= i <= |mods|
    ensures [mods[0]] + (mods[1..][..i - 1] + [m] + mods[1..][i - 1..]) == mods[..i] + [m] + mods[i..]
  {
    var front, back := mods[1..i], mods[i..];
    assert mods[1..][..i - 1] == front && mods[1..][i - 1..] == back;
    assert mods[..i] == [mods[0]] + front;
    Reassociate([mods[0]], front, [m], back);
  }

  lemma Reassociate(a: seq<Mod>, b: seq<Mod>, c: seq<Mod>, d: seq<Mod>)
    ensures a + (b + c + d) == a + b + c + d
  {
  }

  lemma Placed(was: seq<Mod>, now: seq<Mod>, m: Mod, i: nat)
    requires i <= |was| && |now| == |was| + 1 && now[i] == m
    requires (forall k | 0 <= k < i :: now[k] == was[k]) && (forall k | i <= k < |was| :: now[k + 1] == was[k])
    ensures now == was[..i] + [m] + was[i..]
  {
    assert forall k | i < k < |now| :: now[k] == was[k - 1];
  }

  // ---- Sorted, and nothing lost ----

  predicate Below(a: Mod, b: Mod) {
    a.addr + a.size <= b.addr
  }

  /** Each range ends before the next begins. */
  ghost predicate Chain(mods: seq<Mod>) {
    forall i, j | 0 <= i < j < |mods| :: Below(mods[i], mods[j])
  }

  ghost predicate Disjoint(mods: seq<Mod>) {
    && (forall m | m in mods :: m.size > 0)
    && (forall i, j | 0 <= i < j < |mods| :: Below(mods[i], mods[j]) || Below(mods[j], mods[i]))
  }

  lemma {:induction false} InsertMembers(mods: seq<Mod>, m: Mod)
    ensures multiset(Insert(mods, m)) == multiset(mods) + multiset{m}
    ensures forall e :: e in Insert(mods, m) <==> e in mods || e == m
  {
    if mods != [] && mods[0].addr <= m.addr {
      InsertMembers(mods[1..], m);
      assert mods == [mods[0]] + mods[1..];
      assert forall e :: e in Insert(mods, m) <==> e == mods[0] || e in Insert(mods[1..], m);
    } else {
      assert forall e :: e in Insert(mods, m) <==> e == m || e in mods;
    }
  }

  lemma {:induction false} InsertChain(mods: seq<Mod>, m: Mod)
    requires Chain(mods) && m.size > 0 && forall e | e in mods :: e.size > 0 && (Below(e, m) || Below(m, e))
    ensures Chain(Insert(mods, m))
  {
    if mods != [] && mods[0].addr <= m.addr {
      assert Below(mods[0], m);
      InsertChain(mods[1..], m);
      InsertMembers(mods[1..], m);
      var rest := Insert(mods[1..], m);
      forall j | 0 <= j < |rest| ensures Below(mods[0], rest[j]) {
        assert rest[j] in rest;
      }
    } else if mods != [] {
      assert Below(m, mods[0]);
      forall j | 0 <= j < |mods| ensures Below(m, mods[j]) {
        assert mods[j] in mods;
        assert j > 0 ==> Below(mods[0], mods[j]);
      }
    }
  }

  /** A range is in the table exactly if it was there before, or is the code of a listed module that is
      live or coming and has an address. */
  lemma {:induction false} TableHolds(mods: seq<Mod>, listed: seq<Listed>, m: Mod)
    ensures m in InsertAll(mods, listed) <==>
            m in mods || exists k | 0 <= k < |listed| ::
              listed[k].text == m && m.addr != 0 && listed[k].state in {Live, Coming}
    decreases |listed|
  {
    if listed != [] {
      var next := if Accepted(listed[0]) then Insert(mods, listed[0].text) else mods;
      InsertMembers(mods, listed[0].text);
      TableHolds(next, listed[1..], m);
      assert forall k | 0 < k < |listed| :: listed[k] == listed[1..][k - 1];
    }
  }

  /** From a sorted list and pairwise disjoint code ranges the insertions make a sorted list of exactly
      those ranges, whatever order the kernel lists its modules in. */
  lemma {:induction false} InsertAllSorts(mods: seq<Mod>, listed: seq<Listed>)
    requires Chain(mods) && Disjoint(mods + Texts(listed))
    ensures Chain(InsertAll(mods, listed))
    ensures multiset(InsertAll(mods, listed)) == multiset(mods) + multiset(Texts(listed))
    decreases |listed|
  {
    if listed == [] {
      assert mods + [] == mods;
    } else {
      var rest := Texts(listed[1..]);
      if Accepted(listed[0]) {
        var m := listed[0].text;
        assert Texts(listed) == [m] + rest;
        FirstApart(mods, m, rest);
        InsertChain(mods, m);
        InsertMembers(mods, m);
        InsertAllSorts(Insert(mods, m), listed[1..]);
      } else {
        assert Texts(listed) == rest;
        InsertAllSorts(mods, listed[1..]);
      }
    }
  }

  /** A range that is apart from those of a list. */
  ghost predicate ApartFrom(m: Mod, mods: seq<Mod>) {
    m.size > 0 && forall e | e in mods :: e.size > 0 && (Below(e, m) || Below(m, e))
  }

  lemma FirstApart(mods: seq<Mod>, m: Mod, rest: seq<Mod>)
    requires Chain(mods) && Disjoint(mods + ([m] + rest))
    ensures ApartFrom(m, mods) && Disjoint(Insert(mods, m) + rest)
  {
    var all := mods + ([m] + rest);
    assert all[|mods|] == m && all[|mods|] in all;
    forall e | e in mods ensures e.size > 0 && (Below(e, m) || Below(m, e)) {
      var k :| 0 <= k < |mods| && mods[k] == e;
      assert all[k] == e && e in all;
    }
    InsertedApart(mods, m, rest);
  }

  lemma InsertedApart(mods: seq<Mod>, m: Mod, rest: seq<Mod>)
    requires Chain(mods) && ApartFrom(m, mods) && Disjoint(mods + ([m] + rest))
    ensures Disjoint(Insert(mods, m) + rest)
  {
    var all := mods + ([m] + rest);
    InsertChain(mods, m);
    InsertMembers(mods, m);
    hide Insert, ApartFrom, Below;
    Joined(mods, m, rest, Insert(mods, m));
  }

  lemma Joined(mods: seq<Mod>, m: Mod, rest: seq<Mod>, now: seq<Mod>)
    requires Disjoint(mods + ([m] + rest)) && Chain(now) && forall e :: e in now <==> e in mods || e == m
    ensures Disjoint(now + rest)
  {
    hide Below;
    var all := mods + ([m] + rest);
    forall e | e in now + rest ensures e.size > 0 {
      assert e in all;
    }
    forall i, j | 0 <= i < j < |now + rest|
      ensures Below((now + rest)[i], (now + rest)[j]) || Below((now + rest)[j], (now + rest)[i])
    {
      if i >= |now| {
        assert all[i - |now| + |mods| + 1] == (now + rest)[i] && all[j - |now| + |mods| + 1] == (now + rest)[j];
      } else if j >= |now| {
        assert now[i] in now && all[j - |now| + |mods| + 1] == (now + rest)[j];
        var k := |mods|;
        if now[i] != m {
          k :| 0 <= k < |mods| && mods[k] == now[i];
        }
        assert all[k] == now[i];
      }
    }
  }

  /** The whole table: the kernel text lies below all the rest. */
  lemma TableSorted(kernel: Mod, slots: seq<Mod>, listed: seq<Listed>)
    requires Chain(slots) && Disjoint(slots + Texts(listed))
    requires forall m | m in slots + Texts(listed) :: Below(kernel, m)
    ensures Chain([kernel] + InsertAll(slots, listed))
  {
    InsertAllSorts(slots, listed);
    var rest := InsertAll(slots, listed);
    forall j | 0 <= j < |rest| ensures Below(kernel, rest[j]) {
      assert rest[j] in multiset(rest);
      assert rest[j] in slots + Texts(listed);
    }
  }
}
