/** `xed_unwind_find_inst` (src/xed.c): a binary search that keeps its last probe as a start hint
    and remembers hits in two direct-mapped caches. */
module Lookup {
  import opened Options
  import opened Program

  const CACHE_LENGTH := 0x10_0000

  class Finder {
    const layout: Layout
    var insts: seq<Inst>
    /** The static probe index that survives from one lookup to the next. */
    var hint: nat
    /** Cached instruction indices; None is a null pointer. */
    const high: array<Option<nat>>
    const low: array<Option<nat>>

    ghost predicate CacheOk(cache: array<Option<nat>>)
      reads this, cache
    {
      && cache.Length == CACHE_LENGTH
      && forall k | 0 <= k < CACHE_LENGTH :: cache[k].Some? ==> cache[k].value < |insts|
    }

    ghost predicate Valid()
      reads this, high, low
    {
      && high != low
      && Sorted(insts)
      && (hint != 0 ==> hint < |insts|)
      && CacheOk(high) && CacheOk(low)
    }

    ghost function TheEnv(): Env
      reads this
    {
      Env(insts, layout)
    }

    constructor (layout: Layout)
      ensures Valid() && insts == [] && this.layout == layout
      ensures fresh(high) && fresh(low)
    {
      this.layout := layout;
      insts := [];
      hint := 0;
      high := new Option<nat>[CACHE_LENGTH](_ => None);
      low := new Option<nat>[CACHE_LENGTH](_ => None);
    }

    /** Load one more instruction, above those already there. */
    method Append(inst: Inst)
      requires Valid() && inst.length > 0
      requires forall k | 0 <= k < |insts| :: insts[k].addr + insts[k].length <= inst.addr
      modifies this`insts
      ensures Valid() && insts == old(insts) + [inst]
    {
      insts := insts + [inst];
    }

    /** A cache slot answers only for the exact start address of the instruction it holds. */
    method Probe(cache: array<Option<nat>>, addr: nat) returns (r: Option<nat>)
      requires Valid() && (cache == high || cache == low)
      ensures r.Some? ==> r == Scan(insts, addr)
    {
      var slot := cache[addr % CACHE_LENGTH];
      if slot.Some? && insts[slot.value].addr == addr {
        ScanIsUnique(insts, addr, slot.value);
        return slot;
      }
      return None;
    }

    /** The binary search between two bounds outside which no instruction holds the address. */
    method Narrow(addr: nat, from: nat, upto: int) returns (r: Option<nat>)
      requires Valid() && from <= |insts| && -1 <= upto < |insts|
      requires forall k | 0 <= k < |insts| && Contains(insts[k], addr) :: from <= k <= upto
      modifies this`hint
      ensures Valid()
      ensures r == Scan(insts, addr)
    {
      var a, b := from, upto;
      while a <= b
        invariant 0 <= a <= |insts| && -1 <= b < |insts|
        invariant hint != 0 ==> hint < |insts|
        invariant forall k | 0 <= k < |insts| && Contains(insts[k], addr) :: a <= k <= b
        decreases b - a
      {
        hint := (a + b) / 2;
        if Contains(insts[hint], addr) {
          ScanIsUnique(insts, addr, hint);
          return Some(hint);
        } else if insts[hint].addr < addr {
          a := hint + 1;
        } else {
          b := hint - 1;
        }
      }
      return None;
    }

    /** Whatever was looked up before, the answer is that of the plain scan. */
    method FindInst(addr: nat) returns (r: Option<nat>)
      requires Valid()
      modifies this`hint, high, low
      ensures Valid()
      ensures r == Find(TheEnv(), addr)
      ensures FoundExactly(TheEnv(), addr, r)
    {
      FindIsExact(TheEnv(), addr);
      hide FoundExactly;
      if || addr == 0
         || layout.userEnd <= addr < layout.kernelStart
         || layout.kernelEnd <= addr {
        return None;
      }
      if addr >= layout.kernelStart {
        r := Probe(high, addr);
        if r.Some? {
          return;
        }
      }
      r := Probe(low, addr);
      if r.Some? {
        return;
      }

      var a, b := 0, |insts| - 1;
      if hint != 0 {
        if Contains(insts[hint], addr) {
          ScanIsUnique(insts, addr, hint);
          return Some(hint);
        } else if insts[hint].addr < addr {
          a := hint + 1;
        } else {
          b := hint - 1;
        }
      }
      r := Narrow(addr, a, b);
      if r.Some? {
        if addr >= layout.kernelStart {
          high[addr % CACHE_LENGTH] := r;
        } else {
          low[addr % CACHE_LENGTH] := r;
        }
      }
    }
  }
}
