/** The table of decoded instructions and the address layout the replay runs against
    (inc/xed.h, src/xed.c). Addresses are naturals below 2^64. */
module Program {
  import opened Options

  /** What the replay does at an instruction: the combination of change-of-flow type,
      category and class that `add_inst` stores (Loader.Classify). */
  datatype Kind =
    | Plain
    | Cond(target: nat)
    | Jump(target: nat)
    | Call(target: nat)
    | IndJump
    | IndCall
    | Ret
    | Far
    | Iret

  datatype Inst = Inst(addr: nat, length: nat, kind: Kind)

  /** A half-open address range. */
  datatype Range = Range(lo: nat, hi: nat)

  /** The addresses the loader fixed: the end of user space, the kernel text start, the end of the
      last module; the kernel text and module ranges; anonymous executable mappings; the page
      directory of the traced process; and whether return compression is compiled in. */
  datatype Layout = Layout(userEnd: nat, kernelStart: nat, kernelEnd: nat,
                           mods: seq<Range>, amaps: seq<Range>, perfedPgd: nat, retCompression: bool)

  datatype Env = Env(insts: seq<Inst>, layout: Layout)

  predicate Contains(inst: Inst, addr: nat) {
    inst.addr <= addr < inst.addr + inst.length
  }

  predicate InRange(r: Range, addr: nat) {
    r.lo <= addr < r.hi
  }

  /** Non-empty instructions in strictly increasing, non-overlapping order. */
  ghost predicate Sorted(insts: seq<Inst>) {
    && (forall i | 0 <= i < |insts| :: insts[i].length > 0)
    && (forall i, j | 0 <= i < j < |insts| :: insts[i].addr + insts[i].length <= insts[j].addr)
  }

  /** The plain scan that every lookup is compared with. */
  function Scan(insts: seq<Inst>, addr: nat): (r: Option<nat>)
    ensures r.Some? ==> r.value < |insts| && Contains(insts[r.value], addr)
    ensures r.None? ==> forall i | 0 <= i < |insts| :: !Contains(insts[i], addr)
  {
    if |insts| == 0 then None
    else if Contains(insts[|insts| - 1], addr) then Some(|insts| - 1)
    else Scan(insts[..|insts| - 1], addr)
  }

  /** Addresses the lookup refuses before it searches: null, the gap between user space and the
      kernel, and everything above the last module. */
  predicate Filtered(layout: Layout, addr: nat) {
    || addr == 0
    || layout.userEnd <= addr < layout.kernelStart
    || layout.kernelEnd <= addr
  }

  function Find(env: Env, addr: nat): (r: Option<nat>)
    ensures r.Some? ==> r.value < |env.insts| && Contains(env.insts[r.value], addr) && addr != 0
  {
    if Filtered(env.layout, addr) then None else Scan(env.insts, addr)
  }

  /** Where `xed_update_last_inst` ends: at an instruction, nowhere (position unknown), or stopped. */
  datatype Place = At(index: nat) | Nowhere | Stop

  /** Tracing covers the address: the traced process is current, or the address is in the kernel. */
  predicate Enabled(layout: Layout, pgd: nat, addr: nat) {
    pgd == layout.perfedPgd || addr >= layout.kernelStart
  }

  function Resolve(env: Env, pgd: nat, addr: nat): (p: Place)
    ensures p.At? ==> p.index < |env.insts|
    ensures p.At? <==> Find(env, addr).Some?
  {
    match Find(env, addr)
    case Some(i) => At(i)
    case None =>
      if !Enabled(env.layout, pgd, addr) then Nowhere
      else if && env.layout.kernelStart <= addr < env.layout.kernelEnd
              && exists r | r in env.layout.mods :: InRange(r, addr) then Stop
      else if exists r | r in env.layout.amaps :: InRange(r, addr) then Nowhere
      else Stop
  }

  /** An address is that of the first byte of instruction i, and lookups reach it. */
  predicate StartsAt(env: Env, addr: nat, i: nat) {
    i < |env.insts| && env.insts[i].addr == addr && Find(env, addr) == Some(i)
  }

  /** At most one instruction of a sorted table contains an address. */
  lemma ContainsUnique(insts: seq<Inst>, addr: nat, i: nat, j: nat)
    requires Sorted(insts) && i < |insts| && j < |insts|
    requires Contains(insts[i], addr) && Contains(insts[j], addr)
    ensures i == j
  {
  }

  /** In a sorted table the scan finds any instruction that contains the address. */
  lemma ScanIsUnique(insts: seq<Inst>, addr: nat, i: nat)
    requires Sorted(insts) && i < |insts| && Contains(insts[i], addr)
    ensures Scan(insts, addr) == Some(i)
  {
    var r := Scan(insts, addr);
    assert r.Some?;
    ContainsUnique(insts, addr, r.value, i);
  }

  /** An instruction is found at exactly the addresses of its bytes, in user space and from the kernel text
      up to the end of the last module, and not at null. */
  predicate FoundAt(env: Env, addr: nat, i: nat) {
    && i < |env.insts| && env.insts[i].addr <= addr < env.insts[i].addr + env.insts[i].length
    && addr != 0
    && (addr < env.layout.userEnd || env.layout.kernelStart <= addr) && addr < env.layout.kernelEnd
  }

  lemma FindMeans(env: Env, addr: nat, i: nat)
    requires Sorted(env.insts)
    ensures Find(env, addr) == Some(i) <==> FoundAt(env, addr, i)
  {
    if FoundAt(env, addr, i) {
      ScanIsUnique(env.insts, addr, i);
    }
  }

  /** So the answer is the one instruction found there, or there is none. */
  ghost predicate FoundExactly(env: Env, addr: nat, r: Option<nat>) {
    forall i: nat :: r == Some(i) <==> FoundAt(env, addr, i)
  }

  lemma FindIsExact(env: Env, addr: nat)
    requires Sorted(env.insts)
    ensures FoundExactly(env, addr, Find(env, addr))
  {
    forall i: nat ensures Find(env, addr) == Some(i) <==> FoundAt(env, addr, i) {
      FindMeans(env, addr, i);
    }
  }

  /** An address without an instruction loses the position if it belongs to another process's user code, or
      to an anonymous mapping that is not in a loaded module of the kernel; any other one stops. */
  lemma ResolveMeans(env: Env, pgd: nat, addr: nat)
    requires Find(env, addr) == None
    ensures var kernel := env.layout.kernelStart <= addr < env.layout.kernelEnd;
            var known := kernel && exists r | r in env.layout.mods :: r.lo <= addr < r.hi;
            var anonymous := exists r | r in env.layout.amaps :: r.lo <= addr < r.hi;
            var traced := pgd == env.layout.perfedPgd || addr >= env.layout.kernelStart;
            && (Resolve(env, pgd, addr) == Nowhere <==> !traced || (anonymous && !known))
            && (Resolve(env, pgd, addr) == Stop <==> traced && (known || !anonymous))
  {
    assert forall r: Range :: InRange(r, addr) <==> r.lo <= addr < r.hi;
  }

  /** The instruction that follows in memory is the next entry of the table. */
  lemma FallThroughIsNext(env: Env, i: nat, j: nat)
    requires Sorted(env.insts) && i < |env.insts|
    requires StartsAt(env, env.insts[i].addr + env.insts[i].length, j)
    ensures j == i + 1
  {
    // An entry strictly between i and j would begin inside the one-byte gap that is not there.
    assert i + 1 < |env.insts| ==> env.insts[i].addr + env.insts[i].length <= env.insts[i + 1].addr;
  }

  /** Appending instructions above the table changes no answer for the addresses it covered. */
  lemma AppendKeepsAnswers(insts: seq<Inst>, more: seq<Inst>, addr: nat, i: nat)
    requires Sorted(insts + more) && i < |insts| && Contains(insts[i], addr)
    ensures Scan(insts, addr) == Some(i) == Scan(insts + more, addr)
  {
    var all := insts + more;
    assert forall k | 0 <= k < |insts| :: all[k] == insts[k];
    ScanIsUnique(all, addr, i);
    ScanIsUnique(insts, addr, i);
  }
}
