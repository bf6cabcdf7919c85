/** Loading the kernel's code (`add_inst` and `parse_vmlinux`, src/xed.c): a linear sweep over each
    code range, whose instructions are appended to the table the lookup searches. The instruction
    decoder is a parameter: a function from at most fifteen bytes to what was decoded, if anything. */
module Loader {
  import opened Options
  import opened Bytes
  import opened Program
  import opened Lookup
  import M = Modules

  const MAX_NO_INSTS: nat := 60_000_000
  const MAX_INSTRUCTION_BYTES: nat := 15

  datatype Category = CategoryCall | CategoryCond | CategoryUncond | CategoryRet | CategoryInterrupt | CategorySyscall
                    | CategorySysret | CategoryOther

  /** Instruction classes that matter. Trap stands for INT1, INT3, INTO, SYSENTER, SYSEXIT, VMLAUNCH
      and VMRESUME. */
  datatype Class = CallFar | CallNear | JmpFar | Iret | RetFar | RetNear | Trap | Other

  /** What the decoder says: `far` and `indirect` are the attributes of the instruction, `relative` its
      branch displacement if it has one. */
  datatype Decoded = Decoded(category: Category, class_: Class, length: nat, far: bool, indirect: bool,
                             relative: Option<int>)

  /** The change-of-flow types an instruction is given; more than one is an error. */
  datatype Flow = Conditional | Direct | Indirect | FarTransfer

  /** The types `add_inst` collects, or None for the stop on an unknown return. */
  function Flows(d: Decoded): Option<set<Flow>> {
    var far := if d.far then {FarTransfer} else {};
    match d.category
    case CategoryCall =>
      Some(far + (if d.class_.CallFar? then {FarTransfer}
                  else if !d.class_.CallNear? then {}
                  else if d.indirect then {Indirect} else {Direct}))
    case CategoryCond =>
      Some(far + (if d.class_.JmpFar? then {FarTransfer} else if d.indirect then {Indirect} else {Conditional}))
    case CategoryUncond =>
      Some(far + (if d.class_.JmpFar? then {FarTransfer} else if d.indirect then {Indirect} else {Direct}))
    case CategoryRet =>
      if d.class_.Iret? || d.class_.RetFar? then Some(far + {FarTransfer})
      else if d.class_.RetNear? then Some(far + {Indirect})
      else None
    case CategoryInterrupt => Some({FarTransfer})
    case CategorySyscall => Some({FarTransfer})
    case CategorySysret => Some({FarTransfer})
    case CategoryOther => Some(far + (if d.class_.Trap? then {FarTransfer} else {}))
  }

  /** The target of a direct branch, in 64 bits; zero where the decoder gives none. */
  function BranchTarget(d: Decoded, addr: nat): nat {
    match d.relative
    case None => 0
    case Some(disp) => (addr + disp + d.length) % TWO64
  }

  /** How the replay treats the instruction; None is the stop on an impossible combination. */
  function Classify(d: Decoded, addr: nat): Option<Kind> {
    match Flows(d)
    case None => None
    case Some(flows) =>
      if flows == {} then Some(Plain)
      else if flows == {Conditional} then Some(Cond(BranchTarget(d, addr)))
      else if flows == {Direct} then
        Some(if d.category.CategoryCall? then Call(BranchTarget(d, addr)) else Jump(BranchTarget(d, addr)))
      else if flows == {Indirect} then
        Some(if d.category.CategoryCall? then IndCall else if d.category.CategoryRet? then Ret else IndJump)
      else if flows == {FarTransfer} then Some(if d.class_.Iret? then Kind.Iret else Far)
      else None
  }

  /** An instruction stops the loading exactly if it is a return of an unknown class, or a near branch
      with the attribute of a far one. */
  lemma ClassifyStops(d: Decoded, addr: nat)
    ensures Classify(d, addr) == None <==> StopsLoading(d)
  {
    if Flows(d).Some? {
      var flows := Flows(d).value;
      assert flows == {} || (exists f :: f in flows);
      assert d.far ==> FarTransfer in flows;
      assert !d.far ==> (|| flows == {} || flows == {Conditional} || flows == {Direct} || flows == {Indirect}
                         || flows == {FarTransfer});
    }
  }

  /** The conditional and unconditional jumps that stay near. */
  predicate NearJump(d: Decoded) {
    (d.category.CategoryCond? || d.category.CategoryUncond?) && !d.class_.JmpFar? && !d.far
  }

  predicate NearCall(d: Decoded) {
    d.category.CategoryCall? && d.class_.CallNear? && !d.far
  }

  /** Transfers out of the code segment or into the kernel and back. */
  predicate LeavesFar(d: Decoded) {
    || d.far
    || d.category.CategoryInterrupt? || d.category.CategorySyscall? || d.category.CategorySysret?
    || (d.category.CategoryCall? && d.class_.CallFar?)
    || ((d.category.CategoryCond? || d.category.CategoryUncond?) && d.class_.JmpFar?)
    || (d.category.CategoryRet? && (d.class_.Iret? || d.class_.RetFar?))
    || (d.category.CategoryOther? && d.class_.Trap?)
  }

  /** The kind says how the replay treats what was decoded at the address: which transfers, which way,
      and the target of a direct one, in 64 bits. */
  predicate Meant(k: Kind, d: Decoded, addr: nat) {
    && (k.Ret? <==> d.category.CategoryRet? && d.class_.RetNear?)
    && (k.Cond? <==> NearJump(d) && !d.indirect && d.category.CategoryCond?)
    && (k.Jump? <==> NearJump(d) && !d.indirect && d.category.CategoryUncond?)
    && (k.IndJump? <==> NearJump(d) && d.indirect)
    && (k.Call? <==> NearCall(d) && !d.indirect)
    && (k.IndCall? <==> NearCall(d) && d.indirect)
    && (k.Iret? <==> LeavesFar(d) && d.class_.Iret?)
    && (k.Far? <==> LeavesFar(d) && !d.class_.Iret?)
    && ((k.Cond? || k.Jump? || k.Call?) && d.relative.Some? ==>
          k.target == (addr + d.length + d.relative.value) % 0x1_0000_0000_0000_0000)
    && ((k.Cond? || k.Jump? || k.Call?) && d.relative.None? ==> k.target == 0)
  }

  /** What stops the loading: a return of an unknown class, or a near branch with the attribute of a
      far one. */
  predicate StopsLoading(d: Decoded) {
    || (d.category.CategoryRet? && !d.class_.Iret? && !d.class_.RetFar? && !d.class_.RetNear?)
    || (d.far && (|| (d.category.CategoryCall? && d.class_.CallNear?)
                  || ((d.category.CategoryCond? || d.category.CategoryUncond?) && !d.class_.JmpFar?)
                  || (d.category.CategoryRet? && d.class_.RetNear?)))
  }

  /** Which instructions are replayed in which way, for those that do not stop the loading. */
  lemma ClassifyMeans(d: Decoded, addr: nat)
    requires Classify(d, addr).Some?
    ensures Meant(Classify(d, addr).value, d, addr)
  {
    var flows := Flows(d).value;
    assert d.far ==> FarTransfer in flows;
    assert Conditional in flows <==> d.category.CategoryCond? && !d.class_.JmpFar? && !d.indirect;
    assert Indirect in flows ==> flows != {Conditional} && flows != {Direct} && flows != {FarTransfer};
    assert Direct in flows ==> flows != {Conditional} && flows != {Indirect} && flows != {FarTransfer};
  }

  ghost predicate DecoderOk(dec: seq<Byte> -> Option<Decoded>) {
    forall w | dec(w).Some? :: 0 < dec(w).value.length <= |w|
  }

  /** The bytes offered to the decoder. */
  function Window(text: seq<Byte>, at: nat): (w: seq<Byte>)
    ensures |w| <= |text| - at || w == []
  {
    if at >= |text| then []
    else if at + MAX_INSTRUCTION_BYTES <= |text| then text[at..at + MAX_INSTRUCTION_BYTES]
    else text[at..]
  }

  /** What is found at an offset: no instruction, one to load, or one that stops the loading. */
  datatype Item = Skip | Load(inst: Inst) | Bad

  ghost function ItemAt(dec: seq<Byte> -> Option<Decoded>, text: seq<Byte>, at: nat, base: nat): (item: Item)
    requires DecoderOk(dec)
    ensures item.Load? ==> item.inst.addr == base + at && 0 < item.inst.length && at + item.inst.length <= |text|
  {
    match dec(Window(text, at))
    case None => Skip
    case Some(d) =>
      match Classify(d, base + at)
      case None => Bad
      case Some(kind) => Load(Inst(base + at, d.length, kind))
  }

  function InFront(first: seq<Inst>, r: Option<seq<Inst>>): Option<seq<Inst>> {
    match r
    case None => None
    case Some(rest) => Some(first + rest)
  }

  /** The instructions of a code range at `base` from offset `at` on, with room for so many; a byte
      that begins no instruction is passed over. None is a stop. */
  ghost function Sweep(dec: seq<Byte> -> Option<Decoded>, text: seq<Byte>, at: nat, base: nat,
                       room: nat): Option<seq<Inst>>
    requires DecoderOk(dec) && at <= |text|
    decreases |text| + 1 - at, 1
  {
    match ItemAt(dec, text, at, base)
    case Skip => SweepOn(dec, text, at + 1, base, room)
    case Load(inst) => if room == 0 then None else InFront([inst], SweepOn(dec, text, at + inst.length, base, room - 1))
    case Bad => None
  }

  /** Go on unless the range or the room is used up. */
  ghost function SweepOn(dec: seq<Byte> -> Option<Decoded>, text: seq<Byte>, at: nat, base: nat,
                         room: nat): Option<seq<Inst>>
    requires DecoderOk(dec) && at <= |text| + 1
    decreases |text| + 1 - at, 2
  {
    if at >= |text| || room == 0 then Some([]) else Sweep(dec, text, at, base, room)
  }

  datatype Image = Image(addr: nat, text: seq<Byte>)

  ghost function SweepAll(dec: seq<Byte> -> Option<Decoded>, images: seq<Image>, room: nat): Option<seq<Inst>>
    requires DecoderOk(dec)
  {
    if images == [] then Some([])
    else match Sweep(dec, images[0].text, 0, images[0].addr, room)
      case None => None
      case Some(first) =>
        if |first| >= room then Some(first) else InFront(first, SweepAll(dec, images[1..], room - |first|))
  }

  /** All instructions lie in the range and one after another. */
  ghost predicate Within(insts: seq<Inst>, lo: nat, hi: nat) {
    Sorted(insts) && forall k | 0 <= k < |insts| :: lo <= insts[k].addr && insts[k].addr + insts[k].length <= hi
  }

  lemma WithinConcat(a: seq<Inst>, b: seq<Inst>, lo: nat, mid: nat, mid': nat, hi: nat)
    requires Within(a, lo, mid) && Within(b, mid', hi) && lo <= mid <= mid' <= hi
    ensures Within(a + b, lo, hi)
  {
  }

  /** The sweep yields increasing instructions inside the range, as many as there is room for. */
  lemma {:induction false} SweepWithin(dec: seq<Byte> -> Option<Decoded>, text: seq<Byte>, at: nat, base: nat,
                                       room: nat)
    requires DecoderOk(dec) && at <= |text|
    ensures var r := Sweep(dec, text, at, base, room);
            r.Some? ==> Within(r.value, base + at, base + |text|) && |r.value| <= room
    decreases |text| + 1 - at, 1
  {
    hide ItemAt, Within;
    match ItemAt(dec, text, at, base) {
      case Skip =>
        SweepOnWithin(dec, text, at + 1, base, room, base + at);
      case Load(inst) =>
        if room > 0 {
          SweepOnWithin(dec, text, at + inst.length, base, room - 1, base + at + inst.length);
          OneWithin(inst);
          if SweepOn(dec, text, at + inst.length, base, room - 1).Some? {
            WithinConcat([inst], SweepOn(dec, text, at + inst.length, base, room - 1).value,
                         base + at, base + at + inst.length, base + at + inst.length, base + |text|);
          }
        }
      case Bad =>
    }
  }

  lemma {:induction false} SweepOnWithin(dec: seq<Byte> -> Option<Decoded>, text: seq<Byte>, at: nat, base: nat,
                                         room: nat, lo: nat)
    requires DecoderOk(dec) && lo <= base + at && at <= |text| + 1
    ensures var r := SweepOn(dec, text, at, base, room);
            r.Some? ==> Within(r.value, lo, base + |text|) && |r.value| <= room
    decreases |text| + 1 - at, 2
  {
    hide Within, ItemAt;
    EmptyWithin(lo, base + |text|);
    if at < |text| && room > 0 {
      SweepWithin(dec, text, at, base, room);
      if Sweep(dec, text, at, base, room).Some? {
        Widen(Sweep(dec, text, at, base, room).value, base + at, base + |text|, lo, base + |text|);
      }
    }
  }

  lemma EmptyWithin(lo: nat, hi: nat)
    ensures Within([], lo, hi)
  {
  }

  lemma OneWithin(inst: Inst)
    requires inst.length > 0
    ensures Within([inst], inst.addr, inst.addr + inst.length)
  {
  }

  /** Each range ends before the next begins. */
  ghost predicate Apart(images: seq<Image>) {
    forall i, j | 0 <= i < j < |images| :: images[i].addr + |images[i].text| <= images[j].addr
  }

  /** Everything loaded lies in the ranges, in increasing order without overlap. */
  lemma {:induction false} SweepAllWithin(dec: seq<Byte> -> Option<Decoded>, images: seq<Image>, room: nat,
                                          lo: nat) returns (hi: nat)
    requires DecoderOk(dec) && Apart(images) && forall k | 0 <= k < |images| :: lo <= images[k].addr
    ensures lo <= hi
    ensures var r := SweepAll(dec, images, room);
            r.Some? ==> Within(r.value, lo, hi) && |r.value| <= room
  {
    hide Within, Sweep;
    hi := lo;
    EmptyWithin(lo, hi);
    if images != [] {
      var (base, text) := (images[0].addr, images[0].text);
      SweepWithin(dec, text, 0, base, room);
      var first := Sweep(dec, text, 0, base, room);
      hi := base + |text|;
      if first.Some? {
        Widen(first.value, base, hi, lo, hi);
        if |first.value| < room {
          var end := SweepAllWithin(dec, images[1..], room - |first.value|, hi);
          if SweepAll(dec, images[1..], room - |first.value|).Some? {
            WithinConcat(first.value, SweepAll(dec, images[1..], room - |first.value|).value, lo, hi, hi, end);
          }
          hi := end;
        }
      }
    }
  }

  lemma Widen(insts: seq<Inst>, lo: nat, hi: nat, lo': nat, hi': nat)
    requires Within(insts, lo, hi) && lo' <= lo && hi <= hi'
    ensures Within(insts, lo', hi')
  {
  }

  predicate Inside(inst: Inst, image: Image) {
    image.addr <= inst.addr && inst.addr + inst.length <= image.addr + |image.text|
  }

  /** The instruction lies in one of the ranges. */
  predicate InSome(inst: Inst, images: seq<Image>) {
    exists k | 0 <= k < |images| :: Inside(inst, images[k])
  }

  /** Every instruction lies in one of the ranges. */
  lemma {:induction false} SweepAllInside(dec: seq<Byte> -> Option<Decoded>, images: seq<Image>, room: nat)
    requires DecoderOk(dec)
    ensures var r := SweepAll(dec, images, room);
            r.Some? ==> forall inst | inst in r.value :: InSome(inst, images)
  {
    hide Sweep;
    if images != [] && SweepAll(dec, images, room).Some? {
      SweepWithin(dec, images[0].text, 0, images[0].addr, room);
      var first := Sweep(dec, images[0].text, 0, images[0].addr, room).value;
      assert forall inst | inst in first :: Inside(inst, images[0]);
      if |first| < room {
        SweepAllInside(dec, images[1..], room - |first|);
        var rest := SweepAll(dec, images[1..], room - |first|).value;
        forall inst | inst in first + rest ensures InSome(inst, images) {
          if inst !in first {
            assert inst in rest && InSome(inst, images[1..]);
            var k :| 0 <= k < |images[1..]| && Inside(inst, images[1..][k]);
            assert Inside(inst, images[k + 1]);
          }
        }
      }
    }
  }

  /** The bytes of the ranges of the kernel module's table. */
  ghost predicate ImagesOf(mods: seq<M.Mod>, images: seq<Image>) {
    |images| == |mods| &&
    forall k | 0 <= k < |mods| :: images[k].addr == mods[k].addr && |images[k].text| <= mods[k].size
  }

  /** Whatever order the kernel lists its modules in, and whatever their bytes are, what is loaded is
      sorted and every instruction lies in its module. */
  lemma LoadedIsSorted(dec: seq<Byte> -> Option<Decoded>, kernel: M.Mod, slots: seq<M.Mod>, listed: seq<M.Listed>,
                       images: seq<Image>, room: nat)
    requires DecoderOk(dec) && M.Chain(slots) && M.Disjoint(slots + M.Texts(listed))
    requires forall m | m in slots + M.Texts(listed) :: M.Below(kernel, m)
    requires ImagesOf([kernel] + M.InsertAll(slots, listed), images)
    ensures Apart(images)
    ensures var r := SweepAll(dec, images, room);
            r.Some? ==> Sorted(r.value) && forall inst | inst in r.value :: InSome(inst, images)
  {
    hide Sweep, SweepAll, M.InsertAll, M.Texts, M.Disjoint;
    M.TableSorted(kernel, slots, listed);
    var mods := [kernel] + M.InsertAll(slots, listed);
    forall i, j | 0 <= i < j < |images| ensures images[i].addr + |images[i].text| <= images[j].addr {
      assert M.Below(mods[i], mods[j]);
    }
    forall k | 0 <= k < |images| ensures kernel.addr <= images[k].addr {
      assert k > 0 ==> M.Below(mods[0], mods[k]);
    }
    var _ := SweepAllWithin(dec, images, room, kernel.addr);
    SweepAllInside(dec, images, room);
  }

  // ---- The loader itself ----

  /** Where the table ends so far. */
  ghost predicate EndsBelow(insts: seq<Inst>, addr: nat) {
    forall k | 0 <= k < |insts| :: insts[k].addr + insts[k].length <= addr
  }

  /** What is at an offset, as the source decodes it. */
  method Examine(dec: seq<Byte> -> Option<Decoded>, text: seq<Byte>, at: nat, base: nat) returns (item: Item)
    requires DecoderOk(dec)
    ensures item == ItemAt(dec, text, at, base)
  {
    var found := dec(Window(text, at));
    if found.None? {
      return Skip;
    }
    var kind := Classify(found.value, base + at);
    item := if kind.None? then Bad else Load(Inst(base + at, found.value.length, kind.value));
  }

  /** The sweep over one range. */
  method LoadImage(dec: seq<Byte> -> Option<Decoded>, finder: Finder, image: Image) returns (ok: bool)
    requires DecoderOk(dec) && finder.Valid() && EndsBelow(finder.insts, image.addr) && |finder.insts| <= MAX_NO_INSTS
    modifies finder`insts
    ensures finder.Valid() && |finder.insts| <= MAX_NO_INSTS
    ensures var r := Sweep(dec, image.text, 0, image.addr, 60_000_000 - |old(finder.insts)|);
            && (ok <==> r.Some?)
            && (ok ==>
                  finder.insts == old(finder.insts) + r.value && EndsBelow(finder.insts, image.addr + |image.text|))
  {
    hide ItemAt, Finder.Valid;
    var text, base := image.text, image.addr;
    var at := 0;
    ghost var was, done: seq<Inst> := finder.insts, [];
    ghost var all := Sweep(dec, text, 0, base, MAX_NO_INSTS - |was|);
    ThenMany([], [], all);
    while true
      invariant at <= |text| && finder.Valid() && |finder.insts| <= MAX_NO_INSTS
      invariant finder.insts == was + done && EndsBelow(finder.insts, base + at)
      invariant all == InFront(done, Sweep(dec, text, at, base, MAX_NO_INSTS - |finder.insts|))
      decreases |text| + 1 - at
    {
      var item := Examine(dec, text, at, base);
      match item {
        case Skip =>
          at := at + 1;
        case Load(inst) =>
          if |finder.insts| >= MAX_NO_INSTS {
            return false;
          }
          ghost var rest := SweepOn(dec, text, at + inst.length, base, MAX_NO_INSTS - |finder.insts| - 1);
          ThenMany(done, [inst], rest);
          finder.Append(inst);
          done := done + [inst];
          at := at + inst.length;
        case Bad =>
          return false;
      }
      assert done + [] == done;
      if at >= |text| || |finder.insts| >= MAX_NO_INSTS {
        return true;
      }
    }
  }

  /** `parse_vmlinux`: one range after another, until there is no room. Whatever the bytes are, the
      table stays sorted, so every later lookup is right. */
  method LoadAll(dec: seq<Byte> -> Option<Decoded>, finder: Finder, images: seq<Image>) returns (ok: bool)
    requires DecoderOk(dec) && finder.Valid() && |finder.insts| <= MAX_NO_INSTS
    requires Apart(images) && (images != [] ==> EndsBelow(finder.insts, images[0].addr))
    modifies finder`insts
    ensures finder.Valid() && |finder.insts| <= MAX_NO_INSTS
    ensures var r := SweepAll(dec, images, 60_000_000 - |old(finder.insts)|);
            (ok <==> r.Some?) && (ok ==> finder.insts == old(finder.insts) + r.value)
  {
    hide Sweep, SweepAll, Finder.Valid, EndsBelow, Apart, InFront, Sorted;
    var k := 0;
    ghost var was, done: seq<Inst> := finder.insts, [];
    ghost var all := SweepAll(dec, images, MAX_NO_INSTS - |was|);
    ThenMany([], [], all);
    assert images[0..] == images;
    while k < |images|
      invariant k <= |images| && finder.Valid() && |finder.insts| <= MAX_NO_INSTS
      invariant finder.insts == was + done && (k < |images| ==> EndsBelow(finder.insts, images[k].addr))
      invariant all == InFront(done, SweepAll(dec, images[k..], MAX_NO_INSTS - |finder.insts|))
    {
      ghost var before := finder.insts;
      ok := LoadImage(dec, finder, images[k]);
      SweepsOn(dec, images, k, done, MAX_NO_INSTS - |before|);
      if !ok {
        return;
      }
      ghost var first := Sweep(dec, images[k].text, 0, images[k].addr, MAX_NO_INSTS - |before|).value;
      assert finder.insts == before + first;
      done := done + first;
      if |finder.insts| >= MAX_NO_INSTS {
        return true;
      }
      NextRange(finder.insts, images, k);
      k := k + 1;
    }
    assert images[k..] == [];
    SweepsEnd(dec, done, MAX_NO_INSTS - |finder.insts|);
    ok := true;
  }

  /** The sweep of the ranges from k on, after what was done. */
  lemma SweepsOn(dec: seq<Byte> -> Option<Decoded>, images: seq<Image>, k: nat, done: seq<Inst>, room: nat)
    requires DecoderOk(dec) && k < |images|
    ensures var all := InFront(done, SweepAll(dec, images[k..], room));
            match Sweep(dec, images[k].text, 0, images[k].addr, room)
            case None => all == None
            case Some(first) =>
              if |first| >= room then all == Some(done + first)
              else all == InFront(done + first, SweepAll(dec, images[k + 1..], room - |first|))
  {
    hide Sweep;
    assert images[k..][1..] == images[k + 1..];
    var r := Sweep(dec, images[k].text, 0, images[k].addr, room);
    if r.Some? {
      ThenThat(done, r.value);
      ThenMany(done, r.value, SweepAll(dec, images[k + 1..], if |r.value| >= room then 0 else room - |r.value|));
    }
  }

  lemma SweepsEnd(dec: seq<Byte> -> Option<Decoded>, done: seq<Inst>, room: nat)
    requires DecoderOk(dec)
    ensures InFront(done, SweepAll(dec, [], room)) == Some(done)
  {
    ThenThat(done, []);
  }

  lemma NextRange(insts: seq<Inst>, images: seq<Image>, k: nat)
    requires Apart(images) && k < |images| && EndsBelow(insts, images[k].addr + |images[k].text|)
    ensures k + 1 < |images| ==> EndsBelow(insts, images[k + 1].addr)
  {
  }

  lemma ThenThat(done: seq<Inst>, first: seq<Inst>)
    ensures InFront(done, None) == None && InFront(done, Some(first)) == Some(done + first)
    ensures InFront(done, Some([])) == Some(done)
  {
    assert done + [] == done;
  }

  lemma ThenMany(done: seq<Inst>, more: seq<Inst>, r: Option<seq<Inst>>)
    ensures InFront(done, InFront(more, r)) == InFront(done + more, r)
    ensures InFront([], r) == r
  {
    if r.Some? {
      assert done + (more + r.value) == done + more + r.value;
      assert [] + r.value == r.value;
    }
  }
}
