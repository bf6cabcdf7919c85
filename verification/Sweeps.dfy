/** What a load contains (`parse_vmlinux`, src/xed.c), said of the bytes and the instruction decoder
    alone: the offsets a linear sweep comes to are those reached from 0 by the length of what is decoded,
    or by one byte; the table holds, in order and while there is room, what is decoded at each of them. */
module Sweeps {
  import opened Options
  import opened Bytes
  import opened Program
  import opened Loader

  /** What the decoder makes of the bytes at an offset: at most fifteen, and none behind the range. */
  function DecodedAt(dec: seq<Byte> -> Option<Decoded>, text: seq<Byte>, at: nat): Option<Decoded>
    requires at <= |text|
  {
    dec(if at + 15 <= |text| then text[at..at + 15] else text[at..])
  }

  /** The offset a sweep is at after k steps from an offset. */
  ghost function Offset(dec: seq<Byte> -> Option<Decoded>, text: seq<Byte>, at: nat, k: nat): (o: nat)
    requires DecoderOk(dec) && at <= |text|
    ensures at <= o <= |text|
    decreases k
  {
    if k == 0 || at == |text| then at
    else
      match DecodedAt(dec, text, at)
      case None => Offset(dec, text, at + 1, k - 1)
      case Some(d) => Offset(dec, text, at + d.length, k - 1)
  }

  /** An instruction is decoded at the k-th offset. */
  ghost predicate Holds(dec: seq<Byte> -> Option<Decoded>, text: seq<Byte>, at: nat, k: nat)
    requires DecoderOk(dec) && at <= |text|
  {
    Offset(dec, text, at, k) < |text| && DecodedAt(dec, text, Offset(dec, text, at, k)).Some?
  }

  /** What is decoded there. */
  ghost function What(dec: seq<Byte> -> Option<Decoded>, text: seq<Byte>, at: nat, k: nat): Decoded
    requires DecoderOk(dec) && at <= |text| && Holds(dec, text, at, k)
  {
    DecodedAt(dec, text, Offset(dec, text, at, k)).value
  }

  /** How many instructions are decoded in the first k steps. */
  ghost function Before(dec: seq<Byte> -> Option<Decoded>, text: seq<Byte>, at: nat, k: nat): (n: nat)
    requires DecoderOk(dec) && at <= |text|
    ensures n <= k
    decreases k
  {
    if k == 0 || at == |text| then 0
    else
      match DecodedAt(dec, text, at)
      case None => Before(dec, text, at + 1, k - 1)
      case Some(d) => 1 + Before(dec, text, at + d.length, k - 1)
  }

  /** The table's instruction is the one decoded at the address. */
  predicate Fits(inst: Inst, d: Decoded, addr: nat) {
    inst.addr == addr && inst.length == d.length && Meant(inst.kind, d, addr)
  }

  /** The first turn of a sweep that is inside the range. */
  lemma FirstTurn(dec: seq<Byte> -> Option<Decoded>, text: seq<Byte>, at: nat, base: nat)
    requires DecoderOk(dec) && at <= |text|
    ensures match DecodedAt(dec, text, at)
            case None => ItemAt(dec, text, at, base) == Skip
            case Some(d) =>
              && 0 < d.length && at + d.length <= |text|
              && (StopsLoading(d) <==> ItemAt(dec, text, at, base) == Bad)
              && (!StopsLoading(d) ==>
                    && ItemAt(dec, text, at, base).Load?
                    && ItemAt(dec, text, at, base).inst.length == d.length
                    && Fits(ItemAt(dec, text, at, base).inst, d, base + at))
  {
    hide Classify, Meant, StopsLoading;
    assert text[|text|..] == [];
    var d := DecodedAt(dec, text, at);
    if d.Some? {
      ClassifyStops(d.value, base + at);
      if Classify(d.value, base + at).Some? {
        ClassifyMeans(d.value, base + at);
      }
    }
  }

  /** Every instruction decoded on the way is loaded, in order, while there is room. */
  lemma {:induction false} SweepLoads(dec: seq<Byte> -> Option<Decoded>, text: seq<Byte>, at: nat, base: nat, room: nat,
                                      k: nat)
    requires DecoderOk(dec) && at <= |text| && Sweep(dec, text, at, base, room).Some?
    requires Holds(dec, text, at, k) && Before(dec, text, at, k) < room
    ensures var insts := Sweep(dec, text, at, base, room).value;
            && Before(dec, text, at, k) < |insts|
            && Fits(insts[Before(dec, text, at, k)], What(dec, text, at, k), base + Offset(dec, text, at, k))
    decreases k
  {
    hide ItemAt, Fits, DecoderOk, DecodedAt;
    FirstTurn(dec, text, at, base);
    if k > 0 {
      match DecodedAt(dec, text, at)
      case None => SweepLoads(dec, text, at + 1, base, room, k - 1);
      case Some(d) => SweepLoads(dec, text, at + d.length, base, room - 1, k - 1);
    }
  }

  /** Every loaded instruction is one that is decoded on the way. */
  lemma {:induction false} SweepLoadsOnly(dec: seq<Byte> -> Option<Decoded>, text: seq<Byte>, at: nat, base: nat,
                                          room: nat, j: nat) returns (k: nat)
    requires DecoderOk(dec) && at <= |text| && Sweep(dec, text, at, base, room).Some?
    requires j < |Sweep(dec, text, at, base, room).value|
    ensures Holds(dec, text, at, k) && Before(dec, text, at, k) == j
    decreases |text| - at
  {
    hide ItemAt, Fits, DecoderOk, DecodedAt;
    FirstTurn(dec, text, at, base);
    k := 0;
    match DecodedAt(dec, text, at)
    case None =>
      k := SweepLoadsOnly(dec, text, at + 1, base, room, j);
      k := k + 1;
    case Some(d) =>
      if j > 0 {
        k := SweepLoadsOnly(dec, text, at + d.length, base, room - 1, j - 1);
        k := k + 1;
      }
  }

  /** The sweep comes, with room left, to an instruction that stops it; with no room at all, one that
      is decoded right away does. */
  ghost predicate Stuck(dec: seq<Byte> -> Option<Decoded>, text: seq<Byte>, at: nat, room: nat, k: nat)
    requires DecoderOk(dec) && at <= |text|
  {
    Holds(dec, text, at, k) &&
    (if room == 0 then k == 0 else Before(dec, text, at, k) < room && StopsLoading(What(dec, text, at, k)))
  }

  /** The loading of a range stops exactly if the sweep gets stuck. */
  lemma {:induction false} SweepSticks(dec: seq<Byte> -> Option<Decoded>, text: seq<Byte>, at: nat, base: nat,
                                       room: nat) returns (k: nat)
    requires DecoderOk(dec) && at <= |text|
    ensures Sweep(dec, text, at, base, room) == None ==> Stuck(dec, text, at, room, k)
    decreases |text| - at
  {
    hide ItemAt, Fits, DecoderOk, DecodedAt, StopsLoading;
    FirstTurn(dec, text, at, base);
    k := 0;
    if Sweep(dec, text, at, base, room) == None {
      match DecodedAt(dec, text, at)
      case None =>
        assert SweepOn(dec, text, at + 1, base, room) == None;
        k := SweepSticks(dec, text, at + 1, base, room);
        k := k + 1;
      case Some(d) =>
        if room > 0 && !StopsLoading(d) {
          assert SweepOn(dec, text, at + d.length, base, room - 1) == None;
          k := SweepSticks(dec, text, at + d.length, base, room - 1);
          k := k + 1;
        }
    }
  }

  lemma {:induction false} StuckStops(dec: seq<Byte> -> Option<Decoded>, text: seq<Byte>, at: nat, base: nat, room: nat,
                                      k: nat)
    requires DecoderOk(dec) && at <= |text| && Stuck(dec, text, at, room, k)
    ensures Sweep(dec, text, at, base, room) == None
    decreases k
  {
    hide ItemAt, Fits, DecoderOk, DecodedAt, StopsLoading;
    FirstTurn(dec, text, at, base);
    if k > 0 {
      match DecodedAt(dec, text, at)
      case None => StuckStops(dec, text, at + 1, base, room, k - 1);
      case Some(d) =>
        if room > 0 && !StopsLoading(d) {
          StuckStops(dec, text, at + d.length, base, room - 1, k - 1);
        }
    }
  }

  /** A range gives as many instructions as are decoded in it, if there is room for them. */
  lemma {:induction false} SweepCount(dec: seq<Byte> -> Option<Decoded>, text: seq<Byte>, at: nat, base: nat, room: nat,
                                      k: nat)
    requires DecoderOk(dec) && at <= |text| <= at + k && Sweep(dec, text, at, base, room).Some?
    ensures var n := Before(dec, text, at, k);
            |Sweep(dec, text, at, base, room).value| == if n < room then n else room
    decreases k
  {
    hide ItemAt, Fits, DecoderOk, DecodedAt;
    FirstTurn(dec, text, at, base);
    match DecodedAt(dec, text, at)
    case None =>
      assert Sweep(dec, text, at, base, room) == SweepOn(dec, text, at + 1, base, room);
      if at + 1 < |text| && room > 0 {
        SweepCount(dec, text, at + 1, base, room, k - 1);
      }
    case Some(d) =>
      if at + d.length < |text| && room > 1 {
        SweepCount(dec, text, at + d.length, base, room - 1, k - 1);
      }
  }

  // ---- All ranges ----

  /** How many instructions are decoded in the first i ranges. */
  ghost function Ahead(dec: seq<Byte> -> Option<Decoded>, images: seq<Image>, i: nat): nat
    requires DecoderOk(dec) && i <= |images|
    decreases i
  {
    if i == 0 then 0
    else Before(dec, images[0].text, 0, |images[0].text|) + Ahead(dec, images[1..], i - 1)
  }

  /** An instruction is decoded at the k-th offset of the i-th range. */
  ghost predicate HoldsIn(dec: seq<Byte> -> Option<Decoded>, images: seq<Image>, i: nat, k: nat)
    requires DecoderOk(dec)
  {
    i < |images| && Holds(dec, images[i].text, 0, k)
  }

  /** How many instructions are decoded earlier. */
  ghost function Place(dec: seq<Byte> -> Option<Decoded>, images: seq<Image>, i: nat, k: nat): nat
    requires DecoderOk(dec) && i < |images|
  {
    Ahead(dec, images, i) + Before(dec, images[i].text, 0, k)
  }

  /** The instruction with so many before it is decoded on the way. */
  ghost predicate Decodes(dec: seq<Byte> -> Option<Decoded>, images: seq<Image>, j: nat)
    requires DecoderOk(dec)
  {
    exists i, k :: HoldsIn(dec, images, i, k) && Place(dec, images, i, k) == j
  }

  /** The table's instruction is the one decoded there. */
  ghost predicate Stored(dec: seq<Byte> -> Option<Decoded>, images: seq<Image>, i: nat, k: nat, inst: Inst)
    requires DecoderOk(dec) && HoldsIn(dec, images, i, k)
  {
    Fits(inst, What(dec, images[i].text, 0, k), images[i].addr + Offset(dec, images[i].text, 0, k))
  }

  ghost predicate StuckIn(dec: seq<Byte> -> Option<Decoded>, images: seq<Image>, room: nat, i: nat, k: nat)
    requires DecoderOk(dec)
  {
    HoldsIn(dec, images, i, k) &&
    (if room == 0 then i == 0 && k == 0
     else Place(dec, images, i, k) < room && StopsLoading(What(dec, images[i].text, 0, k)))
  }

  lemma {:induction false} AllLoads(dec: seq<Byte> -> Option<Decoded>, images: seq<Image>, room: nat, i: nat, k: nat)
    requires DecoderOk(dec) && SweepAll(dec, images, room).Some?
    requires HoldsIn(dec, images, i, k) && Place(dec, images, i, k) < room
    ensures var insts := SweepAll(dec, images, room).value;
            && Place(dec, images, i, k) < |insts|
            && Stored(dec, images, i, k, insts[Place(dec, images, i, k)])
    decreases i
  {
    hide Sweep, Fits, DecoderOk, Holds, Before, Offset, What;
    var (base, text) := (images[0].addr, images[0].text);
    SweepCount(dec, text, 0, base, room, |text|);
    if i == 0 {
      SweepLoads(dec, text, 0, base, room, k);
    } else {
      AllLoads(dec, images[1..], room - |Sweep(dec, text, 0, base, room).value|, i - 1, k);
    }
  }

  lemma {:induction false} AllLoadsOnly(dec: seq<Byte> -> Option<Decoded>, images: seq<Image>, room: nat, j: nat)
    returns (i: nat, k: nat)
    requires DecoderOk(dec) && SweepAll(dec, images, room).Some? && j < |SweepAll(dec, images, room).value|
    ensures HoldsIn(dec, images, i, k) && Place(dec, images, i, k) == j
  {
    hide Sweep, Fits, DecoderOk, Holds, Before, Offset, What;
    var (base, text) := (images[0].addr, images[0].text);
    SweepCount(dec, text, 0, base, room, |text|);
    var first := Sweep(dec, text, 0, base, room).value;
    if j < |first| {
      i := 0;
      k := SweepLoadsOnly(dec, text, 0, base, room, j);
    } else {
      i, k := AllLoadsOnly(dec, images[1..], room - |first|, j - |first|);
      i := i + 1;
    }
  }

  lemma {:induction false} AllStick(dec: seq<Byte> -> Option<Decoded>, images: seq<Image>, room: nat)
    returns (i: nat, k: nat)
    requires DecoderOk(dec) && SweepAll(dec, images, room) == None
    ensures StuckIn(dec, images, room, i, k)
  {
    hide Sweep, Fits, DecoderOk, Holds, Before, Offset, What, StopsLoading;
    var (base, text) := (images[0].addr, images[0].text);
    if Sweep(dec, text, 0, base, room) == None {
      i := 0;
      k := SweepSticks(dec, text, 0, base, room);
    } else {
      SweepCount(dec, text, 0, base, room, |text|);
      var first := Sweep(dec, text, 0, base, room).value;
      i, k := AllStick(dec, images[1..], room - |first|);
      i := i + 1;
    }
  }

  lemma {:induction false} AllStuck(dec: seq<Byte> -> Option<Decoded>, images: seq<Image>, room: nat, i: nat, k: nat)
    requires DecoderOk(dec) && StuckIn(dec, images, room, i, k)
    ensures SweepAll(dec, images, room) == None
    decreases i
  {
    hide Sweep, Fits, DecoderOk, Holds, Before, Offset, What, StopsLoading;
    var (base, text) := (images[0].addr, images[0].text);
    if i == 0 {
      StuckStops(dec, text, 0, base, room, k);
    } else if Sweep(dec, text, 0, base, room).Some? {
      SweepCount(dec, text, 0, base, room, |text|);
      AllStuck(dec, images[1..], room - |Sweep(dec, text, 0, base, room).value|, i - 1, k);
    }
  }

  /** Whatever the bytes are and whatever the decoder makes of them: the load stops exactly if the sweep
      comes, with room left, to an unknown return or a near branch with the far attribute; otherwise the
      table holds, in order and while there is room, exactly the instructions decoded on the way, each
      at its address with its length, its kind and, if it is a direct branch, its target. */
  lemma LoadedExactly(dec: seq<Byte> -> Option<Decoded>, images: seq<Image>, room: nat)
    requires DecoderOk(dec)
    ensures SweepAll(dec, images, room) == None <==> exists i, k :: StuckIn(dec, images, room, i, k)
    ensures match SweepAll(dec, images, room)
            case None => true
            case Some(insts) =>
              && (forall i, k | HoldsIn(dec, images, i, k) && Place(dec, images, i, k) < room ::
                    && Place(dec, images, i, k) < |insts|
                    && Stored(dec, images, i, k, insts[Place(dec, images, i, k)]))
              && (forall j | 0 <= j < |insts| :: Decodes(dec, images, j))
  {
    hide SweepAll, Holds, Place, Stored, StuckIn, DecoderOk;
    forall i, k | StuckIn(dec, images, room, i, k) ensures SweepAll(dec, images, room) == None {
      AllStuck(dec, images, room, i, k);
    }
    if SweepAll(dec, images, room) == None {
      var i, k := AllStick(dec, images, room);
    } else {
      var insts := SweepAll(dec, images, room).value;
      forall i, k | HoldsIn(dec, images, i, k) && Place(dec, images, i, k) < room
        ensures && Place(dec, images, i, k) < |insts|
                && Stored(dec, images, i, k, insts[Place(dec, images, i, k)]) {
        AllLoads(dec, images, room, i, k);
      }
      forall j | 0 <= j < |insts| ensures Decodes(dec, images, j) {
        var i, k := AllLoadsOnly(dec, images, room, j);
      }
    }
  }
}
