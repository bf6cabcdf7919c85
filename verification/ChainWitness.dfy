/** An execution in which everything happens that a story can tell, and the bytes that report it: every
    premise of the whole chain can be met, and its conclusion names the instructions one expects. */
module ChainWitness {
  import opened Options
  import opened Program
  import opened Replay
  import opened ReplayTheory
  import opened Machine
  import opened Arithmetic
  import opened Execution
  import opened Outcomes
  import opened Reconstruction
  import opened Decoding
  import opened Stories
  import opened Reporting
  import opened Witness
  import EndToEnd
  import P = Packets
  import Streams
  import Ticks

  // ---- The execution ----

  /** A served interrupt; the branch is taken and then not; tracing stops at the jump and starts again; packets are
      lost, and the tracer goes on in a handler, which returns; a handler that returns elsewhere, and a
      packet the replay has no position for; tracing stops and starts again; and a handler that never
      ends. */
  function Deeds(): seq<Deed> {
    [Struck([], 0x1000, ENTRY), Left([], 0x1000), Reported(Twice(), Bits(2, 2)), Stopped([], 0x1000),
     Overflowed([], ENTRY), Left([], 0x1000), Struck([], 0x1000, ENTRY), Left([], 0x1002), Missed(Bits(1, 1)),
     Stopped([], 0x1000), Struck([], 0x1000, ENTRY)]
  }

  const OUTER := Level(0, On(Point(0, [])))
  const INNER := Level(0x1000, On(Point(2, [])))

  /** The world before deed k. */
  function WorldAt(k: nat): World {
    var none, one := [], [Mark(1, 2, true)];
    var two := one + [Mark(0, 0, true), Mark(0, 0, true)];
    var three := two + [Mark(0, 2, true)];
    var four := three + [Mark(1, 2, true)];
    match k
    case 0 => World([OUTER], none)
    case 1 => World([OUTER, INNER], none)
    case 2 => World([OUTER], one)
    case 3 => World([Level(0, On(Point(1, [])))], two)
    case 4 => World([OUTER], two)
    case 5 => World([Level(0, On(Point(2, [])))], two)
    case 6 => World([OUTER], three)
    case 7 => World([OUTER, INNER], three)
    case 8 => World([Level(0, Lost)], four)
    case 9 => World([Level(0, Lost)], four)
    case 10 => World([OUTER], four)
    case _ => World([OUTER, INNER], four)
  }

  /** Every instruction of the example but the endless loop waits for a packet. */
  lemma Waits(i: nat)
    requires i < 3
    ensures Starved(Example(), i, [], []) && Settles(Example(), true, Point(i, []))
    ensures Coast(Example(), true, Point(i, [])) == [] && CoastEnd(Example(), true, Point(i, [])) == Point(i, [])
  {
    StarvedSettles(Example(), true, Point(i, []));
    assert Sorted(Example().insts);
    CoastsNowhere(Example(), true, Point(i, []));
  }

  lemma AllWait(k: nat)
    ensures WorldOk(Example(), WorldAt(k)) && AllSettle(Example(), true, WorldAt(k).levels)
    ensures forall level | level in WorldAt(k).levels ::
              PlaceSettles(Example(), true, level.place) && Pending(Example(), true, level.place) == []
  {
    Waits(0);
    Waits(1);
    Waits(2);
  }

  lemma {:induction false} NothingGivenUp(levels: seq<Level>)
    requires (forall k | 0 <= k < |levels| :: PlaceOk(Example(), levels[k].place)) && AllSettle(Example(), true, levels)
    requires forall k | 0 <= k < |levels| :: Pending(Example(), true, levels[k].place) == []
    ensures GivenUp(Example(), true, levels) == []
    decreases |levels|
  {
    hide Pending, PlaceSettles;
    if levels != [] {
      NothingGivenUp(levels[..|levels| - 1]);
    }
  }

  lemma FindsAll()
    ensures StartIndex(Example(), 0x1000) == Some(0) && StartIndex(Example(), 0x1002) == Some(1)
    ensures StartIndex(Example(), ENTRY) == Some(2)
  {
    FindsAt(0);
    FindsAt(1);
    FindsAt(2);
  }

  /** The branch jumps to itself once, and then does not. */
  function Twice(): seq<Act> {
    [Took(true), Took(false)]
  }

  lemma TwiceRuns()
    ensures PerformAll(Example(), true, Point(0, []), Twice()) == Some(Point(1, []))
    ensures Path(Example(), true, Point(0, []), Twice()) == [0, 0]
    ensures Carries(Bits(2, 2), Twice())
  {
    FindsAll();
    hide Find, StartIndex;
    assert Perform(Example(), true, Point(0, []), Took(true)) == Some(Point(0, []));
    assert Perform(Example(), true, Point(0, []), Took(false)) == Some(Point(1, []));
    assert Twice()[1..] == [Took(false)] && [Took(false)][1..] == [];
    assert Outs(Twice()) == [true, false] && [true, false][1..] == [false] && [false][1..] == [];
    assert Pow2(1) == 2 && Pow2(2) == 4;
  }

  lemma IdlesThere(w: World)
    requires WorldOk(Example(), w) && !Top(w).place.Kept?
    ensures Idle(Example(), true, w, []) == Some(w)
  {
    if Top(w).place.On? {
      assert Marks(|w.levels| - 1, [], true) == [] && w.log + [] == w.log;
      assert w.levels[|w.levels| - 1 := Top(w)] == w.levels;
    }
  }

  lemma NextStruck(log: seq<Mark>)
    ensures WorldOk(Example(), World([OUTER], log))
    ensures DoDeed(Example(), true, World([OUTER], log), Struck([], 0x1000, ENTRY)) == Some(World([OUTER, INNER], log))
  {
    FindsAll();
    IdlesThere(World([OUTER], log));
    assert [OUTER] + [INNER] == [OUTER, INNER];
    hide StartIndex, Idle;
  }

  lemma NextHome(log: seq<Mark>)
    ensures WorldOk(Example(), World([OUTER, INNER], log))
    ensures DoDeed(Example(), true, World([OUTER, INNER], log), Left([], 0x1000))
            == Some(World([OUTER], log + [Mark(1, 2, true)]))
  {
    FindsAll();
    IdlesThere(World([OUTER, INNER], log));
    assert [OUTER, INNER][..1] == [OUTER] && Marks(1, [2], true) == [Mark(1, 2, true)];
    hide StartIndex, Idle, Marks, AllSettle;
  }

  lemma NextElsewhere(log: seq<Mark>)
    ensures WorldOk(Example(), World([OUTER, INNER], log))
    ensures DoDeed(Example(), true, World([OUTER, INNER], log), Left([], 0x1002))
            == Some(World([Level(0, Lost)], log + [Mark(1, 2, true)]))
  {
    FindsAll();
    Waits(0);
    IdlesThere(World([OUTER, INNER], log));
    NothingGivenUp([OUTER]);
    assert [OUTER, INNER][..1] == [OUTER] && Marks(1, [2], true) == [Mark(1, 2, true)];
    assert log + [Mark(1, 2, true)] + [] == log + [Mark(1, 2, true)];
    hide StartIndex, Idle, Marks, GivenUp, Settles;
  }

  lemma NextOuter(log: seq<Mark>)
    ensures WorldOk(Example(), World([Level(0, On(Point(2, [])))], log))
    ensures DoDeed(Example(), true, World([Level(0, On(Point(2, [])))], log), Left([], 0x1000))
            == Some(World([OUTER], log + [Mark(0, 2, true)]))
  {
    FindsAll();
    IdlesThere(World([Level(0, On(Point(2, [])))], log));
    assert Marks(0, [2], true) == [Mark(0, 2, true)] && [Level(0, On(Point(2, [])))][0 := OUTER] == [OUTER];
    hide StartIndex, Idle, Marks, AllSettle;
  }

  lemma NextReported(log: seq<Mark>)
    ensures WorldOk(Example(), World([OUTER], log))
    ensures DoDeed(Example(), true, World([OUTER], log), Reported(Twice(), Bits(2, 2)))
            == Some(World([Level(0, On(Point(1, [])))], log + [Mark(0, 0, true), Mark(0, 0, true)]))
  {
    TwiceRuns();
    var after := Level(0, On(Point(1, [])));
    assert Marks(0, [0, 0], true) == [Mark(0, 0, true), Mark(0, 0, true)] && [OUTER][0 := after] == [after];
    hide Marks, Carries, PerformAll, Path, Twice;
  }

  lemma NextStopped(place: Spot, log: seq<Mark>)
    requires place == On(Point(1, [])) || place == Lost
    ensures WorldOk(Example(), World([Level(0, place)], log))
    ensures DoDeed(Example(), true, World([Level(0, place)], log), Stopped([], 0x1000)) == Some(World([OUTER], log))
  {
    FindsAll();
    Waits(1);
    IdlesThere(World([Level(0, place)], log));
    assert Marks(0, [], false) == [] && log + [] == log && [Level(0, place)][0 := OUTER] == [OUTER];
    hide StartIndex, Idle, Marks, Coast, CoastEnd, Settles;
  }

  lemma NextOverflowed(log: seq<Mark>)
    ensures WorldOk(Example(), World([OUTER], log))
    ensures DoDeed(Example(), true, World([OUTER], log), Overflowed([], ENTRY))
            == Some(World([Level(0, On(Point(2, [])))], log))
  {
    FindsAll();
    Waits(0);
    IdlesThere(World([OUTER], log));
    NothingGivenUp([OUTER]);
    assert log + [] == log;
    hide StartIndex, Idle, GivenUp, Settles;
  }

  lemma NextWorld(k: nat)
    requires k < 11
    ensures WorldOk(Example(), WorldAt(k)) && DoDeed(Example(), true, WorldAt(k), Deeds()[k]) == Some(WorldAt(k + 1))
  {
    var w := WorldAt(k);
    match k {
      case 0 => NextStruck(w.log);
      case 1 =>
        NextHome(w.log);
        assert w.log + [Mark(1, 2, true)] == WorldAt(2).log;
      case 2 => NextReported(w.log);
      case 3 => NextStopped(On(Point(1, [])), w.log);
      case 4 => NextOverflowed(w.log);
      case 5 => NextOuter(w.log);
      case 6 => NextStruck(w.log);
      case 7 => NextElsewhere(w.log);
      case 8 =>
      case 9 => NextStopped(Lost, w.log);
      case _ => NextStruck(w.log);
    }
    hide Idle, DoNext, Walk, Example, AllSettle;
  }

  lemma {:induction false} WorldsFollow(k: nat)
    requires k <= 11
    ensures WorldOk(Example(), WorldAt(k)) && DoDeeds(Example(), true, WorldAt(k), Deeds()[k..]) == Some(WorldAt(11))
    decreases 11 - k
  {
    AllWait(k);
    hide DoDeed, WorldAt;
    if k < 11 {
      NextWorld(k);
      WorldsFollow(k + 1);
      assert Deeds()[k..][0] == Deeds()[k] && Deeds()[k..][1..] == Deeds()[k + 1..];
    } else {
      assert Deeds()[11..] == [];
    }
  }

  // ---- Its report ----

  /** A time stamp and a synchronisation group first; a cycle packet inside a pair and after the overflow,
      and a process change in the handler. */
  function Stream(): seq<P.Packet> {
    [P.Tsc(5), P.Psb, P.Psb, P.Psb, P.Psb, P.Address(P.Fup, 3, 0x1000), P.Plain(P.Op.PsbEnd, []), P.Address(P.Fup,
     3, 0x1000), P.Cyc(9), P.Address(P.Tip, 3, ENTRY), P.Pip(32), P.Address(P.Tip, 3, 0x1000), P.Tnt(2, 2),
     P.Address(P.TipPgd, 0, 0), P.Address(P.TipPge, 3, 0x1000), P.Plain(P.Op.Ovf, []), P.Cyc(3), P.Address(P.Fup,
     3, ENTRY), P.Address(P.Tip, 3, 0x1000), P.Address(P.Fup, 3, 0x1000), P.Address(P.Tip, 3, ENTRY),
     P.Address(P.Tip, 3, 0x1002), P.Tnt(1, 1), P.Address(P.TipPgd, 0, 0), P.Address(P.TipPge, 3, 0x1000),
     P.Address(P.Fup, 3, 0x1000), P.Address(P.Tip, 3, ENTRY)]
  }

  function Told(): seq<Step> {
    [Entered(0x1000, ENTRY), Given(Target(0x1000)), Given(Bits(2, 2)), Resumed(0x1000), Restarted(ENTRY),
     Given(Target(0x1000)), Entered(0x1000, ENTRY), Given(Target(0x1002)), Given(Bits(1, 1)), Resumed(0x1000),
     Entered(0x1000, ENTRY)]
  }

  lemma ToldIsReport()
    ensures StepsOf(Deeds()) == Told()
  {
  }

  lemma SplitTold()
    ensures |Told()| == 11
    ensures forall k | 0 <= k < 11 :: Told()[k..][0] == Told()[k] && Told()[k..][1..] == Told()[k + 1..]
    ensures Told()[0..] == Told()
  {
  }

  lemma Reached()
    ensures forall mode | mode != 0 ::
              && Known(Example(), mode, 0x1000) && Known(Example(), mode, 0x1002) && Known(Example(), mode, ENTRY)
  {
    FindsAt(0);
    FindsAt(1);
    FindsAt(2);
  }

  /** The report from packet k on, once the earlier ones were sent. */
  predicate From(k: nat, steps: seq<Step>, t: Tracer) {
    k <= |Stream()| && Reports(Example(), Config(0, 1), Stream()[k..], steps, t)
  }

  lemma QuietFrom(k: nat, steps: seq<Step>, t: Tracer)
    requires k < |Stream()| && Quiet(Example(), Config(0, 1), t, Stream()[k])
    requires Stops(Stream()[k]) ==> steps == [] || steps[0].Resumed?
    requires Loses(Stream()[k]) ==> steps != [] && steps[0].Restarted?
    requires From(k + 1, steps, After(t, Stream()[k]))
    ensures From(k, steps, t)
  {
    hide Quiet, After, Stream;
    assert Stream()[k..][0] == Stream()[k] && Stream()[k..][1..] == Stream()[k + 1..];
  }

  lemma TellsFrom(k: nat, steps: seq<Step>, t: Tracer)
    requires k < |Stream()| && !Quiet(Example(), Config(0, 1), t, Stream()[k])
    requires steps != [] && Tells(Example(), t, Stream()[k], steps[0]) && From(k + 1, steps[1..], After(t, Stream()[k]))
    ensures From(k, steps, t)
  {
    hide Quiet, Tells, After, Stream;
    assert Stream()[k..][0] == Stream()[k] && Stream()[k..][1..] == Stream()[k + 1..];
  }

  lemma Part3()
    ensures From(20, Told()[6..], Tracer(Transfer(0x1000, 0), 0, false, false, 0, None))
  {
    Reached();
    Half3();
    SplitTold();
    hide Known, From;
    QuietFrom(23, Told()[9..], Tracer(Out, 0, false, false, 0, None));
    TellsFrom(22, Told()[8..], Tracer(Out, 0, false, false, 0, None));
    TellsFrom(21, Told()[7..], Tracer(Out, 0, false, false, 0, None));
    TellsFrom(20, Told()[6..], Tracer(Transfer(0x1000, 0), 0, false, false, 0, None));
  }

  lemma Half3()
    ensures From(24, Told()[9..], Tracer(Off, 0, false, false, 0, None))
  {
    Reached();
    assert Told()[11..] == [] && Stream()[27..] == [];
    assert From(27, Told()[11..], Tracer(Out, 0, false, false, 0, None));
    SplitTold();
    hide Known, From;
    TellsFrom(26, Told()[10..], Tracer(Transfer(0x1000, 0), 0, false, false, 0, None));
    QuietFrom(25, Told()[10..], Tracer(Out, 0, false, false, 0, None));
    TellsFrom(24, Told()[9..], Tracer(Off, 0, false, false, 0, None));
  }

  lemma Part2()
    ensures From(14, Told()[3..], Tracer(Off, 0, false, false, 32, None))
  {
    Reached();
    Part3();
    SplitTold();
    hide Known, From;
    QuietFrom(19, Told()[6..], Tracer(Out, 0, false, false, 0, None));
    TellsFrom(18, Told()[5..], Tracer(Out, 0, false, false, 0, None));
    TellsFrom(17, Told()[4..], Tracer(Dark(1), 0, false, false, 0, None));
    QuietFrom(16, Told()[4..], Tracer(Dark(0), 0, false, false, 0, None));
    QuietFrom(15, Told()[4..], Tracer(Out, 0, false, false, 32, None));
    TellsFrom(14, Told()[3..], Tracer(Off, 0, false, false, 32, None));
  }

  lemma Part1()
    ensures From(7, Told(), Tracer(Out, 0, false, false, 0, Some(Stamp(5, 6))))
  {
    Reached();
    Half1();
    SplitTold();
    hide Known, From;
    QuietFrom(10, Told()[1..], Tracer(Out, 0, false, false, 0, Some(Stamp(5, 9))));
    TellsFrom(9, Told(), Tracer(Transfer(0x1000, 1), 0, false, false, 0, Some(Stamp(5, 8))));
    QuietFrom(8, Told(), Tracer(Transfer(0x1000, 0), 0, false, false, 0, Some(Stamp(5, 7))));
    QuietFrom(7, Told(), Tracer(Out, 0, false, false, 0, Some(Stamp(5, 6))));
  }

  lemma Half1()
    ensures From(11, Told()[1..], Tracer(Out, 0, false, false, 32, Some(Stamp(5, 10))))
  {
    Reached();
    Part2();
    SplitTold();
    hide Known, From;
    QuietFrom(13, Told()[3..], Tracer(Out, 0, false, false, 32, Some(Stamp(5, 12))));
    TellsFrom(12, Told()[2..], Tracer(Out, 0, false, false, 32, Some(Stamp(5, 11))));
    TellsFrom(11, Told()[1..], Tracer(Out, 0, false, false, 32, Some(Stamp(5, 10))));
  }

  lemma Part0()
    ensures From(0, Told(), Tracer(Out, 0, false, false, 0, None))
  {
    Reached();
    Part1();
    SplitTold();
    hide Known, From;
    QuietFrom(6, Told(), Tracer(Group, 4, false, false, 0, Some(Stamp(5, 5))));
    QuietFrom(5, Told(), Tracer(Group, 4, false, false, 0, Some(Stamp(5, 4))));
    QuietFrom(4, Told(), Tracer(Group, 3, false, false, 0, Some(Stamp(5, 3))));
    QuietFrom(3, Told(), Tracer(Group, 2, false, false, 0, Some(Stamp(5, 2))));
    QuietFrom(2, Told(), Tracer(Group, 1, false, false, 0, Some(Stamp(5, 1))));
    QuietFrom(1, Told(), Tracer(Out, 0, false, false, 0, Some(Stamp(5, 0))));
    QuietFrom(0, Told(), Tracer(Out, 0, false, false, 0, None));
  }

  // ---- Its bytes ----

  /** Packets that can be sent in any state outside a block, and leave it so. */
  ghost predicate Sendable(p: P.Packet) {
    !p.Bbp? && forall lastIp: nat :: P.WellFormed(P.State(lastIp, false), p)
  }

  lemma {:induction false} SendableFits(s: P.State, ps: seq<P.Packet>)
    requires !s.inBlock && forall p | p in ps :: Sendable(p)
    ensures Streams.WellFormedAll(s, ps)
    decreases |ps|
  {
    if ps != [] {
      var p := ps[0];
      assert Sendable(p) && P.WellFormed(P.State(s.lastIp, false), p);
      hide P.WellFormed, Sendable;
      SendableFits(P.NextState(s, p), ps[1..]);
    }
  }

  lemma AddressSendable(op: P.IpOp, ip: nat)
    requires 0x1000 <= ip <= 0x2000 || ip == ENTRY
    ensures Sendable(P.Address(op, 3, ip))
  {
  }

  lemma OthersSendable()
    ensures Sendable(P.Tsc(5)) && Sendable(P.Psb) && Sendable(P.Plain(P.Op.PsbEnd, []))
            && Sendable(P.Plain(P.Op.Ovf, []))
    ensures Sendable(P.Cyc(9)) && Sendable(P.Cyc(3)) && Sendable(P.Pip(32)) && Sendable(P.Tnt(2, 2))
            && Sendable(P.Tnt(1, 1))
    ensures Sendable(P.Address(P.TipPgd, 0, 0))
  {
  }

  lemma StreamSendable()
    ensures forall p | p in [P.Address(P.TipPge, 3, 0x1000)] + Stream() :: Sendable(p)
  {
    OthersSendable();
    forall op: P.IpOp ensures Sendable(P.Address(op, 3, 0x1000)) && Sendable(P.Address(op, 3, 0x1002)) {
      AddressSendable(op, 0x1000);
      AddressSendable(op, 0x1002);
    }
    AddressSendable(P.Fup, ENTRY);
    AddressSendable(P.Tip, ENTRY);
    hide Sendable;
  }

  function FirstDecoder(): Decoder {
    Decoder(P.State(0, false), Sys(Initial(), [], Ticks.Initial(), 0, 0, false, false))
  }

  lemma Starts()
    ensures SysOk(Example(), FirstDecoder().sys) && Sorted(Example().insts)
    ensures StartIndex(Example(), 0x1000).Some?
    ensures var m := EndToEnd.Started(FirstDecoder().sys);
            m.idx < |m.ctxs| && Drained(m.ctxs[m.idx]) && Opened(Example(), m, 0x1000) == WorldAt(0)
    ensures Known(Example(), 3, 0x1000)
  {
    FindsAll();
    Reached();
    hide StartIndex, Find;
  }

  lemma StreamReports()
    ensures SysOk(Example(), FirstDecoder().sys)
    ensures EndToEnd.IsReport(Example(), Config(0, 1), FirstDecoder().sys, 3, 0x1000, Deeds(), Stream())
  {
    FindsAll();
    Starts();
    WorldsFollow(0);
    AllWait(11);
    AllWait(0);
    assert Deeds()[0..] == Deeds() && Stream()[0..] == Stream();
    Part0();
    ToldIsReport();
    hide StartIndex, Find, Known, Reports, Stream, Deeds, Told, DoDeeds, AllSettle, WorldAt, MachOk, StepsOf, Opened;
  }

  /** Decoding the bytes of this report logs, at both depths, exactly what was executed there. */
  lemma ExampleDecoded()
    ensures SysOk(Example(), FirstDecoder().sys)
    ensures Streams.WellFormedAll(FirstDecoder().parser, [P.Address(P.TipPge, 3, 0x1000)] + Stream())
    ensures var bytes := Streams.PrintAll(FirstDecoder().parser, [P.Address(P.TipPge, 3, 0x1000)] + Stream());
            var r := Decode(Example(), Config(0, 1), FirstDecoder(), bytes);
            r.Some? && AtDepth(r.value.sys.mach.log, 0) == [0, 0, 2] && AtDepth(r.value.sys.mach.log, 1) == [2, 2]
  {
    StreamReports();
    StreamSendable();
    SendableFits(FirstDecoder().parser, [P.Address(P.TipPge, 3, 0x1000)] + Stream());
    var bytes := Streams.PrintAll(FirstDecoder().parser, [P.Address(P.TipPge, 3, 0x1000)] + Stream());
    StoryDone();
    hide Stream, Deeds, Decode, Streams.PrintAll, Streams.WellFormedAll, EndToEnd.IsReport, EndToEnd.Recovered,
         MachOk, StartIndex, DoDeeds, WorldAt, Opened, EndToEnd.Begins, FirstDecoder, Example;
    EndToEnd.BytesToPath(Example(), Config(0, 1), FirstDecoder(), 3, 0x1000, Deeds(), Stream());
    ReadOff(EndToEnd.SysOf(Decode(Example(), Config(0, 1), FirstDecoder(), bytes)));
  }

  /** The story can be told to its end. */
  lemma StoryDone()
    ensures SysOk(Example(), FirstDecoder().sys) && Sorted(Example().insts) && StartIndex(Example(), 0x1000).Some?
    ensures EndToEnd.Begins(Example(), FirstDecoder().sys, 0x1000)
    ensures DoDeeds(Example(), true, Opened(Example(), EndToEnd.Started(FirstDecoder().sys), 0x1000), Deeds())
            == Some(WorldAt(11))
  {
    Starts();
    AllWait(0);
    WorldsFollow(0);
    assert Deeds()[0..] == Deeds();
    hide DoDeeds, WorldAt, Deeds, StartIndex, MachOk;
  }

  lemma ReadOff(r: Option<Sys>)
    requires SysOk(Example(), FirstDecoder().sys) && StartIndex(Example(), 0x1000).Some?
    requires EndToEnd.Begins(Example(), FirstDecoder().sys, 0x1000)
    requires DoDeeds(Example(), true, Opened(Example(), EndToEnd.Started(FirstDecoder().sys), 0x1000), Deeds()).Some?
    requires EndToEnd.Recovered(Example(), FirstDecoder().sys, 0x1000, Deeds(), r)
    ensures r.Some? && AtDepth(r.value.mach.log, 0) == [0, 0, 2] && AtDepth(r.value.mach.log, 1) == [2, 2]
  {
    StoryDone();
    FinalLog();
    NothingBefore([0, 0, 2]);
    NothingBefore([2, 2]);
    assert FirstDecoder().sys.mach.log == [];
    hide DoDeeds, WorldAt, Deeds, StartIndex, MachOk, Stands, Shown, AtDepth, Opened, AllSettle, WorldOk;
  }

  lemma FinalLog()
    ensures WorldOk(Example(), WorldAt(11)) && AllSettle(Example(), true, WorldAt(11).levels)
    ensures Shown(Example(), true, WorldAt(11), 0) == [0, 0, 2] && Shown(Example(), true, WorldAt(11), 1) == [2, 2]
  {
    hide WorldAt;
    AllWait(11);
    FinalMarks();
    FinalShown(WorldAt(11), 0);
    FinalShown(WorldAt(11), 1);
    hide Pending, LoggedAt, Shown, AllSettle, PlaceSettles, WorldOk, Example;
  }

  lemma NothingBefore(path: seq<nat>)
    ensures AtDepth([], 0) + path == path && AtDepth([], 1) + path == path
  {
  }

  lemma FinalShown(w: World, d: nat)
    requires WorldOk(Example(), w) && AllSettle(Example(), true, w.levels) && d < |w.levels|
    requires forall level | level in w.levels ::
               PlaceSettles(Example(), true, level.place) && Pending(Example(), true, level.place) == []
    ensures Shown(Example(), true, w, d) == LoggedAt(w.log, d)
  {
    assert w.levels[d] in w.levels;
    hide Pending, LoggedAt, PlaceSettles;
  }

  lemma FinalMarks()
    ensures LoggedAt(WorldAt(11).log, 0) == [0, 0, 2] && LoggedAt(WorldAt(11).log, 1) == [2, 2]
            && |WorldAt(11).levels| == 2
  {
    var log := WorldAt(11).log;
    assert log[1..] == [Mark(0, 0, true), Mark(0, 0, true), Mark(0, 2, true), Mark(1, 2, true)];
    assert log[1..][1..] == [Mark(0, 0, true), Mark(0, 2, true), Mark(1, 2, true)];
    assert log[1..][1..][1..] == [Mark(0, 2, true), Mark(1, 2, true)];
    assert log[1..][1..][1..][1..] == [Mark(1, 2, true)];
    assert log[1..][1..][1..][1..][1..] == [];
  }
}
