# Intel PT decoding and path replay: a Dafny model

The modelled program records the Intel Processor Trace of a process and its kernel, decodes it, and
reconstructs the executed path. Bytes come out of a ring the processor writes; a decoder turns them into
packets; packets carry branch outcomes, target addresses and asynchronous transfers; a replay walks a table of
decoded instructions and consumes them, with one context per level of nested interrupts. This project models
those layers and proves that they fit together: from the bytes of the packets that report an execution, with
everything a tracer sends in between, the replay recovers, at every interrupt depth, the instructions that were
executed. Where packets never tell how a level went on, because its handler did not return to it or packets were
lost, it has also logged the instructions up to the next one that waits for a packet; an if-and-only-if says when
the log is exact. "Left out" says which packets a report does not contain.

Pure definitions say what each layer does; classes with the program's own mutable state (ring queues, call
stack, context stack, packet history ring, timing variables, instruction table with caches and hint, page and
module tables, copy buffers, expression stack) are proved equal to them method by method. A deliberate stop after an
error message (`for (;;) {}`) is a `None` result or a false answer, and every method's contract says exactly when it
happens. A run into an endless loop of instructions that need no packet, where the program does not return either,
counts as such a stop; only the loops in place assume that the table holds none.

Layers and modules:

- **Instruction table**: `Program`, `Lookup` (search with hint and caches), `Modules` and `Loader` (kernel module
  list, instruction classification, linear sweep), `Sweeps` (what a load contains).
- **Replay**: `Silent` (termination), `Replay` (one context), `ReplayTheory` (composition of partial replays),
  `Machine` (context stack), `Interrupts` (transparency); in place: `Rings`, `Contexts`, `Turns`, `Replayer`.
- **Executions**: `Execution`, `Outcomes` (packed branch outcomes), `Reconstruction` (the path theorem), `AnyProcess` (page directories do not matter),
  `Stories` (whole executions, deed by deed), `Variants` (packet order, compressed returns), `CallStack` (shadow
  stack), `Witness` (an example the path theorem applies to).
- **Decoder**: `Bytes`, `Arithmetic`, `IpCompression`, `Packets`, `PacketTheory`, `Streams` (parser and printer), `Layouts` (bytes as
  the manual lays them out),
  `PacketLog` and `PacketRing` (history and pairing), `Ticks` and `Timers` (tick counter), `Decoding` (what each packet does),
  `DecoderPairs` and `Bookkeeping` (invariants of whole runs); in place: `Online`.
- **Whole chain**: `AuxRing` (ring to flat buffer), `Reporting` (what a tracer sends for an execution), `EndToEnd`
  (bytes and ring records to path), `ChainWitness` (an example that goes all the way), `Failures` (inputs that fail).
- **Memory of the traced process**: `Kmaps`, `Mirrors` (page mirror and address translation), `Dwarf`, `DwarfText`
  (expressions), `Reads` (what expressions read).

The main theorems are `EndToEnd.BytesToPath`, `EndToEnd.RingToPath`, `EndToEnd.LogIsExact`, `Stories.StoryRecovered`,
`Reconstruction.PathRecovered`, `Interrupts.InterruptsTransparent`, `Variants.CompressionPreserves`,
`ReplayTheory.FeedOrderIrrelevant`, `Streams.StreamRoundTrip`, `Streams.ChunksExactly`, `Decoding.OnlineIsOffline`,
`DecoderPairs.PairsInEveryRun`, `Bookkeeping.PacketTicks`, `Mirrors.TranslationIsTrue`,
`Kmaps.HistoryFreeIff`, `Reads.ExpressionIsTrue`, `Loader.LoadedIsSorted`, `Sweeps.LoadedExactly` and `Dwarf.ExecuteMeans`; and, for the code
in its own form, `Replayer.Session.Resume` and `Online.Decoder.DecodeOnline`.

The configuration is that of the Makefile (MTC timing, kernel code loaded); return compression is a flag of the
layout, so one definition covers both builds. The instruction decoder is a parameter that returns category, class,
length, attributes and branch displacement. The packet layouts are those of the Intel SDM, Volume 3C, chapter
"Intel Processor Trace"; the expression operators are those of DWARF 5, section 2.5.1.

What the proofs showed about the code, where a promise does not hold in general:

- A tick packet leaves the count right only up to the next wrap of the counter, and after a loss only up to 255 ticks
  (256 off the anchor's phase): `Ticks.TickCounts` and `Ticks.LostTickCounts` give both directions,
  `Failures.TicksMissed` and `Failures.LossMissed` an input each.
- With return compression a target must not be replayed before the packets that precede it:
  `Variants.EarlyBitMisread` gives the condition, `Failures.EarlyBitStops` an input.
- The replay runs ahead of the processor. At a level whose handler does not return to it, or that is given up after an
  overflow or a return elsewhere, the log may hold instructions that were not executed: `Stories.ShownIsExecuted`
  gives the condition, `Failures.RunsAhead` an input.
- A chunk boundary inside a packet always changes what is read, and a boundary between packets never does:
  `Streams.ChunksExactly`; `Streams.StraddlingMisread` is an input.
- The upper comparison of the address translation is inclusive, so an address where one mirrored mapping ends and
  the next begins is translated by whichever was looked up last, unless the mirrors adjoin: `Kmaps.SharedEnd`,
  `Kmaps.HistoryFreeIff` and `Mirrors.SharedEndIsTrue` give the conditions, `Failures.TwoAnswers` an input.
- A page that could not be pinned shifts the mirror of all later pages of its mapping: `Mirrors.TranslationIsTrue`
  gives the condition, `Failures.MiddleShowsLast` an input.
- The search's hint survives a new table. In a shorter one it is stale, and covered addresses may be missed:
  `Kmaps.StaleProbeExactly` gives the condition, `Failures.StaleProbeMisses` an input.
- An overfull ring is noticed only at the record after the one that was overwritten: `AuxRing.IntactIff` says when a
  record is intact, `AuxRing.AllButLast` that all but the last of an accepted run are, `AuxRing.OverfullAccepted` is
  an accepted record that is wrong.

## Model

| member | source | states |
|---|---|---|
| Lookup.Finder.FindInst | src/xed.c:1289-1346 | whatever was looked up before, the binary search with its surviving hint and two caches gives the plain scan's answer, and answers an entry exactly if that entry's bytes hold the address, which is not null, lies below the end of user space or from the kernel text on, and below the end of the last module |
| Lookup.Finder.Narrow | src/xed.c:1324-1345 | if no instruction outside two bounds holds the address, the narrowing loop between them returns the scan's answer |
| Lookup.Finder.Probe | src/xed.c:1302-1308 | a cache hit is never wrong: the slot answers only when it is the instruction the scan finds |
| Lookup.Finder.Append | src/xed.c:199-331 | appending an instruction above all others keeps the table sorted and every cache entry valid |
| Program.ScanIsUnique | src/xed.c:1289-1346 | in a sorted table any instruction that holds an address is the one the scan finds |
| Program.FindMeans | src/xed.c:1289-1346 | an entry is found for an address if and only if its bytes hold it and it is an address of user space or of the kernel up to the end of the last module, and not null |
| Program.ResolveMeans | src/xed.c:866-902 | an address without an instruction loses the position if and only if neither the traced process nor the kernel runs there, or an anonymous mapping and no kernel range holds it; it stops the decoder otherwise |
| Program.AppendKeepsAnswers | src/xed.c:1289-1346 | loading further instructions above changes no answer for addresses already covered |
| Program.FallThroughIsNext | src/xed.c:945-957 | in a sorted table the instruction that begins at the next byte in memory is the next table entry |
| Silent.EndsAtAll | src/xed.c:923-950 | a run of non-branches and direct jumps that ends at all ends within as many steps as there are instructions |
| Silent.RunEnds | src/xed.c:923-950 | in a table without a cycle of such instructions every run ends |
| Silent.EndsNext | src/xed.c:923-950 | the run from an instruction ends exactly when the run from the next one does |
| Silent.RankDecreases | src/xed.c:923-950 | each step of a run that ends brings its end strictly nearer |
| Silent.CycleNeverEnds | src/xed.c:923-950 | conversely, from an instruction on such a cycle the run never ends |
| ReplayTheory.SilentStepAlwaysMoves | src/xed.c:923-950 | a step of such a run needs and takes no packet and leaves the stack alone, so the condition is also necessary |
| Replay.DecideMeans | src/xed.c:923-1237 | exactly when one turn waits (a branch without its outcome, a transfer without its target), stops (end of the table, 255 open calls, an outcome that is not that of a compressed return, an address that stops), or moves, and then where to |
| Replay.CtxProgress | src/xed.c:923-1237 | every turn of the loop that moves from a position whose silent run ends strictly lowers (bits and targets queued, free call-stack slots, distance to the next consuming instruction) |
| ReplayTheory.RunRefines | src/xed.c:904-1238 | the loop over queued packets, with used-up packets retired lazily, computes what the loop over plain bits and targets computes |
| ReplayTheory.PauseIsStarved | src/xed.c:904-1238 | a replay that returns has lost its position, or sits at a conditional branch without bits or an indirect or far transfer without a target, keeps no used-up packet, and would not move if resumed |
| ReplayTheory.DecisionStands | src/xed.c:969-1235 | a decision to move or stop is not changed by packets that arrive later; with compressed returns, as long as no target is queued |
| ReplayTheory.QueueStops | src/xed.c:152-197 | queueing stops exactly on a full queue of 1023 packets or on a target above the last instruction |
| ReplayTheory.RunComposes | src/xed.c:904-1238 | replaying what is there and then the rest is replaying everything at once; with compressed returns, as long as no target is queued yet |
| ReplayTheory.FeedingIsOneRun | src/xed.c:152-197 | feeding packets one call at a time ends where one replay of all bits and all targets ends |
| ReplayTheory.FeedOrderIrrelevant | src/xed.c:904-1238 | without return compression, any two interleavings and groupings of the same bits and targets give the same path, position, call stack and left-over packets |
| Machine.TurnMoves | src/xed.c:923-1237 | one turn inside a context leaves the outcome of the whole replay unchanged |
| Machine.TurnExits | src/xed.c:1202-1229 | a turn that executes an interrupt return continues in the context below, resets everything, or stops, by the checks at the exit |
| Machine.RaiseOk | src/xed.c:1257-1277 | opening a context above a drained one keeps: only the active context holds packets, and contexts above it hold no calls |
| Machine.EnterRefused | src/xed.c:1257-1277 | an interrupt is refused exactly while packets are queued, in the last of the 25 contexts, or where its handler cannot be started with the interrupted address kept in the context above |
| Machine.StartMeans | src/xed.c:866-902 | started where no instruction is, the replay stops, or loses its position and nothing else; where one is, it goes on from there |
| Machine.ResetOk | src/xed.c:1240-1255 | a reset keeps the same invariant |
| Interrupts.LevelPlays | src/xed.c:904-1277 | playing nested events on the machine is playing the level's own packets on its context alone: contexts below are untouched and the log grows by the level's path and the handlers' paths |
| Interrupts.InterruptPlays | src/xed.c:1202-1277 | one complete interrupt leaves the interrupted context and all below it exactly as they were |
| Interrupts.InterruptsTransparent | src/xed.c:1202-1277 | with and without its interrupts a level ends in the same contexts and with the same logged path at its own depth and below |
| Execution.Follows | src/xed.c:904-1238 | a replay given the bits and targets of any acts of the processor first executes exactly those acts and is then where the processor is, with the remaining packets |
| Execution.DecidesAnAct | src/xed.c:923-1237 | conversely, whatever is queued, every move of the replay is an act of a processor that reports exactly the packets the move uses; and if an instruction begins where control then goes, both go there, with the same calls open |
| Reconstruction.PacketFollows | src/xed.c:904-1238 | one packet takes a context that has run ahead of the execution to one that is ahead of the next point, the paths agreeing |
| Reconstruction.LevelFollows | src/xed.c:904-1238 | the packets of any level of an execution make its context execute exactly that level's instructions, ending at its last instruction or with its interrupt return |
| Reconstruction.InnerIsAbove | src/xed.c:1202-1277 | what the handlers execute at each depth is what the execution executed there |
| Reconstruction.PathRecovered | src/xed.c:904-1277 | for every sorted program, whatever endless loops it holds, and every execution at a level whose handlers, nested below 25 contexts, all return to where they were called from, with any choice of compressed returns, and each packet holding the packed outcomes, oldest first, or the target of its acts, the replay of these packets does not stop and logs at every depth exactly the executed instructions, up to the first without a packet, with the same final call stack and no packet left over |
| Outcomes.PackedUnpacks | src/xed.c:969-1009 | any row of outcomes, packed with the oldest at the highest weight as a tracer sends them, is unpacked by the replay to exactly those outcomes in order |
| Outcomes.CarriesFeeds | src/xed.c:152-197 | a packet that carries the packed outcomes or the target of some acts feeds the replay exactly those bits and targets |
| Outcomes.EveryOutcomeCarried | src/xed.c:152-197 | every row of acts that reports outcomes only has a packet that carries it |
| Stories.StoryRecovered | src/xed.c:775-1277 | for every execution, deed by deed, from any replay that stands where it begins: packets, interrupts whose handlers return, return elsewhere or never end, interrupt returns of the outermost level, pauses of tracing at any level, lost packets, and packets without a position. The replay does not stop, every open context ends where its level is, run ahead as far as no packet is needed, and the log has grown at every depth by what was executed there and what was run ahead over; every step does so under any page directory |
| Stories.ShownIsExecuted | src/xed.c:904-1277 | the log at a depth is exactly what was executed there if and only if nothing was given up that the replay had run ahead over, and a level open there is at an instruction that waits for a packet |
| Stories.CoastIs | src/xed.c:923-1025 | with nothing queued the replay executes exactly the instructions up to the next one that waits for a packet, under any page directory |
| Stories.CoastsNowhere | src/xed.c:923-1025 | it executes none of them exactly at an instruction that waits |
| Stories.HomeShows | src/xed.c:1202-1229 | a return to where the handler was called from makes the context below active again, unmoved |
| Stories.ElsewhereShows | src/xed.c:1202-1255 | a return elsewhere is logged, and then every context is forgotten |
| Stories.OuterShows | src/xed.c:1202-1229 | an interrupt return of the outermost context is executed and the replay goes on afresh at its target |
| Stories.StoppedShows | src/xed.c:840-855 | where tracing stops and starts again, at any level, the replay goes on at the new address with the calls it had open |
| Stories.OverflowedShows | src/xed.c:775-786 | after lost packets every context is forgotten, and the replay goes on in the outermost one at the address that follows |
| Stories.PlayInARow | src/xed.c:904-1277 | nesting of events matters only for their order |
| AnyProcess.RunAnyProcess | src/xed.c:866-902 | a run that never loses its position does the same under any page directory |
| Witness.ExampleReplayed | src/xed.c:904-1277 | a concrete program, which also holds an endless loop, and an execution with an interrupt with a packet of two outcomes and a handler in the kernel meet the premises of the path theorem, and the replay logs exactly the branches and, one level up, the handler's return |
| ChainWitness.ExampleDecoded | src/intel_pt.c:776-1336 | a concrete byte stream meets every premise of the whole chain and is decoded to exactly the expected log at both depths: a synchronisation group, a packet of two outcomes, a kernel handler, a served interrupt with a cycle packet inside its pair, a process change, tracing stopped and started twice, an overflow, an outermost interrupt return, a handler that returns elsewhere, a packet without a position, and a handler that never ends |
| Failures.TicksMissed | src/intel_pt.c:476-502 | 300 ticks without a packet: 44 are counted |
| Failures.LossMissed | src/intel_pt.c:476-502 | 256 ticks lost on the anchor's phase: none is counted |
| Failures.EarlyBitStops | src/xed.c:1044-1088 | a later branch's bit that is queued before a return's target stops the decoder, which without the bit replays the return |
| Failures.RunsAhead | src/xed.c:923-1025 | a plain instruction is interrupted and the handler does not end: the replay has logged the instruction, the processor has not executed it |
| Failures.TwoAnswers | kmod/main.c:244-326 | a mapping of two pages whose second cannot be pinned, and a mapping that begins at its end: the shared address is translated in two ways, by what was looked up before, and one of them shows nothing |
| Failures.StaleProbeMisses | src/kmod.c:109-141 | after a shorter table was handed over a covered address is answered with zero |
| Failures.MiddleShowsLast | kmod/main.c:244-326 | of three pages the middle one cannot be pinned: its address is answered with the mirror of the last |
| Variants.PathRecoveredInAnyOrder | src/xed.c:904-1238 | without return compression the executed path is recovered whatever order and grouping the packets arrive in |
| Variants.CompressionPreserves | src/xed.c:1044-1088 | two reports of an execution that differ in which predicted returns are compressed, in the grouping of outcomes and in the interrupts served: the replay of either goes through, both log the same path at the level and below, and both end at the same position with the same call stack |
| Variants.CompressionPreservesAll | src/xed.c:1044-1088 | if the two reports serve the same interrupts with the same handlers, whatever is compressed in them and however it is grouped, the two logs agree at every depth |
| Variants.ShapeMeans | src/xed.c:1044-1088 | what a trace executes at every depth does not depend on which returns are compressed and how acts are grouped into packets |
| Variants.LevelIsOnePath | src/xed.c:904-1238 | the path of a level is the path of its acts, whatever packets and interrupts lie between |
| Variants.EarlyBitMisread | src/xed.c:1044-1088 | a return reported by its target is replayed from it if and only if no later bit is queued or the return cannot be compressed: compression is not compiled in, no call is open, or the last one was not made with compression on; why feeding in order is needed |
| CallStack.StackIsShadow | src/xed.c:1010-1025 | while returns match, the replayed stack lists the calls a backward reading of the path finds open, with the predicted return addresses |
| CallStack.ShadowSinceMismatch | src/xed.c:1108-1132 | a mismatching return empties the stack, and from then on it lists the calls open since |
| CallStack.BalancedRestores | src/xed.c:1010-1132 | a segment whose calls and returns balance restores the stack |
| CallStack.PredictionIsNextByte | src/xed.c:1010-1025 | the predicted return address is the next byte in memory whenever an instruction begins there |
| CallStack.PredictionIsLowest | src/xed.c:1010-1025 | whatever follows a call, the predicted return is the lowest address above it at which an instruction begins, or 0 if there is none |
| CallStack.OpenDrops | src/xed.c:1108-1132 | a return closes the innermost open call: pending returns drop that many calls from the end of the list |
| Contexts.Context.AddTnt | src/xed.c:152-175 | the ring queue appends the outcome packet, or refuses when full; empty packets are ignored |
| Contexts.Context.PopCall | src/xed.c:1108-1132 | a return pops the predicted call, and empties the stack on a mismatch |
| Turns.Step | src/xed.c:923-1237 | one turn in place, with lookup, queues and call stack updated, is the decision of the specification |
| Replayer.Session.Resume | src/xed.c:904-1238 | the whole in-place loop terminates and ends in exactly the specified machine, or stops exactly when it does |
| Replayer.Session.ProcessBranches | src/xed.c:904-1238 | queueing bits and a target and resuming, in place, is the specified step |
| Replayer.Session.LeaveHandler | src/xed.c:1202-1229 | the exit checks, in place, decide as specified: stop, reset, or resume the context below |
| Replayer.Session.ResetAll | src/xed.c:1240-1255 | the active context and all below it are emptied and the outermost one becomes active; the saved sources and the contexts above stay |
| Replayer.Session.AsyncEnter | src/xed.c:1257-1277 | an asynchronous transfer, in place: refused unless the active context is drained and a context is free |
| Replayer.Session.UpdateLastInst | src/xed.c:866-902 | an address becomes the position, or loses it, or stops, as specified |
| Replayer.Session.Overflow | src/xed.c:775-786 | an overflow forgets process, positions and compression |
| Replayer.Session.Disable | src/xed.c:840-855 | tracing ends only with empty queues |
| IpCompression.DecodesOne | src/intel_pt.c:608-708 | a compressed address is decoded to the original if and only if the tracer's choice of length was legal |
| IpCompression.SessionRoundTrip | src/intel_pt.c:591-723 | for any legal choices, with suppressed addresses and PSB resets anywhere, the decoder sees the addresses sent, and its reference is the latest address sent since the latest reset, read backwards, or 0 |
| PacketTheory.PacketRoundTrip | src/intel_pt.c:794-1302 | any well-formed packet, followed by anything, is parsed back from its bytes with its length |
| PacketTheory.CyclesRoundTrip | src/intel_pt.c:1250-1277 | a cycle count printed in groups of seven bits is read back whole |
| PacketTheory.TntRoundTrip | src/intel_pt.c:1278-1302 | outcomes below a stop bit are read back with their number |
| Layouts.ParsedFits | src/intel_pt.c:794-1302 | conversely, whatever is parsed, from any bytes, is a packet a tracer may send there, except an outcome packet without outcomes, a cycle count of more than 61 bits, and outcomes in a block of whose item not all bytes are there |
| Layouts.AddressLayout | src/intel_pt.c:600-723 | the bytes of an address packet: its code and length field, then the low bytes of the address, lowest first |
| Layouts.UnknownExtension | src/intel_pt.c:1278-1302 | an extension byte that extends nothing known is taken for an outcome packet without outcomes |
| Layouts.ExStopBit | src/intel_pt.c:1040-1045 | the address bit of EXSTOP is not looked at |
| Layouts.PtwSize | src/intel_pt.c:1064-1083 | the payload size of a trace-write packet is not looked at: eight bytes are taken |
| Streams.StreamRoundTrip | src/intel_pt.c:776-1311 | the bytes of any well-formed packet sequence parse to exactly those packets and the tracer's parser state |
| Streams.StateIsReadOff | src/intel_pt.c:591-723 | after any packets the last address is that of the latest packet that carried one since the latest PSB, or 0, and a block is open if the latest packet that begins or ends one begins it: read off the packets backwards |
| Streams.EachFitsAll | src/intel_pt.c:591-1302 | a sequence is well formed if and only if each packet fits the state read off backwards from those before it |
| Streams.StreamIsParsed | src/intel_pt.c:776-1311 | so packets that each fit what went before are parsed back, into the state read off from them |
| Streams.ParsedState | src/intel_pt.c:776-1311 | whatever bytes are parsed, the parser ends in the state read off its packets |
| Streams.ParseLocal | src/intel_pt.c:794-1302 | a packet that ends inside a chunk is parsed the same when only that chunk is there |
| Streams.ChunksExactly | src/intel_pt.c:776-1311 | for any buffer that can be parsed, parsing two chunks in turn gives what parsing the whole gives if and only if no packet straddles the boundary |
| Streams.PrintedChunks | src/intel_pt.c:776-1311 | the bytes of well-formed packets, cut in two, are read as the packets sent if and only if the cut is between two packets |
| Streams.CutDiffers | src/intel_pt.c:794-1302 | a packet cut by the end of the buffer is an error or another packet, never itself |
| Streams.StraddlingMisread | src/intel_pt.c:900-905 | a concrete packet split over two chunks that is read as two other packets |
| PacketLog.PairingHolds | src/intel_pt.c:289-370 | over any run each overflow is claimed by at most one closing packet and each FUP by at most one target, only the coded skip set lies between a pair, each half's mark says what the other half is, and every packet marked as half of a pair is half of a claimed one |
| PacketLog.SourceIffClaimed | src/intel_pt.c:331-370 | a transfer has a non-zero source exactly when a FUP is claimed for it |
| PacketLog.ScanBack | src/intel_pt.c:292-328 | the backward scan finds the nearest opener over skipped packets, or there is none before a packet that may not be skipped |
| PacketLog.OpenerMeans | src/intel_pt.c:289-370 | which packet the latest one closes, in both directions: an overflow before a FUP or TIP.PGE, a FUP before a TIP or TIP.PGD, among the last 8191 packets, with only the listed packets in between |
| PacketLog.Latest | src/intel_pt.c:427-438 | the latest packet of a type among the last 8191, if there is one |
| PacketRing.Ring.CloseLatest | src/intel_pt.c:289-370 | the scan of the wrapped ring and its rewriting in place claim what the unbounded log says |
| PacketRing.Ring.Previous | src/intel_pt.c:427-438 | the ring search finds the latest packet of a type in the log |
| PacketRing.Ring.Note | src/intel_pt.c:570-588 | recording appends to the log; disabling tracing starts it afresh |
| DecoderPairs.PairsInEveryRun | src/intel_pt.c:776-1336 | the pairs the decoder claims over a run, read off its packets, are closed once each, have distinct openers and only skipped packets in between, and are all the packets the history marks as halves of pairs, whatever packets arrive |
| DecoderPairs.RunActs | src/intel_pt.c:776-1336 | after any run the history is what recording, claiming, re-marking and restarting, packet by packet, make of it |
| DecoderPairs.ClaimsEnter | src/intel_pt.c:747-756 | a target enters a handler exactly when it claims a FUP, from that FUP's address, and is fed to the replay otherwise |
| Ticks.TickCounts | src/intel_pt.c:476-502 | without loss a tick packet leaves the true count if and only if the step does not pass the next wrap |
| Ticks.LostTickCounts | src/intel_pt.c:476-502 | after a loss it does if and only if at most 255 ticks passed, or 256 off the anchor's phase |
| Ticks.TicksSinceAnchor | src/intel_pt.c:906-943 | after any TMA anchor the unwrapped count is the true number of ticks for ever, for all countable event sequences |
| Ticks.TicksRightIff | src/intel_pt.c:440-514 | after any TMA anchor and for all event sequences the count is right after every packet if and only if every tick comes by the next wrap, or after a loss within 255 ticks (256 off phase) |
| Ticks.NotCountedYet | src/intel_pt.c:503-514 | from a time stamp up to its anchor nothing is counted, whatever comes |
| Ticks.CyclesTelescope | src/intel_pt.c:497-514 | while the anchor stays, the cycle part is the difference between the reference counter and the counter at the last tick |
| Ticks.CyclesAreLatest | src/intel_pt.c:450-514 | the reference counter is that of the latest packet of a kind that carries one, read backwards |
| Ticks.CyclesSinceTick | src/intel_pt.c:450-514 | from an anchor on, the cycle part is the counter of the latest packet that carries one less the counter at the last tick or the anchor, in 64 bits |
| Timers.Timer.Record | src/intel_pt.c:440-514 | the timing variables updated in place follow the specified clock |
| Decoding.DecodeIsParseThenHandle | src/intel_pt.c:776-1311 | parsing and acting packet by packet is parsing everything and then acting on it |
| Decoding.DecodeComposes | src/intel_pt.c:776-1311 | two decoder calls on aligned chunks end in the state of one call on the whole, replay and history included |
| Decoding.OnlineIsOffline | src/intel_pt.c:1324-1380 | decoding aligned records as they arrive is decoding the file they were appended to |
| Decoding.AlignedExactly | src/intel_pt.c:1324-1380 | records are aligned if and only if each ends at a packet boundary of the whole stream |
| Decoding.CyclesAddUp | src/intel_pt.c:1250-1277 | the cycle counter grows by exactly the sum of the cycle packets, modulo 2^64 |
| Decoding.StopsAt | src/intel_pt.c:794-1302 | exactly which packets stop the decoder, apart from those that make the replay go on: the long outcome packet, a PSBEND without its four words, an anchor that disagrees with the last time stamp, modes other than the execution mode, blocks of a type other than 4 and 5 or with the size bit |
| Decoding.AddressStops | src/intel_pt.c:591-774 | exactly which address packets stop it: an address in traced code that no instruction holds, a missing one that does not end the tracing, an end of tracing with an address or with packets left over, and those whose consequence stops the replay |
| Decoding.NotedApart | src/intel_pt.c:794-1302 | every packet that is no address adds one entry to the history, by which the pairing and the anchors can tell it from all others that matter to them |
| Online.ReadCyc | src/intel_pt.c:1250-1277 | the byte loop of the cycle packet reads what the recursive definition reads, or fails where it does |
| Online.Decoder.Record | src/intel_pt.c:440-588 | recording updates clock and history together as specified |
| Online.Decoder.TakeAddress | src/intel_pt.c:591-774 | noting, checking and acting on an address, in place, is the specified handling, stops included |
| Online.Decoder.Act | src/intel_pt.c:728-770 | an address starts tracing, closes an overflow, enters a handler or feeds a target, by what the history pairs it with |
| Online.Decoder.Take | src/intel_pt.c:794-1302 | acting on any packet, in place, is the specified step |
| Online.Decoder.DecodeOnline | src/intel_pt.c:776-1336 | the whole in-place decode loop ends in the state of the specified decoder, or stops exactly when it does |
| Reporting.ReportsPlay | src/intel_pt.c:591-1302 | packets that report steps, with timing, block, trace-write, mode, process and synchronisation packets wherever a tracer may send them, and overflows anywhere, make the decoder take exactly those steps of the replay |
| Reporting.OtherStep | src/intel_pt.c:794-1302 | a packet that reports no step changes nothing of the replay but the process and the compression flag, and leaves the history such that pending transfers are still found and closed ones are not |
| Reporting.FupStep | src/intel_pt.c:715-739 | a FUP that closes no overflow waits as the source of a transfer, or belongs to a synchronisation group, a block or a trace-write packet |
| Reporting.TransferFits | src/intel_pt.c:331-370 | a target closes the awaited FUP over any skipped packets and leaves nothing open |
| Reporting.TipStep | src/intel_pt.c:747-756 | a target enters a handler from the awaited source, or feeds the replay, and never the other |
| Reporting.StopStep | src/intel_pt.c:757-770 | TIP.PGD stops tracing with used-up queues, also in the middle of a transfer, and clears the history |
| Reporting.ResumeStep | src/intel_pt.c:740-746 | TIP.PGE makes the replay go on at its address with the calls that were open |
| Reporting.LossStep | src/intel_pt.c:715-739 | an overflow, wherever it comes, makes the replay forget everything and waits in the history |
| Reporting.RestartStep | src/intel_pt.c:715-746 | the FUP or TIP.PGE after it, over packets the code skips there, closes it, makes the replay start there, and leaves nothing open |
| EndToEnd.PacketizeReports | src/intel_pt.c:591-774 | every row of steps at known addresses can be reported in packets |
| EndToEnd.BytesToPath | src/intel_pt.c:776-1336 | the printed bytes of packets that start tracing and report an execution, with synchronisation groups, process changes, pauses of tracing, overflows, unfinished and wrongly returning handlers, are decoded, and at every interrupt depth the decoder's log has grown by what was executed there and what was run ahead over |
| EndToEnd.LogIsExact | src/intel_pt.c:776-1336 | it has grown by exactly what was executed if and only if nothing was given up that the replay had run ahead over, and a level open there waits for a packet |
| EndToEnd.RecordsToDecoder | src/main.c:440-583 | over a run of aligned ring records, decoding them one by one is decoding the stream the processor wrote |
| EndToEnd.RingToPath | src/main.c:440-583 | if what the processor wrote between two tails is such packets, decoding the ring records as they arrive recovers the execution |
| EndToEnd.OverflowRecovers | src/intel_pt.c:715-739 | after an overflow, and any packets the code skips there (timing packets and synchronisation words), the next FUP or TIP.PGE makes the replay start afresh at its address, with everything before forgotten |
| Bookkeeping.BooksHold | src/intel_pt.c:776-1311 | after any run the PSB words, the process and the awaited addresses are those read off the packet sequence, and every PSBEND ended exactly four PSB words |
| Bookkeeping.CompressionHolds | src/intel_pt.c:591-1302 | after any run the decoder takes returns for compressed exactly as its packets, read backwards, say: off from PSB words, overflows and the end of tracing, on from PSBEND, the start of tracing and a FUP that closes an overflow |
| Bookkeeping.TmaAgrees | src/intel_pt.c:906-943 | an anchor is accepted if and only if its counter value is the low part of the counter ticks the latest time stamp stands for |
| Bookkeeping.AnchorIsStamp | src/intel_pt.c:906-943 | an accepted anchor sets the clock back to the cycle counter noted with the latest time stamp, and the ticks to none since its own value |
| Bookkeeping.StampIsNoted | src/intel_pt.c:1108-1132 | a time stamp is noted with the cycle counter and takes the anchor away |
| Bookkeeping.PacketTicks | src/intel_pt.c:440-514 | after an anchor, whatever other packets arrive in between, the decoder's tick count is the true number of ticks at the latest tick packet |
| Bookkeeping.SteadyIffCountable | src/intel_pt.c:440-514 | the packet sequences for which this is shown are exactly those whose ticks and losses the clock can count |
| Kmaps.Translator.FindAddr | src/kmod.c:109-141 | over the 512 slots, with the surviving hint anywhere in them, the loop is the specified search |
| Kmaps.Translator.Refresh | kmod/main.c:306-321 | new mappings overwrite the first slots and set the count; the slots beyond, and the count if there is none, stay |
| Kmaps.ProbeInside | src/kmod.c:109-141 | with the hint inside the table in use the stale slots beyond it do not matter |
| Kmaps.StaleProbe | src/kmod.c:116-132 | with a stale hint, above where its old mapping began, the answer is the old mapping's or zero whatever the table holds, and the hint stays |
| Kmaps.StaleProbeExactly | src/kmod.c:116-138 | with a stale hint a covered address is found in its own mapping if and only if the search passes below the stale mapping it begins with and below every other stale one it probes on its way there |
| Kmaps.StaleProbeFinds | src/kmod.c:116-138 | so it is found if the stale mappings up to the hint all begin above it |
| Kmaps.SearchFinds | src/kmod.c:109-141 | an address one mapping covers is translated by it, whatever was looked up before |
| Kmaps.SearchMisses | src/kmod.c:109-141 | an address no mapping covers is answered with zero |
| Kmaps.SharedEnd | src/kmod.c:119-132 | where two neighbouring mappings meet, the answer is independent of every earlier lookup if and only if their mirrors adjoin |
| Kmaps.SharedAnswers | src/kmod.c:119-132 | there the answer is that of one of the two mappings, whatever was looked up before |
| Kmaps.HistoryFreeIff | src/kmod.c:109-141 | in a whole table no answer depends on earlier lookups if and only if all mappings that meet have adjoining mirrors |
| Kmaps.Mirror.CollectPages | kmod/main.c:221-280 | the loops over mappings and pages collect the pinnable pages of the selected mappings in order, as many as the table holds |
| Kmaps.SelectedMeans | kmod/main.c:224-244 | a mapping is mirrored if and only if it is private readable and writable data, not executable, in the upper seven eighths of the 47-bit address space or holding the stack pointer, and not the one around the whole heap, unless the stack lies on the heap |
| Kmaps.Mirror.MakeKmaps | kmod/main.c:306-326 | one mapping is made for the first page of each run that could be remapped |
| Mirrors.MirrorShows | src/kmod.c:109-141 | the answer is the mirror at the same offset; it shows the address if and only if its page and none of the mapping before it is missing, and it was remapped |
| Mirrors.MirrorHides | src/kmod.c:109-141 | an address of no mirrored mapping, end included, is answered with zero |
| Mirrors.TranslationIsTrue | kmod/main.c:221-326 | for a whole process, however many pages it has: the answer shows the address if and only if every page of its mapping up to its own could be pinned and there was room for its own |
| Mirrors.SharedEndIsTrue | src/kmod.c:119-132 | where a mirrored mapping meets the next: the address is shown after every earlier lookup if and only if it has a page and every page of the first mapping could be pinned |
| Mirrors.CollectedIffPinned | kmod/main.c:244-275 | a page of a selected mapping is in the table exactly when it can be pinned |
| Modules.ModuleTable.Add | kmod/main.c:438-456 | finding the position from index 1, shifting up and storing, in the array, is the sorted insertion |
| Modules.ModuleTable.AddAll | kmod/main.c:428-467 | all accepted modules are inserted in the order the kernel lists them |
| Modules.InsertAllSorts | kmod/main.c:428-467 | from disjoint ranges in any order the insertions make a sorted list that is a permutation of them |
| Modules.TableHolds | kmod/main.c:428-467 | a range is in the table if and only if it was there before or is the code of a listed module that is live or coming and has an address |
| Modules.TableSorted | kmod/main.c:413-467 | with the kernel text below everything the whole table is sorted |
| Loader.ClassifyStops | src/xed.c:199-331 | an instruction stops the loading if and only if it is a return of unknown class or a near branch with the far attribute |
| Loader.ClassifyMeans | src/xed.c:199-331 | exactly which instructions become returns, conditional and direct branches, indirect branches, calls, far transfers and interrupt returns, and where direct branches lead |
| Loader.SweepWithin | src/xed.c:695-715 | the sweep of a range yields increasing, non-overlapping instructions inside it |
| Loader.LoadImage | src/xed.c:676-722 | the loop over one range appends to the lookup table, in place, what the sweep gives, or stops exactly where it does |
| Loader.LoadAll | src/xed.c:675-727 | over all ranges the lookup table stays valid, so the lookup's precondition holds |
| Sweeps.SweepLoads | src/xed.c:695-715 | every instruction decoded at an offset that is reached from 0 by decoded lengths or single bytes is loaded, in order and while there is room, at its address, with its length, kind and direct target |
| Sweeps.SweepLoadsOnly | src/xed.c:695-715 | and every loaded instruction is one of these |
| Sweeps.LoadedExactly | src/xed.c:675-727 | over all ranges, whatever their bytes and whatever the decoder makes of them: the load stops if and only if it comes, with room left, to an unknown return or a near branch with the far attribute (or finds the table full to begin with); otherwise the table holds, in order and while there is room, exactly the instructions decoded at the offsets reached, each at its address with its length, kind and 64-bit direct target |
| Loader.LoadedIsSorted | src/xed.c:675-727 | whatever order the kernel lists its modules in and whatever their bytes, what is loaded is sorted and every instruction lies in its module |
| AuxRing.AuxReader.Linearise | src/main.c:544-568 | the block, byte and remainder loops together copy each byte of the record once, from the right ring position |
| AuxRing.AuxReader.TakeRecord | src/main.c:445-583 | both branches hand over the record's bytes in order; a record at the wrong offset, after an overfull ring, or too large for the buffer stops |
| AuxRing.RunTiles | src/main.c:440-583 | over any run without a stop the chunks are the written stream from the first tail to the last, without gap or repetition |
| AuxRing.TakenIff | src/main.c:445-583 | a run is taken to its end if and only if each record begins where the one before ended and lies below its head, none before it found the ring overfull, and none that reaches the end of the ring is longer than 8 MB |
| AuxRing.IntactIff | src/main.c:446-459 | what is handed on for a record is certainly the stream if and only if the record is empty or none of it was overwritten |
| AuxRing.OverfullAccepted | src/main.c:446-459 | a concrete record that is accepted and wrong: the overfull ring is only noted for the next |
| AuxRing.AllButLast | src/main.c:446-459 | in any run that is accepted, the chunks of all records but the last are exactly the stream up to the last record |
| Dwarf.Executor.Step | src/x_dwarf.c:163-257 | one operation on the fixed stack, in place, is the specified step; a dereference reads through the address search and moves its hint |
| Dwarf.Executor.Evaluate | src/x_dwarf.c:155-265 | at most 63 operations never leave the 64 slots, and the loop computes the specified value and hint, or stops |
| Dwarf.Executor.EvaluateRegister | src/x_dwarf.c:267-279 | a register expression is the expression with one more dereference at its end |
| Dwarf.ExecuteInIsExecute | src/x_dwarf.c:181-197 | where no answer of the address search depends on its history, execution reads one fixed memory |
| Reads.WordIsTrue | src/x_dwarf.c:181-197 | a word inside a mirrored mapping with no page missing up to its end is read as the traced process's word, whatever was looked up before |
| Reads.ExpressionIsTrue | src/x_dwarf.c:155-265 | executing an expression tree through search and mirror gives its value over the traced process's own memory, if its loads are such words |
| Dwarf.BinaryIsApply | src/x_dwarf.c:164-250 | the operations on the two top words are the operators on left and right operand: the left operand is the word below |
| Dwarf.BitAndBits | src/x_dwarf.c:164-176 | the conjunction holds bit by bit |
| Dwarf.WordIsEight | src/x_dwarf.c:181-197 | a word that is read is eight bytes, the lowest first |
| Dwarf.PostfixExecutes | src/x_dwarf.c:155-265 | executing the postfix form of an expression tree gives the tree's value, with one word left |
| Dwarf.PostfixIffBuilds | src/x_dwarf.c:155-265 | an operation list is the postfix form of a tree exactly when running it on trees leaves that tree alone |
| Dwarf.ExecuteMeans | src/x_dwarf.c:155-265 | executing any operation list gives the value of the one tree it is the postfix form of, or stops if there is none |
| DwarfText.ParseLine | src/x_dwarf.c:40-153 | the loop over the two swapped buffers parses what the specification parses |
| DwarfText.TextRoundTrip | src/x_dwarf.c:40-153 | any printable expression of at most 63 operations is parsed back from its text, with the rest of the line |
| DwarfText.ParsedIsPrintable | src/x_dwarf.c:40-153 | conversely, whatever is parsed, from any text, is a row of printable operations up to the terminator |
| DwarfText.SecondNameCounts | src/x_dwarf.c:61-74 | of the two names of a register in the text the second counts |
| DwarfText.PrefixIsOptional | src/x_dwarf.c:105-115 | an addend is hexadecimal with or without its prefix |
| DwarfText.DigitMeans | src/x_dwarf.c:105-115 | a digit is read by its place among the sixteen, in either case |
| DwarfText.TreeThroughText | src/x_dwarf.c:40-265 | printing a tree, parsing the text and executing the result gives the tree's 64-bit value |

## Left out

- Reconstruction.PathRecovered: a handler that does not return to where it was called from, or not before the execution ends, is left to `Stories.StoryRecovered`, where the log need not be exact.
- EndToEnd.BytesToPath: a report contains no packet the decoder stops on, no FUP that is followed by anything but its target, the end of tracing or an overflow (outside synchronisation groups and block and trace-write packets), inside a transfer and between an overflow and the address after it only packets the code skips there and at most 8188 of them, and no TMA packet there, before the first time stamp since tracing started or more than 8190 packets after it. Tracing starts, goes on and enters handlers at instructions in the table, so a run that loses its position on purpose in code that is not loaded is not covered.
- Stories.StoryRecovered: contexts that were open before the story began are kept but not returned to; an interrupt return to an address that begins no instruction of the table, and one from a handler with calls still open, which stops the program, are not deeds. From where a level stands in the end, or is given up, some acts that need no packet lead to an instruction that waits for one; from a level interrupted in an endless loop the replay would not return.
- ReplayTheory.FeedOrderIrrelevant: is stated for runs that neither stop nor leave the context, because two orders can fill the queues differently.
- Replayer.Session.Resume: the methods in place assume that no cycle in the table consists only of non-branches and direct jumps, since on such a cycle the program loops for ever (`Silent.CycleNeverEnds`, `ReplayTheory.SilentStepAlwaysMoves`) and a method must be shown to return; the results about the specification do not.
- Ticks.TicksSinceAnchor: an overflow between an anchor and its first tick is excluded, because the code compares with the counter value of the time before the anchor.
- Packets.ParseCyc: more continuation bytes than 64 bits can hold shift beyond the word in the source, which has no meaning there; this is modelled as a decode error.
- AuxRing.AuxReader.TakeRecord: records with flags, which end the session, and the ptrace attach between the checks and the copy.
- Kmaps.Translator.Refresh: more than 512 mappings, which the kernel module writes past the end of the slots.
- Reads.WordIsTrue: says nothing of a word that crosses the end of its mapping; the source reads on into the next mirrored page there.
- Modules.ModuleTable.AddAll: at most 256 ranges; the kernel module does not check its array bound.
- Loader.LoadImage: module sizes are below 2^32, to which the source truncates them; `parse_objdump`, which loads the user side from text, is only assumed to leave a sorted table below the kernel.
- Dwarf.Executor.Evaluate: register numbers beyond the 17 registers and shifts of 64 or more have no meaning in the source and are treated as stops.
- DwarfText.ParseLine: number formats the dump does not use (leading blanks, more than 32 bits, a sign before an unsigned number), an unknown operation as the first one (the source then looks at what the line before left in the buffer), and lines that do not fit the buffers.
- Floating-point time, frequency scaling, the approximate time stamps, their error records and everything printed from them; only tick and cycle counts are modelled. The overflow count between ticks is unbounded here.
- Payload values of block items, and what the log prints for block and trace-write packets.
- `LONG_TNT`, MODE.TSX and block types other than 4 and 5: the decoder stops on them, and so does the model.
- The return address predicted for a call that is the last instruction of the table: the source reads the zeroed entry behind it; here it is address 0.
- The branch log's text, instruction statistics, performance counters, hardware breakpoints, utilisation records, and the debug re-read of the last packet.
- The ptrace unwinder (src/x_unwind.c): it neither enforces a frame count nor a bound on its loop.
- Multiplication in DWARF expressions: it is parsed, but the executor has no case for it and stops. Comparison is unsigned, as in the source.
- ELF reading, perf and ioctl setup, signals, page pinning and remapping themselves: which pages can be pinned and remapped is a parameter.
- The instruction decoder is not part of this model; it is a function from bytes to a decoded instruction no longer than those bytes.
