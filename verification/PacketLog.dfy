/** The packet history and the pairing of packets in it (src/intel_pt.c), on the log of all packets
    since tracing was last disabled. An overflow is closed by the address packet that follows it; an
    asynchronous transfer is an address packet followed by its target. Only the last 8191 packets
    are looked at. */
module PacketLog {
  import opened Options

  /** Packet types, with those that mark a packet as half of a pair. Blank is an unused slot. */
  datatype Kind =
    | Blank
    | Psb | Mnt | Ovf | Vmcs | Mwait | Pwrx | TraceStop | Tma | Bbp | Evd | Pip | PsbEnd | Pwre | Cfe | Cbr
    | ExStop | Bep | Ptw | ModeExec | Mtc | Tsc | Pad | Fup | TipPge | Tip | TipPgd | Bip | Cyc | ShortTnt
    | OvfFup | OvfTipPge | FupOvf | FupBep | FupPtw | FupTip | FupTipPgd | TipPgeOvf | TipFup | TipPgdFup

  datatype Entry = Entry(kind: Kind, val: nat, cyc: nat)

  const HISTORY := 8192

  predicate Timing(kind: Kind) {
    kind.Cbr? || kind.Mtc? || kind.Tsc? || kind.Cyc?
  }

  /** The two kinds of pair. */
  datatype Pairing = Overflow | Async

  /** What may stand between the two halves. */
  predicate Skips(pairing: Pairing, kind: Kind) {
    match pairing
    case Overflow => Timing(kind) || kind.Psb? || kind.PsbEnd?
    case Async => Timing(kind) || kind.Vmcs? || kind.Pip? || kind.ModeExec?
  }

  predicate Opens(pairing: Pairing, kind: Kind) {
    if pairing.Overflow? then kind.Ovf? else kind.Fup?
  }

  predicate Closes(pairing: Pairing, kind: Kind) {
    if pairing.Overflow? then kind.Fup? || kind.TipPge? else kind.Tip? || kind.TipPgd?
  }

  /** How the two halves are marked. */
  function MarkOpener(pairing: Pairing, closer: Kind): Kind {
    if pairing.Overflow? then (if closer.Fup? then OvfFup else OvfTipPge)
    else (if closer.Tip? then FupTip else FupTipPgd)
  }

  function MarkCloser(pairing: Pairing, closer: Kind): Kind {
    if pairing.Overflow? then (if closer.Fup? then FupOvf else TipPgeOvf)
    else (if closer.Tip? then TipFup else TipPgdFup)
  }

  function Oldest(log: seq<Entry>): nat {
    if |log| >= HISTORY then |log| - (HISTORY - 1) else 0
  }

  /** Backwards from position k - 1 over packets that are skipped, to one that opens a pair. */
  function ScanBack(pairing: Pairing, log: seq<Entry>, k: nat, oldest: nat): (r: Option<nat>)
    requires k <= |log|
    ensures r.Some? ==> oldest <= r.value < k && Opens(pairing, log[r.value].kind)
                        && forall j | r.value < j < k :: Skips(pairing, log[j].kind)
    ensures r.None? ==> forall i | oldest <= i < k && Opens(pairing, log[i].kind) ::
                          exists j | i < j < k :: !Skips(pairing, log[j].kind)
    decreases k
  {
    if k <= oldest then None
    else if Opens(pairing, log[k - 1].kind) then Some(k - 1)
    else if Skips(pairing, log[k - 1].kind) then ScanBack(pairing, log, k - 1, oldest)
    else None
  }

  /** The opener the latest packet closes, if it closes one. */
  function Opener(pairing: Pairing, log: seq<Entry>): (r: Option<nat>)
    ensures r.Some? ==> r.value + 1 < |log|
  {
    if log == [] || !Closes(pairing, log[|log| - 1].kind) then None
    else ScanBack(pairing, log, |log| - 1, Oldest(log))
  }

  /** `is_ovf_event` and `is_async_event`: mark both halves. */
  function Claim(pairing: Pairing, log: seq<Entry>): seq<Entry>
    requires Opener(pairing, log).Some?
  {
    var o, c := Opener(pairing, log).value, |log| - 1;
    var closer := log[c].kind;
    log[o := log[o].(kind := MarkOpener(pairing, closer))][c := log[c].(kind := MarkCloser(pairing, closer))]
  }

  function Claimed(pairing: Pairing, log: seq<Entry>): seq<Entry> {
    if Opener(pairing, log).Some? then Claim(pairing, log) else log
  }

  /** The source address of an asynchronous transfer, or 0. */
  function AsyncSource(log: seq<Entry>): nat {
    match Opener(Async, log)
    case None => 0
    case Some(o) => log[o].val
  }

  /** `prev_intel_pt_pkt`. */
  function Latest(log: seq<Entry>, kind: Kind, k: nat, oldest: nat): (r: Option<nat>)
    requires k <= |log|
    ensures r.Some? ==> oldest <= r.value < k && log[r.value].kind == kind
                        && forall j | r.value < j < k :: log[j].kind != kind
    ensures r.None? ==> forall j | oldest <= j < k :: log[j].kind != kind
    decreases k
  {
    if k <= oldest then None
    else if log[k - 1].kind == kind then Some(k - 1)
    else Latest(log, kind, k - 1, oldest)
  }

  /** Change the latest history entry, if tracing was not just disabled. */
  function SetVal(log: seq<Entry>, val: nat): seq<Entry> {
    if log == [] then log else log[|log| - 1 := log[|log| - 1].(val := val)]
  }

  function SetKind(log: seq<Entry>, kind: Kind): seq<Entry> {
    if log == [] then log else log[|log| - 1 := log[|log| - 1].(kind := kind)]
  }

  /** What an overflow or an address packet may be followed by before the packet that closes it. */
  predicate Between(pairing: Pairing, kind: Kind) {
    kind in (match pairing
             case Overflow => {Cbr, Mtc, Tsc, Cyc, Psb, PsbEnd}
             case Async => {Cbr, Mtc, Tsc, Cyc, Vmcs, Pip, ModeExec})
  }

  /** Which packet the latest one closes: the overflow behind a FUP or a TIP.PGE, the FUP behind a TIP or
      a TIP.PGD, if it is among the last 8191 packets and only packets that may stand between follow it. */
  lemma OpenerMeans(pairing: Pairing, log: seq<Entry>, o: nat)
    ensures Opener(pairing, log) == Some(o) <==>
            && o + 1 < |log| && |log| - o <= 8191
            && (match pairing
                case Overflow => log[o].kind.Ovf? && log[|log| - 1].kind in {Fup, TipPge}
                case Async => log[o].kind.Fup? && log[|log| - 1].kind in {Tip, TipPgd})
            && forall j | o < j < |log| - 1 :: Between(pairing, log[j].kind)
  {
    assert forall kind :: Skips(pairing, kind) <==> Between(pairing, kind);
    if log != [] && Closes(pairing, log[|log| - 1].kind) {
      var r := ScanBack(pairing, log, |log| - 1, Oldest(log));
      if r.Some? && o < r.value {
        assert !Skips(pairing, log[r.value].kind);
      }
    }
  }

  // ---- Pairing over whole runs ----

  /** A claimed pair, as positions in the log. */
  datatype Pair = Pair(pairing: Pairing, opener: nat, closer: nat)

  /** The log together with the pairs claimed so far. */
  datatype History = History(log: seq<Entry>, pairs: seq<Pair>)

  /** What can happen to the history. Retype is the marking of an address packet that belongs to a
      block or a trace-write packet. */
  datatype Action = Record(e: Entry) | Close(pairing: Pairing) | Retype(kind: Kind) | Restart

  predicate Marked(kind: Kind) {
    kind.OvfFup? || kind.OvfTipPge? || kind.FupOvf? || kind.FupBep? || kind.FupPtw? || kind.FupTip? || kind.FupTipPgd?
    || kind.TipPgeOvf? || kind.TipFup? || kind.TipPgdFup?
  }

  predicate Allowed(h: History, a: Action) {
    match a
    case Record(e) => !Marked(e.kind) && !e.kind.Blank? && (e.kind.Fup? ==> e.val != 0)
    case Close(_) => true
    case Retype(kind) => h.log != [] && h.log[|h.log| - 1].kind in {Fup, FupOvf, FupBep, FupPtw}
      && kind in {FupBep, FupPtw}
    case Restart => true
  }

  function Do(h: History, a: Action): History
    requires Allowed(h, a)
  {
    match a
    case Record(e) => h.(log := h.log + [e])
    case Close(pairing) =>
      (match Opener(pairing, h.log)
       case None => h
       case Some(o) => History(Claim(pairing, h.log), h.pairs + [Pair(pairing, o, |h.log| - 1)]))
    case Retype(kind) => h.(log := h.log[|h.log| - 1 := h.log[|h.log| - 1].(kind := kind)])
    case Restart => History([], [])
  }

  predicate AllowedAll(h: History, as_: seq<Action>)
    decreases |as_|
  {
    as_ == [] || (Allowed(h, as_[0]) && AllowedAll(Do(h, as_[0]), as_[1..]))
  }

  function DoAll(h: History, as_: seq<Action>): History
    requires AllowedAll(h, as_)
    decreases |as_|
  {
    if as_ == [] then h else DoAll(Do(h, as_[0]), as_[1..])
  }

  predicate OpenerMark(pairing: Pairing, kind: Kind) {
    if pairing.Overflow? then kind.OvfFup? || kind.OvfTipPge? else kind.FupTip? || kind.FupTipPgd?
  }

  predicate CloserMark(pairing: Pairing, kind: Kind) {
    if pairing.Overflow? then kind.FupOvf? || kind.TipPgeOvf? || kind.FupBep? || kind.FupPtw?
    else kind.TipFup? || kind.TipPgdFup?
  }

  /** The marks of the two halves of a pair: each says what the other half is. */
  predicate Marks(pairing: Pairing, opener: Kind, closer: Kind) {
    match pairing
    case Overflow =>
      || (opener.OvfFup? && (closer.FupOvf? || closer.FupBep? || closer.FupPtw?))
      || (opener.OvfTipPge? && closer.TipPgeOvf?)
    case Async => (opener.FupTip? && closer.TipFup?) || (opener.FupTipPgd? && closer.TipPgdFup?)
  }

  ghost predicate PairOk(log: seq<Entry>, p: Pair) {
    && p.opener < p.closer < |log| && p.closer - p.opener < 8191
    && Marks(p.pairing, log[p.opener].kind, log[p.closer].kind)
    && forall j | p.opener < j < p.closer :: Skips(p.pairing, log[j].kind)
  }

  /** Every pair is well formed, no packet belongs to two pairs, and unclaimed address packets have
      an address. */
  ghost predicate Paired(h: History) {
    && (forall p | p in h.pairs :: PairOk(h.log, p))
    && (forall i, j | 0 <= i < j < |h.pairs| ::
          h.pairs[i].opener != h.pairs[j].opener && h.pairs[i].closer != h.pairs[j].closer)
    && (forall k | 0 <= k < |h.log| && h.log[k].kind.Fup? :: h.log[k].val != 0)
  }

  predicate IsOpener(pairs: seq<Pair>, pairing: Pairing, k: nat) {
    exists i | 0 <= i < |pairs| :: pairs[i].pairing == pairing && pairs[i].opener == k
  }

  predicate IsCloser(pairs: seq<Pair>, pairing: Pairing, k: nat) {
    exists i | 0 <= i < |pairs| :: pairs[i].pairing == pairing && pairs[i].closer == k
  }

  /** The closers that keep their mark: a FUP may be marked again for a block or a trace-write. */
  predicate ClosedMark(pairing: Pairing, kind: Kind) {
    if pairing.Overflow? then kind.FupOvf? || kind.TipPgeOvf? else kind.TipFup? || kind.TipPgdFup?
  }

  /** Every packet marked as half of a pair is half of a listed pair. */
  ghost predicate Listed(h: History) {
    && (forall k, pairing | 0 <= k < |h.log| && OpenerMark(pairing, h.log[k].kind) :: IsOpener(h.pairs, pairing, k))
    && (forall k, pairing | 0 <= k < |h.log| && ClosedMark(pairing, h.log[k].kind) :: IsCloser(h.pairs, pairing, k))
  }

  lemma MorePairs(pairs: seq<Pair>, p: Pair, pairing: Pairing, k: nat)
    ensures IsOpener(pairs, pairing, k) || (p.pairing == pairing && p.opener == k) ==> IsOpener(pairs + [p], pairing, k)
    ensures IsCloser(pairs, pairing, k) || (p.pairing == pairing && p.closer == k) ==> IsCloser(pairs + [p], pairing, k)
  {
    var all := pairs + [p];
    assert all[|pairs|] == p && forall i | 0 <= i < |pairs| :: all[i] == pairs[i];
  }

  lemma CloseLists(h: History, pairing: Pairing)
    requires Listed(h)
    ensures Listed(Do(h, Close(pairing)))
  {
    var o := Opener(pairing, h.log);
    if o.Some? {
      var log', p := Claim(pairing, h.log), Pair(pairing, o.value, |h.log| - 1);
      forall k, q | 0 <= k < |log'| && OpenerMark(q, log'[k].kind) ensures IsOpener(h.pairs + [p], q, k) {
        MorePairs(h.pairs, p, q, k);
      }
      forall k, q | 0 <= k < |log'| && ClosedMark(q, log'[k].kind) ensures IsCloser(h.pairs + [p], q, k) {
        MorePairs(h.pairs, p, q, k);
      }
    }
  }

  lemma CloseKeeps(h: History, pairing: Pairing)
    requires Paired(h)
    ensures Paired(Do(h, Close(pairing)))
  {
    var o := Opener(pairing, h.log);
    if o.Some? {
      ClaimKeepsOk(h, pairing);
      var n := |h.log|;
      var pairs' := h.pairs + [Pair(pairing, o.value, n - 1)];
      forall i, j | 0 <= i < j < |pairs'|
        ensures pairs'[i].opener != pairs'[j].opener && pairs'[i].closer != pairs'[j].closer
      {
        assert i < |h.pairs| && h.pairs[i] in h.pairs;
        assert PairOk(h.log, h.pairs[i]);
      }
    }
  }

  lemma ClaimKeepsOk(h: History, pairing: Pairing)
    requires Paired(h) && Opener(pairing, h.log).Some?
    ensures var log' := Claim(pairing, h.log);
            && (forall p | p in h.pairs :: PairOk(log', p))
            && PairOk(log', Pair(pairing, Opener(pairing, h.log).value, |h.log| - 1))
  {
    forall p | p in h.pairs ensures PairOk(Claim(pairing, h.log), p) {
      assert PairOk(h.log, p);
    }
  }

  lemma RetypeKeeps(h: History, kind: Kind)
    requires Paired(h) && Allowed(h, Retype(kind))
    ensures Paired(Do(h, Retype(kind)))
  {
    var log' := Do(h, Retype(kind)).log;
    forall p | p in h.pairs ensures PairOk(log', p) {
      assert PairOk(h.log, p);
    }
  }

  lemma RecordKeeps(h: History, e: Entry)
    requires Paired(h) && Allowed(h, Record(e))
    ensures Paired(Do(h, Record(e)))
  {
    forall p | p in h.pairs ensures PairOk(h.log + [e], p) {
      assert PairOk(h.log, p);
    }
  }

  /** Whatever happens, each overflow is closed by at most one packet, each address packet is followed
      by at most one target, nothing but the packets that may be skipped stands in between, and every
      mark in the log is that of a pair that was claimed. */
  lemma {:induction false} PairingHolds(h: History, as_: seq<Action>)
    requires Paired(h) && Listed(h) && AllowedAll(h, as_)
    ensures Paired(DoAll(h, as_)) && Listed(DoAll(h, as_))
    decreases |as_|
  {
    if as_ != [] {
      match as_[0] {
        case Record(e) => RecordKeeps(h, e);
        case Close(pairing) => CloseKeeps(h, pairing); CloseLists(h, pairing);
        case Retype(kind) => RetypeKeeps(h, kind);
        case Restart =>
      }
      hide Paired;
      PairingHolds(Do(h, as_[0]), as_[1..]);
    }
  }

  /** The source of a transfer is non-zero exactly when an address packet is claimed for it. */
  lemma SourceIffClaimed(h: History)
    requires Paired(h)
    ensures AsyncSource(h.log) != 0 <==> Opener(Async, h.log).Some?
  {
  }
}
