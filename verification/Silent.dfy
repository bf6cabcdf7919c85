/** Runs of instructions the replay crosses without any packet and without touching the call
    stack: non-branches and direct jumps. They end exactly when no such run is a cycle. */
module Silent {
  import opened Options
  import opened Program

  function Next(env: Env, i: nat): (r: Option<nat>)
    requires i < |env.insts|
    ensures r.Some? ==> r.value < |env.insts|
  {
    match env.insts[i].kind
    case Plain => if i + 1 < |env.insts| then Some(i + 1) else None
    case Jump(target) => Find(env, target)
    case _ => None
  }

  /** The instruction k silent steps further on. */
  function After(env: Env, i: nat, k: nat): (r: Option<nat>)
    requires i < |env.insts|
    ensures r.Some? ==> r.value < |env.insts|
    decreases k
  {
    if k == 0 then Some(i)
    else match Next(env, i)
      case None => None
      case Some(j) => After(env, j, k - 1)
  }

  /** The silent run from an instruction ends. */
  predicate Ends(env: Env, i: nat)
    requires i < |env.insts|
  {
    After(env, i, |env.insts|) == None
  }

  /** No instruction is silently followed by itself. */
  ghost predicate NoSilentCycle(env: Env) {
    forall i: nat, k: nat | i < |env.insts| && k > 0 :: After(env, i, k) != Some(i)
  }

  /** Silent steps from i before the run ends, cut off after `fuel` steps. */
  function Steps(env: Env, i: nat, fuel: nat): nat
    requires i < |env.insts|
    decreases fuel
  {
    if fuel == 0 then 0
    else match Next(env, i)
      case None => 0
      case Some(j) => 1 + Steps(env, j, fuel - 1)
  }

  function Rank(env: Env, i: nat): nat
    requires i < |env.insts|
  {
    Steps(env, i, |env.insts|)
  }

  lemma {:induction false} AfterComposes(env: Env, i: nat, a: nat, b: nat)
    requires i < |env.insts| && After(env, i, a).Some?
    ensures After(env, i, a + b) == After(env, After(env, i, a).value, b)
    decreases a
  {
    if a > 0 {
      AfterComposes(env, Next(env, i).value, a - 1, b);
    }
  }

  /** Naturals below n without repetition are at most n many. */
  lemma {:induction false} Pigeonhole(s: seq<nat>, n: nat)
    requires forall k | 0 <= k < |s| :: s[k] < n
    requires forall j, k | 0 <= j < k < |s| :: s[j] != s[k]
    ensures |s| <= n
    decreases n
  {
    if n > 0 {
      if exists k :: 0 <= k < |s| && s[k] == n - 1 {
        var k :| 0 <= k < |s| && s[k] == n - 1;
        var t := s[..k] + s[k + 1..];
        assert forall j | 0 <= j < |t| :: t[j] == if j < k then s[j] else s[j + 1];
        Pigeonhole(t, n - 1);
      } else {
        Pigeonhole(s, n - 1);
      }
    }
  }

  /** A run that goes on for as many steps as there are instructions comes to one of them twice. */
  lemma RunRepeats(env: Env, i: nat) returns (a: nat, k: nat)
    requires i < |env.insts| && !Ends(env, i)
    ensures k > 0 && After(env, i, a).Some? && After(env, After(env, i, a).value, k) == After(env, i, a)
  {
    var n := |env.insts|;
    forall k: nat | k <= n ensures After(env, i, k).Some? {
      if After(env, i, k).None? {
        StaysEnded(env, i, k, n);
      }
    }
    var run := seq(n + 1, k requires 0 <= k <= n => After(env, i, k).value);
    if forall j, k | 0 <= j < k < |run| :: run[j] != run[k] {
      Pigeonhole(run, n);
    }
    var j, l :| 0 <= j < l < |run| && run[j] == run[l];
    a, k := j, l - j;
    AfterComposes(env, i, j, l - j);
  }

  /** Without a silent cycle every silent run ends. */
  lemma RunEnds(env: Env, i: nat)
    requires NoSilentCycle(env) && i < |env.insts|
    ensures Ends(env, i)
  {
    if !Ends(env, i) {
      var a, k := RunRepeats(env, i);
    }
  }

  /** A run that ends at all ends within as many steps as there are instructions. */
  lemma EndsAtAll(env: Env, i: nat, k: nat)
    requires i < |env.insts| && After(env, i, k) == None
    ensures Ends(env, i)
  {
    if !Ends(env, i) {
      var a, period := RunRepeats(env, i);
      CycleNeverEnds(env, After(env, i, a).value, period, k);
      AfterComposes(env, i, a, k);
      StaysEnded(env, i, k, a + k);
    }
  }

  lemma EndsHere(env: Env, i: nat)
    requires i < |env.insts| && Next(env, i) == None
    ensures Ends(env, i)
  {
    assert After(env, i, 1) == None;
    EndsAtAll(env, i, 1);
  }

  /** The run from an instruction ends exactly when the run from the next one does. */
  lemma EndsNext(env: Env, i: nat)
    requires i < |env.insts| && Next(env, i).Some?
    ensures Ends(env, i) <==> Ends(env, Next(env, i).value)
  {
    var n, j := |env.insts|, Next(env, i).value;
    if Ends(env, i) {
      StaysEnded(env, j, n - 1, n);
    }
    if Ends(env, j) {
      assert After(env, i, n + 1) == None;
      EndsAtAll(env, i, n + 1);
    }
  }

  lemma {:induction false} StaysEnded(env: Env, i: nat, a: nat, b: nat)
    requires i < |env.insts| && a <= b && After(env, i, a) == None
    ensures After(env, i, b) == None
    decreases a
  {
    if a > 0 && Next(env, i).Some? {
      StaysEnded(env, Next(env, i).value, a - 1, b - 1);
    }
  }

  lemma {:induction false} StepsSettle(env: Env, i: nat, a: nat, b: nat)
    requires i < |env.insts| && a <= b && After(env, i, a) == None
    ensures Steps(env, i, a) == Steps(env, i, b)
    decreases a
  {
    if a > 0 && Next(env, i).Some? {
      StepsSettle(env, Next(env, i).value, a - 1, b - 1);
    }
  }

  /** A silent step of a run that ends gets nearer to its end. */
  lemma RankDecreases(env: Env, i: nat)
    requires i < |env.insts| && Next(env, i).Some? && Ends(env, i)
    ensures Rank(env, Next(env, i).value) < Rank(env, i)
  {
    var n := |env.insts|;
    StepsSettle(env, Next(env, i).value, n - 1, n);
  }

  /** Conversely, from an instruction on a silent cycle the run never ends. */
  lemma {:induction false} CycleNeverEnds(env: Env, i: nat, k: nat, steps: nat)
    requires i < |env.insts| && k > 0 && After(env, i, k) == Some(i)
    ensures After(env, i, steps).Some?
    decreases steps
  {
    if steps <= k {
      if After(env, i, steps).None? {
        StaysEnded(env, i, steps, k);
      }
    } else {
      CycleNeverEnds(env, i, k, steps - k);
      AfterComposes(env, i, k, steps - k);
    }
  }
}
