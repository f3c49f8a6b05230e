/**
 * What the lock-free calls on a frame come to (api/context/framecontext.go): a call left alone succeeds on an
 * unsealed frame, no call begun on a sealed one stores anything, and a Seal can always return.
 */
module FrameProgress {
  import opened FrameSeal

  // ---------------------------------------------------------------- a call left alone

  /** A call that finds the snapshot it loaded stores its pairs. */
  lemma LoneCallStores(f: Frame, pairs: seq<Pair>) returns (g: Frame)
    requires !f.sealed
    ensures Leads(f, g)
    ensures g == f.(threads := f.threads + [Returned(pairs, true)], version := f.version + 1,
                    values := Merge(f.values, f.borrowed, pairs), commits := f.commits + [|f.threads|])
  {
    LeadsSelf(f);
    hide Leads, Merge;
    g := Enters(f, f, pairs);
    g := Stores(f, g, |f.threads|, pairs);
    assert g.threads == f.threads + [Returned(pairs, true)];
  }

  lemma Stores(start: Frame, f: Frame, i: nat, pairs: seq<Pair>) returns (g: Frame)
    requires Leads(start, f) && i < |f.threads| && f.threads[i] == Loading(pairs)
    ensures Leads(start, g)
    ensures g == f.(threads := f.threads[i := Returned(pairs, true)], version := f.version + 1, writers := f.writers - 1,
                    values := Merge(f.values, f.borrowed, pairs), commits := f.commits + [i])
  {
    hide Leads, Merge;
    g := LeadsOn(start, f, Go(i));
    g := LeadsOn(start, g, Go(i));
    g := LeadsOn(start, g, Go(i));
    assert g.threads == f.threads[i := Returned(pairs, true)];
  }

  /**
   * On a frame that is not sealed a call left alone returns with success, and then every key it names holds
   * the last value it gives it while all other keys hold what they held.
   */
  lemma LoneCallSucceeds(f: Frame, pairs: seq<Pair>, k: FrameContexts.Key) returns (g: Frame)
    requires !f.sealed
    ensures Leads(f, g) && |g.threads| == |f.threads| + 1 && g.threads[|f.threads|] == Returned(pairs, true)
    ensures if exists n :: 0 <= n < |pairs| && pairs[n].key == k then HoldsPair(g.values, g.borrowed, pairs, k)
            else (k in g.values <==> k in f.values) && (k in f.values ==> g.values[k] == f.values[k])
  {
    g := LoneCallStores(f, pairs);
    hide Leads, Merge;
    if exists n :: 0 <= n < |pairs| && pairs[n].key == k {
      var n := LastPair(pairs, k);
      MergeAt(f.values, f.borrowed, pairs, n);
    } else {
      MergeElse(f.values, f.borrowed, pairs, k);
    }
  }

  // ---------------------------------------------------------------- a call on a sealed frame

  /** A call that has not passed the flag, or was turned away. */
  predicate TurnedAway(t: Thread) {
    t.Entering? || (t.Returned? && !t.ok)
  }

  lemma AwayStep(f: Frame, a: Act, i: nat)
    requires f.sealed && i < |f.threads| && TurnedAway(f.threads[i]) && i !in f.commits && Enabled(f, a)
    ensures var v := Apply(f, a); v.sealed && i < |v.threads| && TurnedAway(v.threads[i]) && i !in v.commits
  {
    hide Merge;
  }

  /** A call begun on a sealed frame never stores anything: if it returns, it has failed. */
  lemma {:induction false} SealedRefuses(f: Frame, acts: seq<Act>, i: nat)
    requires f.sealed && i < |f.threads| && TurnedAway(f.threads[i]) && i !in f.commits && Runs(f, acts)
    ensures var v := Exec(f, acts); v.sealed && i < |v.threads| && TurnedAway(v.threads[i]) && i !in v.commits
    decreases |acts|
  {
    if acts != [] {
      AwayStep(f, acts[0], i);
      hide Apply, Enabled, TurnedAway;
      SealedRefuses(Apply(f, acts[0]), acts[1..], i);
    }
  }

  lemma SealedCallFails(f: Frame, pairs: seq<Pair>, g: Frame)
    requires Reached(f) && f.sealed && Leads(Apply(f, Act.Call(pairs)), g)
    ensures var i := |f.threads|;
      i < |g.threads| && i !in g.commits && (g.threads[i].Entering? || (g.threads[i].Returned? && !g.threads[i].ok))
  {
    ReachedOk(f);
    CommitsIn(f);
    var c := Apply(f, Act.Call(pairs));
    var acts :| Runs(c, acts) && Exec(c, acts) == g;
    assert |f.threads| !in f.commits;
    hide Reached, Inv, Leads, Runs, Exec;
    SealedRefuses(c, acts, |f.threads|);
  }

  // ---------------------------------------------------------------- Seal returns

  /** Steps a write inside needs at most before it is out, once the flag is up. */
  function Todo(t: Thread): nat {
    match t
    case Loading(_) => 4
    case Swapping(_, _, _) => 3
    case Rechecking(_) => 2
    case Retrying(_) => 2
    case BackingOut(_) => 1
    case Leaving(_, _) => 1
    case _ => 0
  }

  function Work(ts: seq<Thread>): nat {
    if ts == [] then 0 else Work(ts[..|ts| - 1]) + Todo(ts[|ts| - 1])
  }

  lemma {:induction false} WorkUpdate(ts: seq<Thread>, i: nat, t: Thread)
    requires i < |ts|
    ensures Work(ts[i := t]) == Work(ts) + Todo(t) - Todo(ts[i])
  {
    var n := |ts| - 1;
    if i == n {
      assert ts[i := t][..n] == ts[..n];
    } else {
      assert ts[i := t][..n] == ts[..n][i := t];
      WorkUpdate(ts[..n], i, t);
    }
  }

  lemma {:induction false} SomeoneCounted(ts: seq<Thread>) returns (i: nat)
    requires Writers(ts) > 0
    ensures i < |ts| && Counted(ts[i])
  {
    var n := |ts| - 1;
    if Counted(ts[n]) { i := n; } else { i := SomeoneCounted(ts[..n]); }
  }

  lemma LeavesStep(f: Frame, i: nat)
    requires f.sealed && i < |f.threads| && Counted(f.threads[i])
    ensures Enabled(f, Go(i)) && Apply(f, Go(i)).sealed && Apply(f, Go(i)).threads == f.threads[i := After(f, f.threads[i])]
    ensures Work(Apply(f, Go(i)).threads) < Work(f.threads)
  {
    hide Merge, Work;
    WorkUpdate(f.threads, i, After(f, f.threads[i]));
  }

  /** Once the flag is up every write inside can leave, and nobody else need move. */
  lemma {:induction false} AllLeave(start: Frame, f: Frame) returns (g: Frame)
    requires Leads(start, f) && SealInv(f) && f.sealed
    ensures Leads(start, g) && SealInv(g) && g.sealed && g.writers == 0 && |g.threads| == |f.threads|
    ensures forall j: nat :: j < |f.threads| && !Counted(f.threads[j]) ==> g.threads[j] == f.threads[j]
    decreases Work(f.threads)
  {
    g := f;
    if f.writers > 0 {
      var i := SomeoneCounted(f.threads);
      LeavesStep(f, i);
      StepKeeps(f, Go(i));
      hide Leads, SealInv, Inv, Apply, Enabled, Counted, Work;
      g := LeadsOn(start, f, Go(i));
      g := AllLeave(start, g);
    }
  }

  lemma SealedWhileWaiting(f: Frame, i: nat)
    requires SealInv(f) && f.base <= i < |f.threads| && f.threads[i].Waiting?
    ensures f.sealed && !Counted(f.threads[i])
  {
    assert SealOk(f, i, f.threads[i]);
  }

  /** In a use that began with no write inside, a Seal call that waits can return whatever the writers are doing. */
  lemma SealCanReturn(start: Frame, f: Frame, i: nat) returns (g: Frame)
    requires Starts(start) && Clean(start) && Leads(start, f)
    requires start.base <= i < |f.threads| && f.threads[i].Waiting?
    ensures Leads(f, g) && i < |g.threads| && g.threads[i] == Sealed(true)
  {
    StartOk(start);
    var acts :| Runs(start, acts) && Exec(start, acts) == f;
    RunKeeps(start, acts);
    RunBase(start, acts);
    LeadsSelf(f);
    hide Leads, SealInv, Inv, Starts, Clean, Runs, Exec, Counted;
    SealedWhileWaiting(f, i);
    var u := AllLeave(f, f);
    g := LeadsOn(f, u, Go(i));
  }

  // ---------------------------------------------------------------- a Seal that never returns

  /** A thread that will not touch the writer count once the flag is up. */
  predicate Quiet(t: Thread) {
    !t.Counting? && !Counted(t)
  }

  /** How far the writer count is from the writes inside. */
  function Drift(f: Frame): int {
    f.writers - Writers(f.threads)
  }

  lemma DriftStep(f: Frame, a: Act)
    requires Enabled(f, a)
    ensures Drift(Apply(f, a)) == Drift(f)
  {
    hide Writers, Merge, After, Counted;
    match a {
      case Call(pairs) => NotCounted(pairs); CallUncounted(f.threads, Entering(pairs));
      case CallSeal => NotCounted([]); CallUncounted(f.threads, Flipping);
      case Go(i) =>
        AfterOk(f, f.threads[i]);
        WritersUpdate(f.threads, i, After(f, f.threads[i]));
        assert Apply(f, a).threads == f.threads[i := After(f, f.threads[i])];
    }
  }

  lemma NotCounted(pairs: seq<Pair>)
    ensures !Counted(Entering(pairs)) && !Counted(Flipping)
  {
  }

  lemma {:induction false} DriftRun(f: Frame, acts: seq<Act>)
    requires Runs(f, acts)
    ensures Drift(Exec(f, acts)) == Drift(f)
    decreases |acts|
  {
    if acts != [] {
      DriftStep(f, acts[0]);
      hide Apply, Enabled, Drift;
      DriftRun(Apply(f, acts[0]), acts[1..]);
    }
  }

  lemma DriftLeads(f: Frame, g: Frame)
    requires Leads(f, g)
    ensures Drift(g) == Drift(f)
  {
    hide Drift;
    var acts :| Runs(f, acts) && Exec(f, acts) == g;
    DriftRun(f, acts);
  }

  /** While the flag is down every write can end. */
  lemma {:induction false} AllEnd(start: Frame, f: Frame, n: nat) returns (g: Frame)
    requires Leads(start, f) && !f.sealed && n <= |f.threads| && forall j: nat :: j < n ==> Quiet(f.threads[j])
    ensures Leads(start, g) && !g.sealed && |g.threads| == |f.threads| && g.base == f.base && forall j: nat :: j < |g.threads| ==> Quiet(g.threads[j])
    decreases |f.threads| - n
  {
    hide Leads, Merge;
    g := f;
    if n < |f.threads| {
      if f.threads[n].Counting? { g := LeadsOn(start, g, Go(n)); }
      if Counted(g.threads[n]) { g := LeavesOneShort(start, g, n); }
      g := AllEnd(start, g, n + 1);
    }
  }

  /** A Seal waits for a count below zero that nobody will change. */
  ghost predicate Stuck(f: Frame, s: nat) {
    f.sealed && f.writers < 0 && s < |f.threads| && f.threads[s].Waiting? && forall j: nat :: j < |f.threads| ==> Quiet(f.threads[j])
  }

  lemma StuckStep(f: Frame, a: Act, s: nat)
    requires Stuck(f, s) && Enabled(f, a)
    ensures Stuck(Apply(f, a), s)
  {
    hide Merge;
  }

  lemma {:induction false} StuckForever(f: Frame, acts: seq<Act>, s: nat)
    requires Stuck(f, s) && Runs(f, acts)
    ensures Stuck(Exec(f, acts), s)
    decreases |acts|
  {
    if acts != [] {
      StuckStep(f, acts[0], s);
      hide Apply, Enabled, Stuck;
      StuckForever(Apply(f, acts[0]), acts[1..], s);
    }
  }

  lemma {:induction false} CountedIsPositive(ts: seq<Thread>, i: nat)
    requires i < |ts| && Counted(ts[i])
    ensures Writers(ts) > 0
  {
    if i < |ts| - 1 { CountedIsPositive(ts[..|ts| - 1], i); }
  }

  lemma SealSticks(start: Frame, f: Frame) returns (g: Frame)
    requires Leads(start, f) && !f.sealed && f.writers < 0 && forall j: nat :: j < |f.threads| ==> Quiet(f.threads[j])
    ensures Leads(start, g) && Stuck(g, |f.threads|)
  {
    hide Leads;
    var s := |f.threads|;
    g := LeadsOn(start, f, CallSeal);
    g := LeadsOn(start, g, Go(s));
    assert g.threads == f.threads + [Waiting];
  }

  /**
   * Whenever a use begins with a write of an earlier one inside, some run of it lets its own Seal wait for good: the
   * write's end takes one from a count it is not in, the count stays below zero, and nobody enters any more.
   */
  lemma LeftoverBlocksSeal(start: Frame, i: nat) returns (f: Frame, s: nat)
    requires Starts(start) && i < |start.threads| && Counted(start.threads[i])
    ensures Leads(start, f) && start.base <= s < |f.threads| && f.threads[s].Waiting?
    ensures forall g :: Leads(f, g) ==> s < |g.threads| && g.threads[s].Waiting?
  {
    LeadsSelf(start);
    CountedIsPositive(start.threads, i);
    var base := start.base;
    assert base == |start.threads| && start.writers == 0 && !start.sealed;
    hide Starts, Leads;
    var u := AllEnd(start, start, 0);
    DriftLeads(start, u);
    NobodyInside(u.threads);
    hide Drift, Writers;
    f := SealSticks(start, u);
    s := |u.threads|;
    forall g | Leads(f, g) ensures s < |g.threads| && g.threads[s].Waiting? { StuckLeads(f, g, s); }
  }

  lemma StuckLeads(f: Frame, g: Frame, s: nat)
    requires Stuck(f, s) && Leads(f, g)
    ensures Stuck(g, s)
  {
    hide Stuck;
    var acts :| Runs(f, acts) && Exec(f, acts) == g;
    StuckForever(f, acts, s);
  }

  /** In every run of a use from `start`, a Seal call of the use that waits can return. */
  ghost predicate SealReturns(start: Frame) {
    forall f, i: nat :: Leads(start, f) && start.base <= i < |f.threads| && f.threads[i].Waiting? ==> CanReturn(f, i)
  }

  ghost predicate CanReturn(f: Frame, i: nat) {
    exists g :: Leads(f, g) && i < |g.threads| && g.threads[i] == Sealed(true)
  }

  /** A use's Seal is never blocked for good if and only if the use began with no write of an earlier one inside. */
  lemma SealReturnsIff(start: Frame)
    requires Starts(start)
    ensures SealReturns(start) <==> Clean(start)
  {
    hide Leads, Starts;
    if Clean(start) {
      forall f, i: nat | Leads(start, f) && start.base <= i < |f.threads| && f.threads[i].Waiting? ensures CanReturn(f, i) {
        var g := SealCanReturn(start, f, i);
      }
    } else {
      var i: nat :| i < |start.threads| && Counted(start.threads[i]);
      var f, s := LeftoverBlocksSeal(start, i);
      assert !CanReturn(f, s);
    }
  }
}
