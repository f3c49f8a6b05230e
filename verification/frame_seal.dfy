/**
 * The lock-free writers of one use of a frame and the seal that ends them (api/context/framecontext.go).
 * Every atomic load, add, swap and compare-and-swap is a step of its own, and threads interleave freely. A
 * snapshot is installed under a pointer never used before, so that a version number stands for it. Frames
 * are pooled: a use begins with the flag down and the writer count zeroed, whoever is still inside.
 */
module FrameSeal {
  import opened FrameContexts

  datatype Pair = Pair(key: Key, value: Value)

  /** A Set or SetMultiple call at each of its atomic points, and a Seal call at its. */
  datatype Thread =
    | Entering(pairs: seq<Pair>)
    | Counting(pairs: seq<Pair>)
    | Rechecking(pairs: seq<Pair>)
    | BackingOut(pairs: seq<Pair>)
    | Loading(pairs: seq<Pair>)
    | Swapping(pairs: seq<Pair>, version: nat, snapshot: map<Key, Stored>)
    | Retrying(pairs: seq<Pair>)
    | Leaving(pairs: seq<Pair>, ok: bool)
    | Returned(pairs: seq<Pair>, ok: bool)
    | Flipping
    | Waiting
    | Sealed(flipped: bool)

  /**
   * `borrowed` is fixed at publication. History: threads below `base` are calls of an earlier use, of which
   * those in `early` had swapped by then; `commits` are the threads whose swap succeeded in this use, in
   * order; and `quiet` says that the seal call of this use that flipped the flag has returned.
   */
  datatype Frame = Frame(
    sealed: bool,
    writers: int,
    version: nat,
    values: map<Key, Stored>,
    borrowed: map<Key, Value>,
    initial: map<Key, Stored>,
    threads: seq<Thread>,
    base: nat,
    early: set<nat>,
    commits: seq<nat>,
    quiet: bool)

  datatype Act = Call(pairs: seq<Pair>) | CallSeal | Go(i: nat)

  function Merge(values: map<Key, Stored>, borrowed: map<Key, Value>, pairs: seq<Pair>): map<Key, Stored> {
    if pairs == [] then values
    else
      var last := pairs[|pairs| - 1];
      Merge(values, borrowed, pairs[..|pairs| - 1])[last.key := Store(borrowed, last.key, last.value)]
  }

  /** A thread counted in `writers`. */
  predicate Counted(t: Thread) {
    t.Rechecking? || t.BackingOut? || t.Loading? || t.Swapping? || t.Retrying? || t.Leaving?
  }

  /** A thread that passed the second check and may still swap. */
  predicate Inside(t: Thread) {
    t.Loading? || t.Swapping? || t.Retrying?
  }

  predicate Succeeded(t: Thread) {
    (t.Leaving? || t.Returned?) && t.ok
  }

  /** A use begins: calls of an earlier use may still be under way, having loaded snapshots of that use. */
  ghost predicate Starts(f: Frame) {
    && !f.sealed && f.writers == 0 && f.values == f.initial && f.commits == [] && !f.quiet && f.base == |f.threads|
    && (forall i: nat :: i < |f.threads| ==> !f.threads[i].Returned? && !f.threads[i].Sealed?)
    && (forall i: nat :: i < |f.threads| && f.threads[i].Swapping? ==> f.threads[i].version < f.version)
    && f.early == set i: nat | i < |f.threads| && Succeeded(f.threads[i])
  }

  /** No write of an earlier use is inside. */
  ghost predicate Clean(f: Frame) {
    forall i: nat :: i < |f.threads| ==> !Counted(f.threads[i])
  }

  predicate Enabled(f: Frame, a: Act) {
    a.Go? ==> a.i < |f.threads| && match f.threads[a.i]
    case Returned(_, _) => false
    case Sealed(_) => false
    case Waiting => f.writers == 0
    case _ => true
  }

  /** A compare-and-swap that finds the snapshot it loaded. */
  predicate Swaps(f: Frame, t: Thread) {
    t.Swapping? && t.version == f.version
  }

  /** Where a thread is after its next step; loads see the frame as it is. */
  function After(f: Frame, t: Thread): Thread {
    match t
    case Entering(ps) => if f.sealed then Returned(ps, false) else Counting(ps)
    case Counting(ps) => Rechecking(ps)
    case Rechecking(ps) => if f.sealed then BackingOut(ps) else Loading(ps)
    case BackingOut(ps) => Returned(ps, false)
    case Loading(ps) => Swapping(ps, f.version, f.values)
    case Swapping(ps, _, _) => if Swaps(f, t) then Leaving(ps, true) else Retrying(ps)
    case Retrying(ps) => if f.sealed then Leaving(ps, false) else Loading(ps)
    case Leaving(ps, ok) => Returned(ps, ok)
    case Flipping => if f.sealed then Sealed(false) else Waiting
    case Waiting => Sealed(true)
    case Returned(_, _) => t
    case Sealed(_) => t
  }

  function Apply(f: Frame, a: Act): Frame
    requires Enabled(f, a)
  {
    match a
    case Call(pairs) => f.(threads := f.threads + [Entering(pairs)])
    case CallSeal => f.(threads := f.threads + [Flipping])
    case Go(i) =>
      var t := f.threads[i];
      var g := f.(threads := f.threads[i := After(f, t)],
                  writers := f.writers + (if t.Counting? then 1 else if t.BackingOut? || t.Leaving? then -1 else 0),
                  sealed := f.sealed || t.Flipping?, quiet := f.quiet || (t.Waiting? && i >= f.base));
      if Swaps(f, t) then g.(version := f.version + 1, values := Merge(t.snapshot, f.borrowed, t.pairs), commits := f.commits + [i])
      else g
  }

  predicate Runs(f: Frame, acts: seq<Act>)
    decreases |acts|
  {
    acts != [] ==> Enabled(f, acts[0]) && Runs(Apply(f, acts[0]), acts[1..])
  }

  function Exec(f: Frame, acts: seq<Act>): Frame
    requires Runs(f, acts)
    decreases |acts|
  {
    if acts == [] then f else Exec(Apply(f, acts[0]), acts[1..])
  }

  // ---------------------------------------------------------------- the invariant

  function Writers(ts: seq<Thread>): nat {
    if ts == [] then 0 else Writers(ts[..|ts| - 1]) + (if Counted(ts[|ts| - 1]) then 1 else 0)
  }

  function PairsOf(t: Thread): seq<Pair> {
    match t
    case Flipping => []
    case Waiting => []
    case Sealed(_) => []
    case _ => t.pairs
  }

  /** The calls that succeeded, replayed one after another. */
  function Replay(values: map<Key, Stored>, borrowed: map<Key, Value>, ts: seq<Thread>, commits: seq<nat>): map<Key, Stored> {
    if commits == [] then values
    else
      var last := commits[|commits| - 1];
      var before := Replay(values, borrowed, ts, commits[..|commits| - 1]);
      if last < |ts| then Merge(before, borrowed, PairsOf(ts[last])) else before
  }

  ghost predicate CommitsOk(f: Frame) {
    && (forall n: nat :: n < |f.commits| ==> f.commits[n] < |f.threads| && Succeeded(f.threads[f.commits[n]]) && f.commits[n] !in f.early)
    && (forall m: nat, n: nat :: m < n < |f.commits| ==> f.commits[m] != f.commits[n])
    && (forall i: nat :: i < |f.threads| && Succeeded(f.threads[i]) && i !in f.early ==> i in f.commits)
    && (forall i: nat :: i in f.early ==> i < |f.threads| && Succeeded(f.threads[i]))
  }

  /** What a thread loaded is current until another one swaps. */
  ghost predicate LoadOk(f: Frame, t: Thread) {
    t.Swapping? ==> t.version <= f.version && (t.version == f.version ==> t.snapshot == f.values)
  }

  /** A seal call of this use against the flag, and every call against the seal that has returned. */
  ghost predicate SealOk(f: Frame, i: nat, t: Thread) {
    && (i >= f.base && (t.Waiting? || t.Sealed?) ==> f.sealed)
    && (i >= f.base && t == Sealed(true) ==> f.quiet)
    && (f.quiet ==> !Inside(t))
  }

  /** The snapshot and its history. */
  ghost predicate Inv(f: Frame) {
    && f.values == Replay(f.initial, f.borrowed, f.threads, f.commits)
    && CommitsOk(f)
    && (forall i: nat :: i < |f.threads| ==> LoadOk(f, f.threads[i]))
  }

  /** The writer count and the seal, in a use that began with no write inside. */
  ghost predicate SealInv(f: Frame) {
    && f.writers == Writers(f.threads)
    && (f.quiet ==> f.sealed)
    && f.base <= |f.threads|
    && (forall i: nat :: i < |f.threads| ==> SealOk(f, i, f.threads[i]))
  }

  lemma {:induction false} WritersUpdate(ts: seq<Thread>, i: nat, t: Thread)
    requires i < |ts|
    ensures Writers(ts[i := t]) == Writers(ts) + (if Counted(t) then 1 else 0) - (if Counted(ts[i]) then 1 else 0)
  {
    var n := |ts| - 1;
    if i == n {
      assert ts[i := t][..n] == ts[..n];
    } else {
      assert ts[i := t][..n] == ts[..n][i := t];
      WritersUpdate(ts[..n], i, t);
    }
  }

  lemma {:induction false} NobodyCounted(ts: seq<Thread>, i: nat)
    requires i < |ts| && Writers(ts) == 0
    ensures !Counted(ts[i])
  {
    if i < |ts| - 1 { NobodyCounted(ts[..|ts| - 1], i); }
  }

  /** Replaying depends only on what the committed threads were called with. */
  lemma {:induction false} ReplaySame(values: map<Key, Stored>, borrowed: map<Key, Value>, ts: seq<Thread>, us: seq<Thread>, commits: seq<nat>)
    requires forall n: nat :: n < |commits| ==> commits[n] < |ts| && commits[n] < |us| && PairsOf(ts[commits[n]]) == PairsOf(us[commits[n]])
    ensures Replay(values, borrowed, ts, commits) == Replay(values, borrowed, us, commits)
  {
    if commits != [] {
      ReplaySame(values, borrowed, ts, us, commits[..|commits| - 1]);
    }
  }

  lemma CommitsSame(f: Frame, i: nat, t: Thread, v: Frame)
    requires CommitsOk(f) && i < |f.threads| && v.threads == f.threads[i := t] && v.commits == f.commits && v.early == f.early
    requires Succeeded(t) <==> Succeeded(f.threads[i])
    ensures CommitsOk(v)
  {
  }

  lemma CommitsIn(f: Frame)
    requires CommitsOk(f)
    ensures forall n: nat :: n < |f.commits| ==> f.commits[n] < |f.threads|
  {
  }

  /** What a step does to its own thread. */
  lemma AfterOk(f: Frame, t: Thread)
    ensures PairsOf(After(f, t)) == PairsOf(t)
    ensures Succeeded(After(f, t)) <==> Succeeded(t) || Swaps(f, t)
    ensures (if Counted(After(f, t)) then 1 else 0) - (if Counted(t) then 1 else 0)
      == (if t.Counting? then 1 else if t.BackingOut? || t.Leaving? then -1 else 0)
  {
  }

  /** A thread's load is in order after another one's step, or its own. */
  lemma LoadKeeps(f: Frame, t: Thread, v: Frame, u: Thread)
    requires LoadOk(f, t) && LoadOk(f, u)
    requires if Swaps(f, t) then v.version == f.version + 1 else v.version == f.version && v.values == f.values
    ensures LoadOk(v, u) && LoadOk(v, After(f, t))
  {
  }

  lemma SealKeeps(f: Frame, i: nat, t: Thread, v: Frame, j: nat, u: Thread)
    requires SealOk(f, i, t) && SealOk(f, j, u) && (f.quiet ==> f.sealed)
    requires v.base == f.base && v.sealed == (f.sealed || t.Flipping?) && v.quiet == (f.quiet || (t.Waiting? && i >= f.base))
    requires t.Waiting? ==> !Counted(u) && !Counted(t)
    ensures SealOk(v, j, u) && SealOk(v, i, After(f, t)) && (v.quiet ==> v.sealed)
  {
  }

  lemma GoSeals(f: Frame, i: nat, v: Frame)
    requires SealInv(f) && Enabled(f, Go(i)) && v == Apply(f, Go(i))
    ensures SealInv(v)
  {
    hide Writers, Merge, PairsOf, SealOk, After, Counted;
    var t := f.threads[i];
    assert SealOk(f, i, t);
    AfterOk(f, t);
    WritersUpdate(f.threads, i, After(f, t));
    assert v.threads == f.threads[i := After(f, t)];
    if t.Waiting? { NobodyCounted(f.threads, i); }
    SealKeeps(f, i, t, v, i, t);
    forall j: nat | j < |v.threads| ensures SealOk(v, j, v.threads[j]) {
      assert SealOk(f, j, f.threads[j]);
      if t.Waiting? { NobodyCounted(f.threads, j); }
      SealKeeps(f, i, t, v, j, f.threads[j]);
    }
  }

  lemma LoadsKeep(f: Frame, i: nat, v: Frame)
    requires Inv(f) && Enabled(f, Go(i)) && v == Apply(f, Go(i))
    ensures forall j: nat :: j < |v.threads| ==> LoadOk(v, v.threads[j])
  {
    hide Replay, CommitsOk, Merge, PairsOf, LoadOk, After;
    var t := f.threads[i];
    assert LoadOk(f, t);
    forall j: nat | j < |v.threads| ensures LoadOk(v, v.threads[j]) {
      assert LoadOk(f, f.threads[j]);
      LoadKeeps(f, t, v, f.threads[j]);
    }
  }

  lemma GoKeeps(f: Frame, i: nat, v: Frame)
    requires Inv(f) && Enabled(f, Go(i)) && v == Apply(f, Go(i))
    ensures Inv(v)
  {
    hide After, Replay, CommitsOk, Merge, PairsOf, LoadOk, Succeeded;
    var t := f.threads[i];
    AfterOk(f, t);
    LoadsKeep(f, i, v);
    CommitsIn(f);
    assert v.threads == f.threads[i := After(f, t)];
    ReplaySame(f.initial, f.borrowed, f.threads, v.threads, f.commits);
    if Swaps(f, t) {
      assert t.snapshot == f.values by { assert LoadOk(f, t); LoadedIsCurrent(f, t); }
      assert !Succeeded(t) by { NotYet(f, t); }
      CommitReplays(f, i, v);
      CommitAdds(f, i, v);
    } else {
      CommitsSame(f, i, After(f, t), v);
    }
  }

  lemma LoadedIsCurrent(f: Frame, t: Thread)
    requires LoadOk(f, t) && Swaps(f, t)
    ensures t.snapshot == f.values
  {
  }

  lemma NotYet(f: Frame, t: Thread)
    requires Swaps(f, t)
    ensures !Succeeded(t)
  {
  }

  lemma CommitReplays(f: Frame, i: nat, v: Frame)
    requires i < |f.threads| && f.threads[i].Swapping? && i < |v.threads| && PairsOf(v.threads[i]) == PairsOf(f.threads[i])
    requires f.values == Replay(f.initial, f.borrowed, v.threads, f.commits)
    requires v.commits == f.commits + [i] && v.initial == f.initial && v.borrowed == f.borrowed
    ensures Merge(f.values, f.borrowed, f.threads[i].pairs) == Replay(v.initial, v.borrowed, v.threads, v.commits)
  {
    assert v.commits[..|f.commits|] == f.commits;
    hide Merge;
  }

  lemma CommitAdds(f: Frame, i: nat, v: Frame)
    requires CommitsOk(f) && i < |f.threads| && !Succeeded(f.threads[i])
    requires |v.threads| == |f.threads| && Succeeded(v.threads[i]) && v.commits == f.commits + [i] && v.early == f.early
    requires forall j: nat :: j < |f.threads| && j != i ==> v.threads[j] == f.threads[j]
    ensures CommitsOk(v)
  {
    assert v.commits[|f.commits|] == i;
    forall j: nat | j < |v.threads| && Succeeded(v.threads[j]) && j !in v.early ensures j in v.commits {
      if j != i { assert j in f.commits; }
    }
  }

  lemma CallCommits(f: Frame, t: Thread, v: Frame)
    requires CommitsOk(f) && !Succeeded(t) && v.threads == f.threads + [t] && v.commits == f.commits && v.early == f.early
    ensures CommitsOk(v)
  {
  }

  lemma CallSeals(f: Frame, t: Thread, v: Frame)
    requires SealInv(f) && (t.Entering? || t.Flipping?) && v == f.(threads := f.threads + [t])
    ensures SealInv(v)
  {
    assert v.threads[..|v.threads| - 1] == f.threads;
    hide Writers;
    assert Writers(v.threads) == Writers(f.threads) by { CallUncounted(f.threads, t); }
    forall j: nat | j < |v.threads| ensures SealOk(v, j, v.threads[j]) {
      if j < |f.threads| { assert SealOk(f, j, f.threads[j]); }
    }
  }

  lemma CallUncounted(ts: seq<Thread>, t: Thread)
    requires !Counted(t)
    ensures Writers(ts + [t]) == Writers(ts)
  {
    assert (ts + [t])[..|ts|] == ts;
  }

  lemma CallKeeps(f: Frame, t: Thread, v: Frame)
    requires Inv(f) && (t.Entering? || t.Flipping?) && v == f.(threads := f.threads + [t])
    ensures Inv(v)
  {
    hide CommitsOk, Replay, Merge, PairsOf;
    CallCommits(f, t, v);
    CommitsIn(f);
    ReplaySame(f.initial, f.borrowed, f.threads, v.threads, f.commits);
    forall j: nat | j < |v.threads| ensures LoadOk(v, v.threads[j]) {
      if j < |f.threads| { assert LoadOk(f, f.threads[j]); }
    }
  }

  lemma StepKeeps(f: Frame, a: Act)
    requires Enabled(f, a)
    ensures Inv(f) ==> Inv(Apply(f, a))
    ensures SealInv(f) ==> SealInv(Apply(f, a))
  {
    hide Inv, SealInv, Merge, After;
    var v := Apply(f, a);
    if Inv(f) {
      match a {
        case Call(pairs) => CallKeeps(f, Entering(pairs), v);
        case CallSeal => CallKeeps(f, Flipping, v);
        case Go(i) => GoKeeps(f, i, v);
      }
    }
    if SealInv(f) {
      match a {
        case Call(pairs) => CallSeals(f, Entering(pairs), v);
        case CallSeal => CallSeals(f, Flipping, v);
        case Go(i) => GoSeals(f, i, v);
      }
    }
  }

  lemma {:induction false} RunKeeps(f: Frame, acts: seq<Act>)
    requires Runs(f, acts)
    ensures Inv(f) ==> Inv(Exec(f, acts))
    ensures SealInv(f) ==> SealInv(Exec(f, acts))
    decreases |acts|
  {
    if acts != [] {
      StepKeeps(f, acts[0]);
      hide Inv, SealInv, Apply, Enabled;
      RunKeeps(Apply(f, acts[0]), acts[1..]);
    }
  }

  // ---------------------------------------------------------------- what it gives

  /** Some run leads from `f` to `g`. */
  ghost predicate Leads(f: Frame, g: Frame) {
    exists acts :: Runs(f, acts) && Exec(f, acts) == g
  }

  /** A frame in a use, whatever is left of earlier ones. */
  ghost predicate Reached(f: Frame) {
    exists start :: Starts(start) && Leads(start, f)
  }

  lemma StartOk(f: Frame)
    requires Starts(f)
    ensures Inv(f) && (Clean(f) ==> SealInv(f))
  {
    if Clean(f) { NobodyInside(f.threads); }
  }

  lemma {:induction false} NobodyInside(ts: seq<Thread>)
    requires forall i: nat :: i < |ts| ==> !Counted(ts[i])
    ensures Writers(ts) == 0
  {
    if ts != [] { NobodyInside(ts[..|ts| - 1]); }
  }

  lemma ReachedOk(f: Frame)
    requires Reached(f)
    ensures Inv(f)
  {
    hide Inv;
    var start :| Starts(start) && Leads(start, f);
    var acts :| Runs(start, acts) && Exec(start, acts) == f;
    StartOk(start);
    RunKeeps(start, acts);
  }

  lemma QuietStep(f: Frame, a: Act)
    requires SealInv(f) && f.quiet && Enabled(f, a)
    ensures var v := Apply(f, a); v.quiet && v.values == f.values && v.version == f.version && v.commits == f.commits
  {
    if a.Go? { assert SealOk(f, a.i, f.threads[a.i]); }
    hide SealInv, Merge, After;
  }

  lemma {:induction false} QuietForever(f: Frame, acts: seq<Act>)
    requires SealInv(f) && f.quiet && Runs(f, acts)
    ensures Exec(f, acts).values == f.values && Exec(f, acts).version == f.version && Exec(f, acts).commits == f.commits
    decreases |acts|
  {
    if acts != [] {
      StepKeeps(f, acts[0]);
      QuietStep(f, acts[0]);
      hide SealInv, Inv, Apply, Enabled;
      QuietForever(Apply(f, acts[0]), acts[1..]);
    }
  }

  lemma {:induction false} RunBase(f: Frame, acts: seq<Act>)
    requires Runs(f, acts)
    ensures Exec(f, acts).base == f.base
    decreases |acts|
  {
    if acts != [] {
      assert Apply(f, acts[0]).base == f.base;
      hide Apply, Enabled;
      RunBase(Apply(f, acts[0]), acts[1..]);
    }
  }

  /** Once the seal call that flipped the flag has returned, nothing changes the snapshot any more, if the use began with no write inside. */
  lemma SnapshotFixedAfterSeal(start: Frame, f: Frame, g: Frame, i: nat)
    requires Starts(start) && Clean(start) && Leads(start, f) && Leads(f, g)
    requires start.base <= i < |f.threads| && f.threads[i] == Sealed(true)
    ensures g.values == f.values
  {
    hide SealInv, Inv, Clean;
    var acts :| Runs(start, acts) && Exec(start, acts) == f;
    var more :| Runs(f, more) && Exec(f, more) == g;
    StartOk(start);
    RunKeeps(start, acts);
    RunBase(start, acts);
    QuietNow(f, i);
    QuietForever(f, more);
  }

  lemma QuietNow(f: Frame, i: nat)
    requires SealInv(f) && f.base <= i < |f.threads| && f.threads[i] == Sealed(true)
    ensures f.quiet
  {
    assert SealOk(f, i, f.threads[i]);
  }

  // ---------------------------------------------------------------- a write left inside

  lemma {:induction false} RunsOn(f: Frame, acts: seq<Act>, a: Act)
    requires Runs(f, acts) && Enabled(Exec(f, acts), a)
    ensures Runs(f, acts + [a]) && Exec(f, acts + [a]) == Apply(Exec(f, acts), a)
    decreases |acts|
  {
    hide Enabled, Apply;
    var more := acts + [a];
    if acts == [] {
      assert more == [a] && more[1..] == [];
      assert Runs(Apply(f, a), []) && Exec(Apply(f, a), []) == Apply(f, a);
    } else {
      assert more[0] == acts[0] && more[1..] == acts[1..] + [a];
      RunsOn(Apply(f, acts[0]), acts[1..], a);
    }
  }

  lemma LeadsSelf(f: Frame)
    ensures Leads(f, f)
  {
    assert Runs(f, []) && Exec(f, []) == f;
  }

  lemma LeadsOn(f: Frame, g: Frame, a: Act) returns (v: Frame)
    requires Leads(f, g) && Enabled(g, a)
    ensures v == Apply(g, a) && Leads(f, v)
  {
    hide Enabled, Apply;
    var acts :| Runs(f, acts) && Exec(f, acts) == g;
    RunsOn(f, acts, a);
    v := Apply(g, a);
  }

  /** Steps a write inside needs at most before it returns, while the flag is down. */
  function Left(f: Frame, t: Thread): nat {
    match t
    case Rechecking(_) => 4
    case Loading(_) => 3
    case Swapping(_, version, _) => if version == f.version then 2 else 5
    case Retrying(_) => 4
    case _ => 1
  }

  /** A write of an earlier use returns and takes one from a count it was not in. */
  lemma {:induction false} LeavesOneShort(start: Frame, f: Frame, i: nat) returns (g: Frame)
    requires Leads(start, f) && i < |f.threads| && Counted(f.threads[i]) && !f.sealed
    ensures Leads(start, g) && !g.sealed && g.writers == f.writers - 1 && g.base == f.base && |g.threads| == |f.threads|
    ensures g.threads[i].Returned? && forall j: nat :: j < |f.threads| && j != i ==> g.threads[j] == f.threads[j]
    decreases Left(f, f.threads[i])
  {
    hide Leads, Merge;
    g := LeadsOn(start, f, Go(i));
    if !f.threads[i].BackingOut? && !f.threads[i].Leaving? {
      g := LeavesOneShort(start, g, i);
    }
  }

  /** A pair that changes the snapshot. */
  lemma Changes(values: map<Key, Stored>, borrowed: map<Key, Value>) returns (p: Pair)
    ensures Merge(values, borrowed, [p]) != values
  {
    var k := Key(0, true, false);
    p := Pair(k, Value(if k in values then values[k].value.id + 1 else 0, k, true));
    assert [p][..0] == [];
    assert Merge(values, borrowed, [p])[k] == Store(borrowed, k, p.value);
  }

  /** On a frame that is not sealed a writer goes in and comes to where it loads the snapshot. */
  lemma Enters(start: Frame, f: Frame, pairs: seq<Pair>) returns (g: Frame)
    requires Leads(start, f) && !f.sealed
    ensures Leads(start, g) && g == f.(writers := f.writers + 1, threads := f.threads + [Loading(pairs)])
  {
    hide Leads;
    var j := |f.threads|;
    g := LeadsOn(start, f, Act.Call(pairs));
    g := LeadsOn(start, g, Go(j));
    assert g.threads == f.threads + [Counting(pairs)];
    g := LeadsOn(start, g, Go(j));
    assert g.threads == f.threads + [Rechecking(pairs)];
    g := LeadsOn(start, g, Go(j));
    assert g.threads == f.threads + [Loading(pairs)];
  }

  /** Seal flips the flag, finds the count at zero and returns. */
  lemma SealsOver(start: Frame, f: Frame) returns (g: Frame)
    requires Leads(start, f) && !f.sealed && f.writers == 0 && f.base <= |f.threads|
    ensures Leads(start, g) && g == f.(sealed := true, quiet := true, threads := f.threads + [Sealed(true)])
  {
    hide Leads;
    var s := |f.threads|;
    g := LeadsOn(start, f, CallSeal);
    g := LeadsOn(start, g, Go(s));
    assert g.threads == f.threads + [Waiting];
    g := LeadsOn(start, g, Go(s));
    assert g.threads == f.threads + [Sealed(true)];
  }

  /** The writer that slipped in swaps after all. */
  lemma SwapsLate(f: Frame, j: nat, p: Pair) returns (g: Frame)
    requires j < |f.threads| && f.threads[j] == Loading([p])
    ensures Leads(f, g) && g.values == Merge(f.values, f.borrowed, [p])
  {
    LeadsSelf(f);
    hide Leads, Merge;
    g := LeadsOn(f, f, Go(j));
    g := LeadsOn(f, g, Go(j));
  }

  /**
   * Whenever a use begins with a write of an earlier one inside, some run of it lets its own Seal return and
   * the snapshot change afterwards: the write's end takes one from a count it is not in, and hides the next
   * writer from the Seal.
   */
  lemma LeftoverBreaksSeal(start: Frame, i: nat) returns (f: Frame, g: Frame, s: nat)
    requires Starts(start) && i < |start.threads| && Counted(start.threads[i])
    ensures Leads(start, f) && Leads(f, g) && start.base <= s < |f.threads| && f.threads[s] == Sealed(true)
    ensures g.values != f.values
  {
    LeadsSelf(start);
    hide Leads, Merge;
    var u := LeavesOneShort(start, start, i);
    var p := Changes(u.values, u.borrowed);
    var j := |u.threads|;
    u := Enters(start, u, [p]);
    f := SealsOver(start, u);
    s := j + 1;
    g := SwapsLate(f, j, p);
  }

  /** In every run of a use from `start`, the snapshot stays as it is when the use's own Seal has returned. */
  ghost predicate SealFixes(start: Frame) {
    forall f, g, i: nat :: Leads(start, f) && Leads(f, g) && start.base <= i < |f.threads| && f.threads[i] == Sealed(true) ==> g.values == f.values
  }

  /** The seal does what it is for if and only if the use began with no write of an earlier one inside. */
  lemma SealFixesIff(start: Frame)
    requires Starts(start)
    ensures SealFixes(start) <==> Clean(start)
  {
    hide Leads, Starts;
    if Clean(start) {
      forall f, g, i: nat | Leads(start, f) && Leads(f, g) && start.base <= i < |f.threads| && f.threads[i] == Sealed(true) ensures g.values == f.values {
        SnapshotFixedAfterSeal(start, f, g, i);
      }
    } else {
      var i: nat :| i < |start.threads| && Counted(start.threads[i]);
      var f, g, s := LeftoverBreaksSeal(start, i);
    }
  }

  /** The snapshot is the successful calls, each once, merged one after another; failed calls leave no trace. */
  lemma SnapshotIsSuccessfulCalls(f: Frame)
    requires Reached(f)
    ensures f.values == Replay(f.initial, f.borrowed, f.threads, f.commits)
    ensures forall i: nat :: i < |f.threads| ==> (i in f.commits <==> Succeeded(f.threads[i]) && i !in f.early)
    ensures forall m: nat, n: nat :: m < n < |f.commits| ==> f.commits[m] != f.commits[n]
  {
    ReachedOk(f);
    forall i: nat | i < |f.threads| && i in f.commits ensures Succeeded(f.threads[i]) && i !in f.early {
      var n :| 0 <= n < |f.commits| && f.commits[n] == i;
      assert f.commits[n] < |f.threads|;
    }
  }

  predicate Writes(t: Thread, k: Key) {
    exists n :: 0 <= n < |PairsOf(t)| && PairsOf(t)[n].key == k
  }

  /** The value the call's last pair for `k` stores, found under `k`. */
  ghost predicate HoldsPair(values: map<Key, Stored>, borrowed: map<Key, Value>, pairs: seq<Pair>, k: Key) {
    exists n :: 0 <= n < |pairs| && pairs[n].key == k && k in values && values[k] == Store(borrowed, k, pairs[n].value)
      && (forall m :: n < m < |pairs| ==> pairs[m].key != k)
  }

  lemma {:induction false} MergeElse(values: map<Key, Stored>, borrowed: map<Key, Value>, pairs: seq<Pair>, k: Key)
    requires forall n :: 0 <= n < |pairs| ==> pairs[n].key != k
    ensures k in Merge(values, borrowed, pairs) <==> k in values
    ensures k in values ==> Merge(values, borrowed, pairs)[k] == values[k]
  {
    if pairs != [] { MergeElse(values, borrowed, pairs[..|pairs| - 1], k); }
  }

  lemma {:induction false} MergeAt(values: map<Key, Stored>, borrowed: map<Key, Value>, pairs: seq<Pair>, n: nat)
    requires n < |pairs| && forall m :: n < m < |pairs| ==> pairs[m].key != pairs[n].key
    ensures pairs[n].key in Merge(values, borrowed, pairs)
    ensures Merge(values, borrowed, pairs)[pairs[n].key] == Store(borrowed, pairs[n].key, pairs[n].value)
  {
    if n < |pairs| - 1 { MergeAt(values, borrowed, pairs[..|pairs| - 1], n); }
  }

  lemma {:induction false} LastPair(pairs: seq<Pair>, k: Key) returns (n: nat)
    requires exists j :: 0 <= j < |pairs| && pairs[j].key == k
    ensures n < |pairs| && pairs[n].key == k && forall m :: n < m < |pairs| ==> pairs[m].key != k
  {
    n := |pairs| - 1;
    if pairs[n].key != k {
      var j :| 0 <= j < |pairs| && pairs[j].key == k;
      assert pairs[..n][j].key == k;
      n := LastPair(pairs[..n], k);
    }
  }

  lemma {:induction false} LastWriterWins(values: map<Key, Stored>, borrowed: map<Key, Value>, ts: seq<Thread>, commits: seq<nat>, n: nat, k: Key)
    requires forall m: nat :: m < |commits| ==> commits[m] < |ts|
    requires n < |commits| && Writes(ts[commits[n]], k)
    requires forall m: nat :: n < m < |commits| ==> !Writes(ts[commits[m]], k)
    ensures HoldsPair(Replay(values, borrowed, ts, commits), borrowed, PairsOf(ts[commits[n]]), k)
  {
    var end := |commits| - 1;
    var before := Replay(values, borrowed, ts, commits[..end]);
    var pairs := PairsOf(ts[commits[end]]);
    if n < end {
      LastWriterWins(values, borrowed, ts, commits[..end], n, k);
      assert !Writes(ts[commits[end]], k);
      MergeElse(before, borrowed, pairs, k);
    } else {
      var j := LastPair(pairs, k);
      MergeAt(before, borrowed, pairs, j);
    }
  }

  /** No successful call is lost: what it stored under a key stays until another successful call stores there. */
  lemma NoLostUpdate(f: Frame, n: nat, k: Key)
    requires Reached(f) && n < |f.commits| && f.commits[n] < |f.threads| && Writes(f.threads[f.commits[n]], k)
    ensures HoldsPair(f.values, f.borrowed, PairsOf(f.threads[f.commits[n]]), k)
      || exists m: nat :: n < m < |f.commits| && f.commits[m] < |f.threads| && Writes(f.threads[f.commits[m]], k)
  {
    ReachedOk(f);
    if forall m: nat :: n < m < |f.commits| ==> f.commits[m] < |f.threads| && !Writes(f.threads[f.commits[m]], k) {
      LastWriterWins(f.initial, f.borrowed, f.threads, f.commits, n, k);
    }
  }
}
