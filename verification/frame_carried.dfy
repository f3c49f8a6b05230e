/**
 * What continuations borrow. In runs whose callers do what they owe, a borrowed value stays open and is
 * what the parent still holds; without that, concrete runs show how it is lost.
 */
module FrameCarried {
  import opened FrameContexts
  import opened Options
  import opened FrameLifetime
  import opened FrameValues
  import FrameTheorems

  // ---------------------------------------------------------------- runs of obliging callers

  lemma {:induction false} RunKeeps(h: Heap, steps: seq<Step>)
    requires Inv(h) && ValueInv(h) && OwedRuns(h, steps)
    ensures Runs(h, steps) && Inv(Exec(h, steps)) && ValueInv(Exec(h, steps))
    decreases |steps|
  {
    if steps != [] {
      StepKeeps(h, steps[0]);
      StepKeepsValues(h, steps[0]);
      hide Inv, ValueInv, Apply, Enabled, Owed;
      RunKeeps(Apply(h, steps[0]), steps[1..]);
    }
  }

  /** A heap that some run of obliging callers reaches. */
  ghost predicate OwedReached(h: Heap) {
    exists steps :: OwedRuns(EMPTY, steps) && Runs(EMPTY, steps) && Exec(EMPTY, steps) == h
  }

  lemma ReachedOk(h: Heap)
    requires OwedReached(h)
    ensures Inv(h) && ValueInv(h)
  {
    var steps :| OwedRuns(EMPTY, steps) && Runs(EMPTY, steps) && Exec(EMPTY, steps) == h;
    RunKeeps(EMPTY, steps);
  }

  /** A borrowed value belongs to a frame up the chain, which is in use. */
  lemma {:induction false} Lender(h: Heap, o: nat, k: Key) returns (a: nat)
    requires Inv(h) && ValueInv(h) && IsObj(h, o) && k in h.objs[o].borrowed
    ensures IsObj(h, a) && h.objs[a].phase == Live && h.objs[a].depth < h.objs[o].depth
    ensures Owns(h.objs[a], k, h.objs[o].borrowed[k])
    decreases h.objs[o].depth
  {
    hide RefsOk, CallsOk, Owners, Final, WritersOk;
    FrameAt(h, o);
    RefsAt(h.objs, o);
    a := h.objs[o].parent.value;
    FrameAt(h, a);
    hide ValueInv, RefOk;
    if h.objs[a].values[k].Lent? {
      a := Lender(h, a, k);
    }
  }

  /** A borrowed value is open as long as a continuation that carries it has not been reclaimed. */
  lemma BorrowedStaysOpen(h: Heap, o: nat, k: Key)
    requires OwedReached(h) && IsObj(h, o) && k in h.objs[o].borrowed && Exclusive(k)
    ensures h.objs[o].borrowed[k] !in h.closed
  {
    ReachedOk(h);
    hide Owners, BondOk, WritersOk, OwedReached, Inv;
    var a := Lender(h, o, k);
    FrameAt(h, a);
  }

  /** What a continuation borrowed is what its parent, in use, sealed and without a write inside, holds under that key. */
  lemma CarriedMatchesParent(h: Heap, o: nat, k: Key)
    requires OwedReached(h) && IsObj(h, o) && k in h.objs[o].borrowed
    ensures HasParent(h, o)
    ensures var p := h.objs[h.objs[o].parent.value];
      p.phase == Live && p.sealed && k in p.values && p.values[k].value == h.objs[o].borrowed[k]
    ensures Inside(h, h.objs[o].parent.value) == {}
  {
    ReachedOk(h);
    hide Owners, WritersOk, RefsOk, CallsOk, OwedReached, Inside;
    FrameAt(h, o);
    RefsAt(h.objs, o);
  }

  lemma OwnedUnderItsKey(values: map<Key, Stored>, w: Value)
    requires forall j :: j in values ==> values[j].value.key == j
    ensures w in Owned(values) ==> w.key in values && values[w.key] == Own(w)
  {
  }

  /** Reclaiming a continuation closes nothing it borrowed, nor anything another one borrowed. */
  lemma ReclaimKeepsBorrowed(h: Heap, o: nat, i: nat, k: Key)
    requires OwedReached(h) && Enabled(h, CloseValues(o)) && IsObj(h, i) && k in h.objs[i].borrowed && Exclusive(k)
    ensures h.objs[i].borrowed[k] !in Apply(h, CloseValues(o)).closed
  {
    BorrowedStaysOpen(h, i, k);
    ReachedOk(h);
    hide OwedReached, Inv, BondOk, WritersOk;
    var a := Lender(h, i, k);
    FrameAt(h, i);
    KeysOk(h, o);
    assert OneOwner(h.objs[a], h.objs[o], k);
    OwnedUnderItsKey(h.objs[o].values, h.objs[i].borrowed[k]);
  }

  /** Values close at most once: a reclaim closes only values still open. */
  lemma ClosedOnce(h: Heap, o: nat)
    requires OwedReached(h) && Enabled(h, CloseValues(o))
    ensures Owned(h.objs[o].values) !! h.closed
  {
    ReachedOk(h);
    hide OwedReached, Inv, BondOk, WritersOk, Owners;
    FrameAt(h, o);
  }

  /**
   * Whatever replaced a borrowed handle, setting it back makes it borrowed again, so that the reclaim leaves
   * it open, exactly when it is comparable; an incomparable one becomes the continuation's own.
   */
  lemma SetBack(h: Heap, w: nat, k: Key)
    requires OwedReached(h) && Timely(h, w) && k in h.objs[h.calls[w].o].borrowed && Exclusive(k)
    ensures var o := h.calls[w].o;
      var x := h.objs[o].borrowed[k];
      && Enabled(h, Commit(w, k, x))
      && var back := Apply(h, Commit(w, k, x)).objs[o].values;
         && k in back && back[k].value == x
         && (x !in h.closed + Owned(back) <==> x.comparable)
         && (forall j :: j != k ==> (j in back <==> j in h.objs[o].values) && (j in back ==> back[j] == h.objs[o].values[j]))
  {
    var o := h.calls[w].o;
    var x := h.objs[o].borrowed[k];
    BorrowedStaysOpen(h, o, k);
    ReachedOk(h);
    KeysOk(h, o);
    FrameAt(h, o);
    hide OwedReached, Inv, ValueInv, BondOk, WritersOk;
    var back := Apply(h, Commit(w, k, x)).objs[o].values;
    assert forall j :: j in back ==> back[j].value.key == j;
    OwnedUnderItsKey(back, x);
    if back[k] == Own(x) { assert x in Owned(back); }
  }

  // ---------------------------------------------------------------- when no write is inside at the copy

  /** Frame `p` is no longer in the use that began with generation `inc`. */
  ghost predicate Over(h: Heap, p: nat, inc: nat) {
    IsObj(h, p) && h.objs[p].inc >= inc && (h.objs[p].phase == Live ==> h.objs[p].inc > inc)
  }

  ghost predicate Fixed(h: Heap, p: nat, inc: nat, values: map<Key, Stored>) {
    IsObj(h, p) && h.objs[p].inc == inc && h.objs[p].phase == Live && h.objs[p].stage == Open && Final(h, p) && h.objs[p].values == values
  }

  /** No step of obliging callers enters a sealed frame, or writes to one nobody is inside of. */
  lemma StillFixed(h: Heap, st: Step, v: Heap, p: nat, inc: nat, values: map<Key, Stored>)
    requires Enabled(h, st) && Owed(h, st) && StillRefs(st) && v == Apply(h, st) && |v.objs| == |h.objs|
    requires Fixed(h, p, inc, values) && SameRef(h.objs[p], v.objs[p])
    ensures Fixed(v, p, inc, values)
  {
    hide Inherited, Carried, Store, Installable;
    assert forall w :: w in Inside(h, p) <==> w in h.calls && h.calls[w] == Call(p, inc);
    assert forall w :: w in v.calls ==> v.calls[w] != Call(p, inc);
    assert Inside(v, p) == {};
    hide Inside, SameRef;
    if st.Commit? { assert h.calls[st.w].o != p; }
  }

  lemma StepFixed(h: Heap, st: Step, v: Heap, p: nat, inc: nat, values: map<Key, Stored>)
    requires Inv(h) && Enabled(h, st) && Owed(h, st) && v == Apply(h, st)
    requires Over(h, p, inc) || Fixed(h, p, inc, values)
    ensures Over(v, p, inc) || Fixed(v, p, inc, values)
  {
    hide RefsOk, CallsOk, LetGo, Child, Owed, Inside, Apply;
    RefsAt(h.objs, p);
    if st.Fork? {
      ForkShape(h, st);
      SameCalls(h, st, v, p);
    } else if st.DropParent? || st.ReleaseParent? {
      LetGoStep(h, st);
      LetGoIs(h.objs, st.o, LetGoFrame(h.objs[st.o]), v.objs);
      LetGoShape(h.objs, st.o, LetGoFrame(h.objs[st.o]), v.objs, p);
      SameCalls(h, st, v, p);
    } else if st.Release? {
      ReleaseFixed(h, st, v, p);
      SameCalls(h, st, v, p);
    } else {
      StillSame(h, st, v);
      if Fixed(h, p, inc, values) { StillFixed(h, st, v, p, inc, values); }
    }
  }

  lemma SameCalls(h: Heap, st: Step, v: Heap, p: nat)
    requires Enabled(h, st) && !StillRefs(st) && v == Apply(h, st) && IsObj(h, p) && IsObj(v, p)
    ensures v.objs[p].inc == h.objs[p].inc ==> Inside(v, p) == Inside(h, p)
  {
    hide Child, DropRef;
    assert v.calls == h.calls;
  }

  lemma ReleaseFixed(h: Heap, st: Step, v: Heap, p: nat)
    requires Enabled(h, st) && st.Release? && v == Apply(h, st) && IsObj(h, p)
    ensures IsObj(v, p) && ReleasedFrom(h.objs[p], v.objs[p])
  {
    hide ReleasedFrom;
    var f := h.objs[st.o];
    assert v.objs[p] == if p != st.o then h.objs[p] else if f.generation == st.generation then Decremented(f.(held := false)) else f.(held := false);
    hide Apply, Enabled, Decremented;
    DecrementedFrom(h.objs[p]);
  }

  /** A frame that lost a reference is the same use with the same values, and perhaps about to close. */
  ghost predicate ReleasedFrom(f: Obj, g: Obj) {
    g.inc == f.inc && g.values == f.values && g.sealed == f.sealed && g.stage == f.stage && (g.phase == f.phase || g.phase == Closing)
  }

  lemma DecrementedFrom(f: Obj)
    ensures ReleasedFrom(f, f) && ReleasedFrom(f, f.(held := false)) && ReleasedFrom(f, Decremented(f.(held := false)))
  {
  }

  lemma {:induction false} RunFixed(h: Heap, steps: seq<Step>, p: nat, inc: nat, values: map<Key, Stored>)
    requires Inv(h) && OwedRuns(h, steps) && Runs(h, steps)
    requires Over(h, p, inc) || Fixed(h, p, inc, values)
    ensures Over(Exec(h, steps), p, inc) || Fixed(Exec(h, steps), p, inc, values)
    decreases |steps|
  {
    if steps != [] {
      StepKeeps(h, steps[0]);
      StepFixed(h, steps[0], Apply(h, steps[0]), p, inc, values);
      hide Inv, Apply, Enabled, Owed, Over, Fixed;
      RunFixed(Apply(h, steps[0]), steps[1..], p, inc, values);
    }
  }

  /**
   * After a Seal that found the writers gone, no write is inside the frame and its snapshot is the same, for
   * as long as that use lasts: a continuation that follows it owes nothing more for its copy.
   */
  lemma WaitedStaysFinal(h: Heap, p: nat, g: nat, steps: seq<Step>)
    requires OwedReached(h) && Handled(h, p, g) && h.objs[p].sealed && h.objs[p].writers == 0
    requires OwedRuns(h, steps) && Runs(h, steps)
    ensures var v := Exec(h, steps);
      IsObj(v, p) && (Resolves(v, p, g) ==> v.objs[p].sealed && Inside(v, p) == {} && v.objs[p].values == h.objs[p].values)
  {
    ReachedOk(h);
    RunKeeps(h, steps);
    var v := Exec(h, steps);
    hide OwedReached, OwedRuns, Runs, RefsOk, CallsOk;
    RefsAt(h.objs, p);
    FrameAt(h, p);
    hide ValueInv, BondOk, ValuesOk;
    assert Inside(h, p) == {};
    hide Inside;
    RunFixed(h, steps, p, h.objs[p].inc, h.objs[p].values);
    RefsAt(v.objs, p);
  }

  /**
   * With a write inside the parent when a continuation copies it, the match is lost as soon as that write
   * swaps a carried key, in every reached heap: the parent is in use and sealed, and holds another value.
   */
  lemma LateWriteBreaksMatch(h: Heap, o: nat, clones: map<Key, Value>, w: nat, k: Key, x: Value)
    requires FrameTheorems.Reached(h) && Enabled(h, Copy(o, clones)) && h.objs[o].continuing
    requires var p := h.objs[o].parent.value; w in Inside(h, p) && k in h.objs[p].values && k.execution && h.objs[p].values[k].value != x
    ensures var u := Apply(h, Copy(o, clones));
      && Enabled(u, Commit(w, k, x))
      && var v := Apply(u, Commit(w, k, x));
         && HasParent(v, o) && v.objs[o].parent == h.objs[o].parent && v.objs[v.objs[o].parent.value].phase == Live
         && k in v.objs[o].borrowed && !Matches(v.objs[o], v.objs[v.objs[o].parent.value])
  {
    FrameTheorems.ReachedOk(h);
    ParentDiffers(h, o);
    hide Inv, FrameTheorems.Reached, FrameTheorems.LogInv, Inherited;
    var p := h.objs[o].parent.value;
    var u := Apply(h, Copy(o, clones));
    assert k in u.objs[o].borrowed && u.objs[o].borrowed[k] == h.objs[p].values[k].value;
    var v := Apply(u, Commit(w, k, x));
    assert v.objs[p].values[k].value == x && v.objs[o] == u.objs[o];
  }

  // ---------------------------------------------------------------- concrete runs

  const SLOT: Key := Key(0, true, false)
  const HANDLE: Value := Value(0, SLOT, false)
  const OTHER: Value := Value(1, SLOT, true)
  const BLANK: Obj := Obj(1, 1, false, 0, map[], map[], None, Live, Open, false, 1, 0, false, true, 0)
  const ROOT: Obj := BLANK.(values := map[SLOT := Own(HANDLE)])
  const LENDING: Obj := ROOT.(refcount := 2, sealed := true)
  const NEXT: Obj := BLANK.(values := map[SLOT := Lent(HANDLE)], borrowed := map[SLOT := HANDLE], parent := Some(0), continuing := true, parentInc := 1, depth := 1)
  const BIRTH: seq<Event> := [Born(1, 1, 0, 1)]

  lemma Reaches(h: Heap, st: Step, v: Heap)
    requires FrameTheorems.Reached(h) && Enabled(h, st) && Apply(h, st) == v
    ensures FrameTheorems.Reached(v)
  {
    FrameTheorems.ReachedNext(h, st);
  }

  /** The heap after a whole Set. */
  function Written(h: Heap, o: nat, k: Key, x: Value): Heap
    requires IsObj(h, o)
  {
    h.(objs := h.objs[o := h.objs[o].(values := h.objs[o].values[k := Store(h.objs[o].borrowed, k, x)])])
  }

  lemma SetReached(h: Heap, o: nat, g: nat, k: Key, x: Value)
    requires FrameTheorems.Reached(h) && Handled(h, o, g) && !h.objs[o].sealed && h.calls == map[]
    ensures FrameTheorems.Reached(Written(h, o, k, x))
  {
    hide FrameTheorems.Reached, Store;
    var f := h.objs[o];
    var f2 := f.(values := f.values[k := Store(f.borrowed, k, x)]);
    var call := map[0 := Call(o, f.inc)];
    var h1 := h.(objs := h.objs[o := f.(writers := f.writers + 1)], calls := call);
    var h2 := h.(objs := h.objs[o := f2.(writers := f.writers + 1)], calls := call);
    assert h.calls[0 := Call(o, f.inc)] == call;
    Reaches(h, BeginSet(o, g, 0), h1);
    assert h1.objs[o := f2.(writers := f.writers + 1)] == h2.objs;
    Reaches(h1, Commit(0, k, x), h2);
    assert call - {0} == map[];
    assert h2.objs[o := f2] == h.objs[o := f2];
    Reaches(h2, EndSet(0), Written(h, o, k, x));
  }

  /** A frame held only by its owner is released, and its values are closed. */
  lemma ReleaseReached(h: Heap, o: nat, g: nat) returns (v: Heap)
    requires FrameTheorems.Reached(h) && Handled(h, o, g) && h.objs[o].held && h.objs[o].refcount == 1 && h.objs[o].inc == g
    ensures FrameTheorems.Reached(v) && |v.objs| == |h.objs| && v.closed == h.closed + Owned(h.objs[o].values)
    ensures forall i: nat :: i < |h.objs| && i != o ==> v.objs[i] == h.objs[i]
  {
    hide FrameTheorems.Reached, Owned;
    var u := Apply(h, Release(o, g));
    FrameTheorems.ReachedNext(h, Release(o, g));
    FrameTheorems.ReachedNext(u, CloseValues(o));
    v := Apply(u, CloseValues(o));
  }

  lemma RootReached()
    ensures FrameTheorems.Reached(Heap([ROOT], map[], {}, []))
  {
    var h1 := Heap([BLANK], map[], {}, []);
    assert Runs(EMPTY, []) && Exec(EMPTY, []) == EMPTY && FrameTheorems.Reached(EMPTY);
    hide FrameTheorems.Reached;
    Reaches(EMPTY, Fork(None, 0, 0, false, false), h1);
    SetReached(h1, 0, 1, SLOT, HANDLE);
    assert Written(h1, 0, SLOT, HANDLE).objs == [ROOT];
  }

  /** From the root to a continuation that finds the flag up, with the writes `calls` inside the root. */
  lemma ContinuationReached(calls: map<nat, Call>, writers: int)
    requires FrameTheorems.Reached(Heap([ROOT.(writers := writers)], calls, {}, []))
    ensures FrameTheorems.Reached(Heap([LENDING.(writers := writers), NEXT], calls, {}, BIRTH))
  {
    hide FrameTheorems.Reached;
    var root := LENDING.(writers := writers);
    var child := BLANK.(parent := Some(0), stage := Acquired, continuing := true, parentInc := 1, depth := 1);
    var h1 := Heap([ROOT.(writers := writers, sealed := true)], calls, {}, []);
    var h2 := Heap([root, child], calls, {}, BIRTH);
    var h3 := Heap([root, child.(stage := Copying(false))], calls, {}, BIRTH);
    Reaches(Heap([ROOT.(writers := writers)], calls, {}, []), Seal(0, 1), h1);
    Reaches(h1, Fork(Some(0), 1, 1, true, false), h2);
    Reaches(h2, SealParent(1), h3);
    assert Inherited(ROOT.values, true, map[]) == map[SLOT := Lent(HANDLE)];
    assert Carried(ROOT.values, true) == map[SLOT := HANDLE];
    Reaches(h3, Copy(1, map[]), Heap([root, NEXT], calls, {}, BIRTH));
  }

  /** Setting an incomparable borrowed handle back and releasing the continuation closes it under the root. */
  lemma IncomparableHandleCloses() returns (h: Heap)
    ensures FrameTheorems.Reached(h) && IsObj(h, 0) && h.objs[0].phase == Live && Owns(h.objs[0], SLOT, HANDLE) && HANDLE in h.closed
  {
    RootReached();
    ContinuationReached(map[], 0);
    hide FrameTheorems.Reached;
    var h0 := Heap([LENDING, NEXT], map[], {}, BIRTH);
    SetReached(h0, 1, 1, SLOT, HANDLE);
    h := Written(h0, 1, SLOT, HANDLE);
    assert HANDLE in Owned(h.objs[1].values);
    h := ReleaseReached(h, 1, 1);
  }

  /** A write under way when another caller's Seal raised the flag swaps the carried key after the copy. */
  lemma LateWriterReached()
    ensures FrameTheorems.Reached(Heap([LENDING.(values := map[SLOT := Own(OTHER)]), NEXT], map[], {}, BIRTH))
  {
    RootReached();
    hide FrameTheorems.Reached;
    var call := map[7 := Call(0, 1)];
    Reaches(Heap([ROOT], map[], {}, []), BeginSet(0, 1, 7), Heap([ROOT.(writers := 1)], call, {}, []));
    ContinuationReached(call, 1);
    var late := LENDING.(values := map[SLOT := Own(OTHER)]);
    var h1 := Heap([late.(writers := 1), NEXT], call, {}, BIRTH);
    assert LENDING.values[SLOT := Own(OTHER)] == late.values;
    Reaches(Heap([LENDING.(writers := 1), NEXT], call, {}, BIRTH), Commit(7, SLOT, OTHER), h1);
    assert call - {7} == map[];
    Reaches(h1, EndSet(7), Heap([late, NEXT], map[], {}, BIRTH));
  }

  /**
   * The flag being up does not make the snapshot final. Here the root is in use and sealed, holds another
   * value than its continuation borrowed, and a third frame, free to own the handle, closes it.
   */
  lemma LateWriterCloses() returns (h: Heap)
    ensures FrameTheorems.Reached(h) && IsObj(h, 1) && h.objs[1].phase == Live && h.objs[1].parent == Some(0)
    ensures h.objs[0].phase == Live && h.objs[0].sealed && !Matches(h.objs[1], h.objs[0])
    ensures SLOT in h.objs[1].borrowed && h.objs[1].borrowed[SLOT] in h.closed
  {
    LateWriterReached();
    hide FrameTheorems.Reached;
    var late := LENDING.(values := map[SLOT := Own(OTHER)]);
    var h1 := Heap([late, NEXT, BLANK], map[], {}, BIRTH);
    Reaches(Heap([late, NEXT], map[], {}, BIRTH), Fork(None, 0, 2, false, false), h1);
    assert Installable(h1, 2, SLOT, HANDLE);
    SetReached(h1, 2, 1, SLOT, HANDLE);
    h := Written(h1, 2, SLOT, HANDLE);
    assert HANDLE in Owned(h.objs[2].values);
    h := ReleaseReached(h, 2, 1);
    assert SLOT in NEXT.borrowed && late.values[SLOT].value != NEXT.borrowed[SLOT];
  }
}
