/**
 * What the operations on pooled frames bring about, in every reached heap: what a fork takes over, what a
 * write stores, what a release starts and what a reclaim closes.
 */
module FrameEffects {
  import opened FrameContexts
  import opened Options
  import opened FrameLifetime
  import opened FrameTheorems

  /** Frames other than `o` and `p` are as before. */
  ghost predicate OthersSame(h: Heap, v: Heap, o: nat, p: Option<nat>) {
    |h.objs| <= |v.objs| && forall i: nat :: IsObj(h, i) && i != o && p != Some(i) ==> v.objs[i] == h.objs[i]
  }

  /**
   * A fork holds its parent's inheritable values, its own or as cloned, and if it continues the execution also
   * the execution values, which stay the parent's; it holds nothing else.
   */
  lemma CopyInherits(h: Heap, o: nat, clones: map<Key, Value>)
    requires Reached(h) && Enabled(h, Copy(o, clones))
    ensures var f, p, c := h.objs[o], h.objs[h.objs[o].parent.value], Apply(h, Copy(o, clones)).objs[o];
      && p.phase == Live
      && (forall k :: k in c.values <==> k in p.values && (k.inherit || (k.execution && f.continuing)))
      && (forall k :: k in c.values && k.execution && f.continuing ==> c.values[k] == Lent(p.values[k].value))
      && (forall k :: k in c.values && !(k.execution && f.continuing) ==>
            c.values[k] == Own(if k in clones then clones[k] else p.values[k].value))
      && (forall k :: k in c.borrowed <==> k in p.values && k.execution && f.continuing)
      && (forall k :: k in c.borrowed ==> c.borrowed[k] == p.values[k].value)
      && c.stage == Open && c.refcount == f.refcount && c.generation == f.generation && c.parent == f.parent
    ensures OthersSame(h, Apply(h, Copy(o, clones)), o, None)
  {
    hide Reached, LogInv, RefsOk, CallsOk;
    ReachedOk(h);
    RefsAt(h.objs, o);
  }

  /** What a new frame is like: in use by its owner alone, with nothing stored, under a generation not used before. */
  ghost predicate NewFrame(h: Heap, v: Heap, o: nat) {
    && IsObj(v, o)
    && var c := v.objs[o];
       && c.phase == Live && c.held && c.refcount == 1 && c.values == map[] && c.borrowed == map[] && !c.sealed && c.writers == 0
       && c.generation == c.inc > (if o < |h.objs| then h.objs[o].generation else 0)
  }

  /** A fork acquires its parent exactly when the handle still resolves; otherwise it is a root of its own. */
  lemma ForkAcquires(h: Heap, st: Step)
    requires Reached(h) && Enabled(h, st) && st.Fork?
    ensures var v, p := Apply(h, st), st.parent;
      && NewFrame(h, v, st.o)
      && (if p.Some? && Handled(h, p.value, st.generation) then
            && v.objs[st.o].parent == p && v.objs[st.o].stage == Acquired && p.value != st.o
            && v.objs[p.value] == h.objs[p.value].(refcount := h.objs[p.value].refcount + 1) && OthersSame(h, v, st.o, p)
          else v.objs[st.o].parent.None? && v.objs[st.o].stage == Open && OthersSame(h, v, st.o, None))
  {
    hide Reached, LogInv, Inv, Apply, Retained;
    ReachedOk(h);
    ForkIs(h, st);
    PooledApart(h, st);
    PutIs(h, st);
  }

  lemma ForkIs(h: Heap, st: Step)
    requires Enabled(h, st) && st.Fork?
    ensures Apply(h, st).objs == Put(Retained(h, st), st.o, Child(h, st))
  {
  }

  /** A pooled frame is nobody's parent. */
  lemma PooledApart(h: Heap, st: Step)
    requires Inv(h) && Enabled(h, st) && st.Fork?
    ensures AcquiredBy(h, st).Some? ==> AcquiredBy(h, st).value != st.o
  {
    hide RefsOk, CallsOk;
    if st.o < |h.objs| { RefsAt(h.objs, st.o); }
  }

  lemma PutIs(h: Heap, st: Step)
    requires Enabled(h, st) && st.Fork? && (AcquiredBy(h, st).Some? ==> AcquiredBy(h, st).value != st.o)
    ensures var us, p := Put(Retained(h, st), st.o, Child(h, st)), AcquiredBy(h, st);
      && st.o < |us| && |h.objs| <= |us| && us[st.o] == Child(h, st)
      && (p.Some? ==> us[p.value] == h.objs[p.value].(refcount := h.objs[p.value].refcount + 1))
      && (forall i: nat :: IsObj(h, i) && i != st.o && p != Some(i) ==> us[i] == h.objs[i])
  {
    hide Child;
  }

  /** The frame stores, borrows and flags what it did. */
  predicate Kept(f: Obj, g: Obj) {
    g.values == f.values && g.borrowed == f.borrowed && g.sealed == f.sealed
  }

  lemma ForkKept(h: Heap, st: Step, o: nat)
    requires Reached(h) && Enabled(h, st) && st.Fork? && IsObj(h, o) && st.o != o
    ensures IsObj(Apply(h, st), o) && Kept(h.objs[o], Apply(h, st).objs[o])
  {
    hide Reached, Apply, Enabled, NewFrame;
    ForkAcquires(h, st);
  }

  lemma DropKept(objs: seq<Obj>, f: Obj, c: nat, o: nat)
    requires c < |objs| && o < |objs| && Kept(objs[c], f)
    ensures var us := DropRef(objs[c := f], objs[c].parent); o < |us| && Kept(objs[o], us[o])
  {
    hide Decremented;
    var us := objs[c := f];
    assert Kept(objs[o], us[o]);
    DecrementKept(us[o]);
  }

  lemma DecrementKept(f: Obj)
    ensures Kept(f, Decremented(f))
  {
  }

  /** A reference given up, by a temporary fork or a reclaim, leaves what every frame stores. */
  lemma DropsKept(h: Heap, st: Step, o: nat)
    requires Enabled(h, st) && (st.DropParent? || st.ReleaseParent?) && IsObj(h, o)
    ensures IsObj(Apply(h, st), o) && Kept(h.objs[o], Apply(h, st).objs[o])
  {
    var f := h.objs[st.o];
    DropKept(h.objs, if st.DropParent? then f.(parent := None, temporary := false) else f.(parent := None, temporary := false, phase := Returning), st.o, o);
    hide DropRef;
  }

  /** The write that step `st` commits to key `k` of frame `o`. */
  predicate CommitsTo(h: Heap, st: Step, o: nat, k: Key) {
    st.Commit? && st.w in h.calls && h.calls[st.w].o == o && st.k == k
  }

  /**
   * In every reached heap a frame's value under a key changes exactly when its use begins or its values are closed,
   * which leave nothing there, when it copies its parent, and by a write to the key: the value written is then the
   * frame's own unless it is the comparable handle borrowed there.
   */
  lemma ValuesChangeExactly(h: Heap, st: Step, o: nat, k: Key)
    requires Reached(h) && Enabled(h, st) && IsObj(h, o) && !(st.Copy? && st.o == o)
    ensures IsObj(Apply(h, st), o)
    ensures var f, g := h.objs[o], Apply(h, st).objs[o];
      if (st.Fork? || st.CloseValues?) && st.o == o then k !in g.values
      else if CommitsTo(h, st, o, k) then
        && k in g.values && g.values[k].value == st.v
        && (g.values[k].Lent? <==> k in f.borrowed && f.borrowed[k] == st.v && st.v.comparable)
      else (k in g.values <==> k in f.values) && (k in f.values ==> g.values[k] == f.values[k])
  {
    hide Reached, Inherited, Carried, Owned, Put, Retained, DropRef;
    if st.Fork? && st.o == o {
      ForkIs(h, st);
      ForkAcquires(h, st);
    } else if st.Fork? {
      hide Apply, Enabled, Child;
      ForkKept(h, st, o);
    } else if st.DropParent? || st.ReleaseParent? {
      hide Apply, Enabled;
      DropsKept(h, st, o);
    }
  }

  /** The flag is up exactly once a seal or a fork raised it, until the frame is closed or used anew. */
  lemma FlagChangesExactly(h: Heap, st: Step, o: nat)
    requires Reached(h) && Enabled(h, st) && IsObj(h, o)
    ensures IsObj(Apply(h, st), o)
    ensures Apply(h, st).objs[o].sealed <==>
      || (st.Seal? && st.o == o)
      || (st.SealParent? && h.objs[st.o].parent == Some(o))
      || (h.objs[o].sealed && !((st.Fork? || st.CloseValues?) && st.o == o))
  {
    hide Reached, Inherited, Carried, Owned, Put, Retained, DropRef, Store;
    if st.Fork? && st.o == o {
      ForkIs(h, st);
      ForkAcquires(h, st);
    } else if st.Fork? {
      hide Apply, Enabled, Child;
      ForkKept(h, st, o);
    } else if st.DropParent? || st.ReleaseParent? {
      hide Apply, Enabled;
      DropsKept(h, st, o);
    }
  }

  /** What is closed, for good, is exactly what reclaimed frames owned under exclusive keys. */
  lemma ClosesExactly(h: Heap, st: Step, x: Value)
    requires Reached(h) && Enabled(h, st)
    ensures x in Apply(h, st).closed <==>
      x in h.closed || (st.CloseValues? && exists k :: Exclusive(k) && Owns(h.objs[st.o], k, x))
  {
    hide Reached, Inherited, Carried;
  }

  /** A write may begin exactly through a handle that resolves to an open frame whose flag is down, and is counted until it ends. */
  lemma WriteBegins(h: Heap, o: nat, g: nat, w: nat)
    requires Reached(h) && IsObj(h, o) && w !in h.calls
    ensures Enabled(h, BeginSet(o, g, w)) <==> h.objs[o].phase == Live && h.objs[o].inc == g && h.objs[o].stage == Open && !h.objs[o].sealed
    ensures Enabled(h, BeginSet(o, g, w)) ==>
      var v := Apply(h, BeginSet(o, g, w));
      && v.objs[o] == h.objs[o].(writers := h.objs[o].writers + 1) && w in Inside(v, o)
      && Enabled(v, EndSet(w)) && Apply(v, EndSet(w)).objs == h.objs
  {
    hide Reached, LogInv;
    ResolvesWhileLive(h, o, g);
  }

  /** Releasing a frame: its children keep it in use, and without any its handles stop resolving and its reclaim begins. */
  lemma ReleaseReclaimsIff(h: Heap, o: nat, g: nat)
    requires Reached(h) && Enabled(h, Release(o, g))
    ensures var v := Apply(h, Release(o, g));
      && IsObj(v, o) && !v.objs[o].held && v.objs[o].values == h.objs[o].values && OthersSame(h, v, o, None)
      && (Kids(h.objs, o) != {} ==> v.objs[o].phase == Live && Resolves(v, o, g) && v.objs[o].refcount == h.objs[o].refcount - 1)
      && (Kids(h.objs, o) == {} ==> v.objs[o].phase == Closing && !Resolves(v, o, g) && v.objs[o].refcount == 0)
  {
    hide Reached, LogInv, RefsOk, CallsOk;
    ReachedOk(h);
    RefsAt(h.objs, o);
    hide Kids;
  }

  /** A frame whose reclaim has begun can go through it to the pool: closed, completed, its parent let go. */
  lemma ReclaimCompletes(h: Heap, o: nat) returns (v: Heap)
    requires Reached(h) && IsObj(h, o) && h.objs[o].phase == Closing
    ensures Reached(v) && IsObj(v, o) && v.objs[o].phase == Pooled && v.objs[o].parent.None?
    ensures v.log == h.log + [Closed(o, h.objs[o].inc), Completed(o, h.objs[o].inc)]
    ensures h.objs[o].parent.Some? ==>
      HasParent(h, o) && IsObj(v, h.objs[o].parent.value) && v.objs[h.objs[o].parent.value] == Decremented(h.objs[h.objs[o].parent.value])
  {
    hide Reached, LogInv, RefsOk, CallsOk, Owned;
    ReachedOk(h);
    RefsAt(h.objs, o);
    var a := Apply(h, CloseValues(o));
    ReachedNext(h, CloseValues(o));
    var b := Apply(a, Complete(o));
    ReachedNext(a, Complete(o));
    var c := Apply(b, ReleaseParent(o));
    ReachedNext(b, ReleaseParent(o));
    v := Apply(c, Return(o));
    ReachedNext(c, Return(o));
  }
}
