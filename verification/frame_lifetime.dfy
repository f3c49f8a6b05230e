/** References of frame contexts: what every run keeps, whatever callers do. */
module FrameLifetime {
  import opened FrameContexts
  import opened Options

  /** Frames that hold a reference on frame `o`. */
  function Kids(objs: seq<Obj>, o: nat): set<nat> {
    set c: nat | c < |objs| && objs[c].parent == Some(o)
  }

  /** A frame's references are its owner and its children; nothing else keeps it in use. */
  ghost predicate RefOk(objs: seq<Obj>, o: nat)
    requires o < |objs|
  {
    var f := objs[o];
    if f.phase == Live then
      f.refcount == (if f.held then 1 else 0) + |Kids(objs, o)| && f.refcount >= 1 && f.generation == f.inc
    else
      f.refcount == 0 && !f.held && Kids(objs, o) == {} && f.generation == f.inc + 1
  }

  /** A frame's parent is in use and still the incarnation it was forked from. */
  ghost predicate ParentOk(objs: seq<Obj>, o: nat)
    requires o < |objs|
  {
    var f := objs[o];
    && (f.parent.Some? ==>
          && f.parent.value < |objs| && f.parent.value != o
          && Attachable(f.phase)
          && var p := objs[f.parent.value];
             p.phase == Live && p.inc == f.parentInc && p.depth < f.depth)
    && (f.temporary ==> f.parent.Some? && !f.continuing)
    && (f.stage != Open ==> f.phase == Live && f.parent.Some? && f.held)
  }

  predicate Attachable(phase: Phase) {
    phase == Live || phase == Closing || phase == Completing || phase == Releasing
  }

  /** A write entered its frame in a use that has begun, and through a handle. */
  ghost predicate CallOk(objs: seq<Obj>, c: Call) {
    c.o < |objs| && c.inc <= objs[c.o].inc && (c.inc == objs[c.o].inc ==> objs[c.o].stage == Open)
  }

  ghost predicate CallsOk(h: Heap) {
    forall w :: w in h.calls ==> CallOk(h.objs, h.calls[w])
  }

  lemma CallAt(h: Heap, w: nat)
    requires Inv(h) && w in h.calls
    ensures CallOk(h.objs, h.calls[w])
  {
    hide RefsOk;
  }

  ghost predicate RefsOk(objs: seq<Obj>) {
    forall o: nat :: o < |objs| ==> RefOk(objs, o) && ParentOk(objs, o)
  }

  ghost predicate Inv(h: Heap) {
    RefsOk(h.objs) && CallsOk(h)
  }

  // ---------------------------------------------------------------- lookups

  lemma RefsAt(objs: seq<Obj>, o: nat)
    requires RefsOk(objs) && o < |objs|
    ensures RefOk(objs, o) && ParentOk(objs, o)
  {
    hide RefOk, ParentOk;
  }

  // ---------------------------------------------------------------- steps that move no reference

  /** What two states of a frame have in common when no reference moved. */
  predicate SameRef(f: Obj, g: Obj) {
    && g.generation == f.generation && g.refcount == f.refcount && g.parent == f.parent && g.inc == f.inc
    && g.parentInc == f.parentInc && g.temporary == f.temporary && g.held == f.held && g.depth == f.depth && g.continuing == f.continuing
    && (g.phase == Live <==> f.phase == Live) && (g.parent.Some? && Attachable(f.phase) ==> Attachable(g.phase))
    && (g.stage != Open ==> f.stage != Open)
  }

  lemma SameKids(objs: seq<Obj>, us: seq<Obj>, o: nat)
    requires |us| == |objs| && forall i: nat :: i < |objs| ==> us[i].parent == objs[i].parent
    ensures Kids(us, o) == Kids(objs, o)
  {
  }

  lemma SameRefs(objs: seq<Obj>, us: seq<Obj>)
    requires RefsOk(objs) && |us| == |objs| && forall i: nat :: i < |objs| ==> SameRef(objs[i], us[i])
    ensures RefsOk(us)
  {
    forall o: nat | o < |us| ensures RefOk(us, o) && ParentOk(us, o) {
      hide Kids;
      assert RefOk(objs, o) && ParentOk(objs, o);
      SameKids(objs, us, o);
      if us[o].parent.Some? { assert SameRef(objs[us[o].parent.value], us[us[o].parent.value]); }
    }
  }

  // ---------------------------------------------------------------- forking

  /** The object a fork opens has no children. */
  lemma NoKidsYet(objs: seq<Obj>, o: nat)
    requires RefsOk(objs) && (o == |objs| || (o < |objs| && objs[o].phase != Live))
    ensures Kids(objs, o) == {}
  {
    if o < |objs| {
      assert RefOk(objs, o);
    } else {
      forall c: nat | c < |objs| ensures objs[c].parent != Some(o) {
        assert ParentOk(objs, c);
      }
    }
  }

  /** `us` is `objs` with child `c` opened in object `o` and parent `p` retained. */
  ghost predicate Forked(objs: seq<Obj>, o: nat, p: Option<nat>, c: Obj, us: seq<Obj>) {
    && (o == |objs| || (o < |objs| && objs[o].phase == Pooled))
    && (p.Some? ==> p.value < |objs| && objs[p.value].phase == Live)
    && |us| == (if o == |objs| then |objs| + 1 else |objs|)
    && us[o] == c
    && (forall i: nat :: i < |objs| && i != o ==>
          us[i] == (if p == Some(i) then objs[i].(refcount := objs[i].refcount + 1) else objs[i]))
    && c.parent == p && c.phase == Live && c.refcount == 1 && c.held && c.generation == c.inc
    && (p.Some? ==> c.parentInc == objs[p.value].inc && objs[p.value].depth < c.depth)
    && (c.temporary ==> p.Some? && !c.continuing) && (c.stage != Open ==> p.Some?)
    && (o < |objs| ==> objs[o].inc < c.inc)
  }

  lemma ForkShape(h: Heap, st: Step)
    requires Inv(h) && Enabled(h, st) && st.Fork?
    ensures Forked(h.objs, st.o, AcquiredBy(h, st), Child(h, st), Apply(h, st).objs)
  {
    hide Kids;
    var p := AcquiredBy(h, st);
    if p.Some? { assert RefOk(h.objs, p.value); }
    if st.o < |h.objs| { assert RefOk(h.objs, st.o); }
  }

  lemma ForkKids(objs: seq<Obj>, o: nat, p: Option<nat>, c: Obj, us: seq<Obj>, i: nat)
    requires RefsOk(objs) && Forked(objs, o, p, c, us)
    ensures Kids(us, i) == Kids(objs, i) + (if p == Some(i) then {o} else {})
    ensures o !in Kids(objs, i)
  {
    assert o < |objs| ==> objs[o].parent.None? by { if o < |objs| { assert ParentOk(objs, o); } }
    forall x: nat ensures x in Kids(us, i) <==> x in Kids(objs, i) + (if p == Some(i) then {o} else {}) {
      if x < |objs| && x != o { assert us[x].parent == objs[x].parent; }
    }
  }

  lemma ForkRefs(objs: seq<Obj>, o: nat, p: Option<nat>, c: Obj, us: seq<Obj>, i: nat)
    requires RefsOk(objs) && Forked(objs, o, p, c, us) && i < |us|
    ensures RefOk(us, i) && ParentOk(us, i)
  {
    hide Kids;
    ForkKids(objs, o, p, c, us, i);
    if i == o {
      NoKidsYet(objs, o);
    } else {
      assert RefOk(objs, i) && ParentOk(objs, i);
    }
  }

  lemma ForkKeeps(h: Heap, st: Step, v: Heap)
    requires Inv(h) && Enabled(h, st) && st.Fork? && v == Apply(h, st)
    ensures Inv(v)
  {
    ForkShape(h, st);
    var p, c := AcquiredBy(h, st), Child(h, st);
    assert v.calls == h.calls;
    hide RefOk, ParentOk, Child, Apply, Enabled, AcquiredBy;
    forall i: nat | i < |v.objs| ensures RefOk(v.objs, i) && ParentOk(v.objs, i) {
      ForkRefs(h.objs, st.o, p, c, v.objs, i);
    }
    forall w | w in v.calls ensures CallOk(v.objs, v.calls[w]) {
      assert CallOk(h.objs, h.calls[w]);
    }
  }

  // ---------------------------------------------------------------- releasing

  /** A frame gives up its owner's reference. */
  lemma ReleaseAt(objs: seq<Obj>, o: nat, us: seq<Obj>, i: nat)
    requires RefsOk(objs) && o < |objs| && objs[o].held && objs[o].stage == Open && i < |objs|
    requires us == objs[o := Decremented(objs[o].(held := false))]
    ensures RefOk(us, i) && ParentOk(us, i)
  {
    hide Kids;
    assert RefOk(objs, o) && RefOk(objs, i) && ParentOk(objs, i);
    SameKids(objs, us, i);
    SameKids(objs, us, o);
    KidIsThere(objs, i, o);
  }

  lemma KidIsThere(objs: seq<Obj>, i: nat, o: nat)
    requires i < |objs|
    ensures objs[i].parent == Some(o) <==> i in Kids(objs, o)
  {
  }

  lemma ReleaseKeeps(h: Heap, o: nat, g: nat, v: Heap)
    requires Inv(h) && Enabled(h, Release(o, g)) && v == Apply(h, Release(o, g))
    ensures Inv(v)
  {
    assert RefOk(h.objs, o);
    hide RefOk, ParentOk;
    forall i: nat | i < |v.objs| ensures RefOk(v.objs, i) && ParentOk(v.objs, i) {
      ReleaseAt(h.objs, o, v.objs, i);
    }
  }

  /** `us` is `objs` after frame `o` let go of its parent, which lost a reference. */
  ghost predicate LetGo(objs: seq<Obj>, o: nat, f: Obj, us: seq<Obj>) {
    && o < |objs| && objs[o].stage == Open
    && f == objs[o].(parent := None, temporary := false, phase := f.phase)
    && (f.phase == objs[o].phase || (objs[o].phase == Releasing && f.phase == Returning))
    && us == DropRef(objs[o := f], objs[o].parent)
  }

  lemma LetGoShape(objs: seq<Obj>, o: nat, f: Obj, us: seq<Obj>, i: nat)
    requires RefsOk(objs) && LetGo(objs, o, f, us) && i < |objs|
    ensures |us| == |objs|
    ensures us[i] == if i == o then f else if objs[o].parent == Some(i) then Decremented(objs[i]) else objs[i]
  {
    hide RefOk;
    assert ParentOk(objs, o);
  }

  lemma LetGoKids(objs: seq<Obj>, o: nat, f: Obj, us: seq<Obj>, i: nat)
    requires RefsOk(objs) && LetGo(objs, o, f, us)
    ensures Kids(us, i) == Kids(objs, i) - (if objs[o].parent == Some(i) then {o} else {})
    ensures objs[o].parent == Some(i) ==> o in Kids(objs, i)
  {
    assert |us| == |objs| by { LetGoShape(objs, o, f, us, o); }
    forall x: nat ensures x in Kids(us, i) <==> x in Kids(objs, i) - (if objs[o].parent == Some(i) then {o} else {}) {
      if x < |objs| { LetGoShape(objs, o, f, us, x); }
    }
  }

  /** Losing one of its references, a frame in use keeps the rest or starts its reclaim. */
  lemma DecrementedRef(f: Obj, kids: nat)
    requires f.phase == Live && f.refcount == (if f.held then 1 else 0) + kids && kids >= 1 && f.generation == f.inc
    ensures var g := Decremented(f);
      && g.held == f.held && g.inc == f.inc
      && (if g.phase == Live then g.refcount == (if g.held then 1 else 0) + kids - 1 && g.refcount >= 1 && g.generation == g.inc
          else g.refcount == 0 && !g.held && kids == 1 && g.generation == g.inc + 1)
  {
  }

  /** The parent may start its own reclaim then, having neither owner nor other child left. */
  lemma LetGoRefs(objs: seq<Obj>, o: nat, f: Obj, us: seq<Obj>, i: nat)
    requires RefsOk(objs) && LetGo(objs, o, f, us) && i < |objs|
    ensures i < |us| && RefOk(us, i)
  {
    hide RefsOk, LetGo, Kids, Decremented, Attachable;
    LetGoIs(objs, o, f, us);
    LetGoShape(objs, o, f, us, i);
    LetGoKids(objs, o, f, us, i);
    RefsAt(objs, i);
    RefsAt(objs, o);
    if objs[o].parent == Some(i) {
      assert Kids(objs, i) != {};
      DecrementedRef(objs[i], |Kids(objs, i)|);
    }
  }

  /** The frame that let go is otherwise as it was. */
  lemma LetGoIs(objs: seq<Obj>, o: nat, f: Obj, us: seq<Obj>)
    requires LetGo(objs, o, f, us)
    ensures o < |objs| && objs[o].stage == Open && LetGoAs(objs[o], f)
    ensures f.phase == objs[o].phase || (objs[o].phase == Releasing && f.phase == Returning)
  {
  }

  ghost predicate LetGoAs(f: Obj, g: Obj) {
    && g.generation == f.generation && g.refcount == f.refcount && g.sealed == f.sealed && g.writers == f.writers
    && g.values == f.values && g.borrowed == f.borrowed && g.parent.None? && g.stage == f.stage && g.continuing == f.continuing
    && g.inc == f.inc && !g.temporary && g.held == f.held && g.depth == f.depth
  }

  /** Letting go moves no frame to another use. */
  lemma LetGoUse(objs: seq<Obj>, o: nat, f: Obj, us: seq<Obj>, i: nat)
    requires RefsOk(objs) && LetGo(objs, o, f, us) && i < |objs|
    ensures i < |us| && us[i].inc == objs[i].inc && us[i].stage == objs[i].stage && us[i].generation >= objs[i].generation
  {
    hide RefsOk, LetGo, Decremented;
    LetGoIs(objs, o, f, us);
    LetGoShape(objs, o, f, us, i);
    DecrementedUse(objs[i]);
  }

  lemma DecrementedUse(f: Obj)
    ensures var g := Decremented(f); g.inc == f.inc && g.stage == f.stage && g.generation >= f.generation
  {
  }

  lemma LetGoParents(objs: seq<Obj>, o: nat, f: Obj, us: seq<Obj>, i: nat)
    requires RefsOk(objs) && LetGo(objs, o, f, us) && i < |objs|
    ensures i < |us| && ParentOk(us, i)
  {
    hide RefsOk, LetGo, Kids, RefOk;
    LetGoIs(objs, o, f, us);
    LetGoShape(objs, o, f, us, i);
    RefsAt(objs, i);
    RefsAt(objs, o);
    if objs[o].parent == Some(i) { LosesChild(objs, o, i); }
    hide Decremented;
    var q := us[i].parent;
    if q.Some? {
      LetGoShape(objs, o, f, us, q.value);
      if objs[o].parent == q {
        RefsAt(objs, q.value);
        LosesChild(objs, o, q.value);
        Survives(objs, o, f, us, i, q.value);
      }
    }
  }

  /** What losing a child leaves of a frame's own bonds; one still being forked has its owner, and stays in use. */
  lemma LosesChild(objs: seq<Obj>, o: nat, i: nat)
    requires i < |objs| && o < |objs| && RefOk(objs, i) && ParentOk(objs, i) && objs[o].parent == Some(i)
    ensures var g := Decremented(objs[i]);
      && (objs[i].stage != Open ==> g.phase == Live) && (Attachable(objs[i].phase) ==> Attachable(g.phase))
      && g == objs[i].(refcount := g.refcount, generation := g.generation, phase := g.phase)
  {
    KidIsThere(objs, o, i);
    hide Kids;
  }

  /** A parent that loses one of two children stays in use. */
  lemma Survives(objs: seq<Obj>, o: nat, f: Obj, us: seq<Obj>, i: nat, q: nat)
    requires RefsOk(objs) && LetGo(objs, o, f, us) && i < |objs| && |us| == |objs| && q < |objs| && us[i].parent == Some(q)
    requires objs[q].phase == Live && us[q] == Decremented(objs[q])
    ensures us[q].phase == Live
  {
    LetGoRefs(objs, o, f, us, q);
    KidIsThere(us, i, q);
    hide RefsOk, LetGo, Kids;
  }

  lemma LetGoKeeps(objs: seq<Obj>, o: nat, f: Obj, us: seq<Obj>)
    requires RefsOk(objs) && LetGo(objs, o, f, us)
    ensures |us| == |objs| && RefsOk(us)
  {
    assert o < |objs|;
    hide RefOk, ParentOk, LetGo;
    LetGoShape(objs, o, f, us, o);
    forall i: nat | i < |us| ensures RefOk(us, i) && ParentOk(us, i) {
      LetGoRefs(objs, o, f, us, i);
      LetGoParents(objs, o, f, us, i);
    }
  }

  lemma LetGoCalls(h: Heap, o: nat, f: Obj, v: Heap)
    requires Inv(h) && LetGo(h.objs, o, f, v.objs) && v.calls == h.calls
    ensures CallsOk(v)
  {
    hide RefsOk, LetGo;
    forall w | w in v.calls ensures CallOk(v.objs, v.calls[w]) {
      assert CallOk(h.objs, h.calls[w]);
      LetGoUse(h.objs, o, f, v.objs, h.calls[w].o);
    }
  }

  /** The frame a parent-releasing step lets go. */
  function LetGoFrame(f: Obj): Obj {
    f.(parent := None, temporary := false, phase := if f.phase == Releasing then Returning else f.phase)
  }

  lemma LetGoStep(h: Heap, st: Step)
    requires Inv(h) && Enabled(h, st) && (st.DropParent? || st.ReleaseParent?)
    ensures LetGo(h.objs, st.o, LetGoFrame(h.objs[st.o]), Apply(h, st).objs) && Apply(h, st).calls == h.calls
    ensures Apply(h, st).closed == h.closed && Apply(h, st).log == h.log
  {
    assert ParentOk(h.objs, st.o);
    hide RefOk;
  }

  /** Steps that move no reference. */
  predicate StillRefs(st: Step) {
    !st.Fork? && !st.Release? && !st.DropParent? && !st.ReleaseParent?
  }

  lemma StillKeeps(h: Heap, st: Step, v: Heap)
    requires Inv(h) && Enabled(h, st) && StillRefs(st) && v == Apply(h, st)
    ensures Inv(v)
  {
    StillSame(h, st, v);
    hide Apply, Enabled, RefOk, ParentOk;
    SameRefs(h.objs, v.objs);
  }

  lemma StillSame(h: Heap, st: Step, v: Heap)
    requires Inv(h) && Enabled(h, st) && StillRefs(st) && v == Apply(h, st)
    ensures |v.objs| == |h.objs| && (forall i: nat :: i < |h.objs| ==> SameRef(h.objs[i], v.objs[i])) && CallsOk(v)
  {
    hide RefsOk, SameRef;
    if st.SealParent? || st.Waited? || st.Copy? {
      ForkingSame(h, st, v);
    } else if st.CloseValues? || st.Complete? || st.Return? {
      ReclaimSame(h, st, v);
    } else {
      WritingSame(h, st, v);
    }
    hide Apply, Enabled;
  }

  lemma ForkingSame(h: Heap, st: Step, v: Heap)
    requires Inv(h) && Enabled(h, st) && (st.SealParent? || st.Waited? || st.Copy?) && v == Apply(h, st)
    ensures |v.objs| == |h.objs| && v.calls == h.calls && (forall i: nat :: i < |h.objs| ==> SameRef(h.objs[i], v.objs[i])) && CallsOk(v)
  {
    hide RefsOk, Inherited, Carried;
    RefsAt(h.objs, st.o);
    hide RefOk;
  }

  lemma WritingSame(h: Heap, st: Step, v: Heap)
    requires Inv(h) && Enabled(h, st) && (st.BeginSet? || st.Commit? || st.EndSet? || st.Seal?) && v == Apply(h, st)
    ensures |v.objs| == |h.objs| && (forall i: nat :: i < |h.objs| ==> SameRef(h.objs[i], v.objs[i])) && CallsOk(v)
  {
    hide RefsOk, Store;
  }

  lemma ReclaimSame(h: Heap, st: Step, v: Heap)
    requires Inv(h) && Enabled(h, st) && (st.CloseValues? || st.Complete? || st.Return?) && v == Apply(h, st)
    ensures |v.objs| == |h.objs| && v.calls == h.calls && (forall i: nat :: i < |h.objs| ==> SameRef(h.objs[i], v.objs[i])) && CallsOk(v)
  {
    hide RefsOk, Owned;
    RefsAt(h.objs, st.o);
    hide RefOk;
  }

  /** Every step, obliging or not, keeps the references. */
  lemma StepKeeps(h: Heap, st: Step)
    requires Inv(h) && Enabled(h, st)
    ensures Inv(Apply(h, st))
  {
    var v := Apply(h, st);
    hide RefsOk, CallsOk, LetGo, Apply, Enabled;
    match st {
      case Fork(_, _, _, _, _) => ForkKeeps(h, st, v);
      case Release(o, g) => ReleaseKeeps(h, o, g, v);
      case DropParent(o) =>
        LetGoStep(h, st);
        LetGoKeeps(h.objs, o, LetGoFrame(h.objs[o]), v.objs);
        LetGoCalls(h, o, LetGoFrame(h.objs[o]), v);
      case ReleaseParent(o) =>
        LetGoStep(h, st);
        LetGoKeeps(h.objs, o, LetGoFrame(h.objs[o]), v.objs);
        LetGoCalls(h, o, LetGoFrame(h.objs[o]), v);
      case _ => StillKeeps(h, st, v);
    }
  }
}
