/**
 * The values of frame contexts in runs whose callers do what they owe: every exclusive value has one
 * owner, and what a continuation borrowed is what its parent holds.
 */
module FrameValues {
  import opened FrameContexts
  import opened Options
  import opened FrameLifetime

  /** What a frame stores: lent values are those it borrowed; owned exclusive ones are not closed. */
  ghost predicate ValuesOk(f: Obj, closed: set<Value>) {
    && (f.phase != Live && f.phase != Closing ==> f.values == map[] && f.borrowed == map[])
    && (f.stage != Open ==> f.values == map[] && f.borrowed == map[])
    && (forall k :: k in f.values ==> f.values[k].value.key == k && (f.values[k].Lent? ==> k in f.borrowed && f.borrowed[k] == f.values[k].value))
    && (forall k :: k in f.values && Exclusive(k) && f.values[k].Own? ==> f.values[k].value !in closed)
    && (forall k :: k in f.borrowed ==> f.borrowed[k].key == k && k.execution && f.parent.Some? && f.continuing)
  }

  /** What a frame borrowed is what its parent `p` holds. */
  ghost predicate Matches(f: Obj, p: Obj) {
    forall k :: k in f.borrowed ==> k in p.values && p.values[k].value == f.borrowed[k]
  }

  /** The flag is up and no write is inside: the snapshot is final. */
  ghost predicate Final(h: Heap, p: nat)
    requires IsObj(h, p)
  {
    h.objs[p].sealed && Inside(h, p) == {}
  }

  /** A child's fork against its parent: a fork past the seal finds the flag up, one that waited finds it final. */
  ghost predicate BondOk(h: Heap, o: nat)
    requires IsObj(h, o)
  {
    var f := h.objs[o];
    HasParent(h, o) ==>
      var p := f.parent.value;
      && Matches(f, h.objs[p])
      && (f.borrowed != map[] || f.stage == Copying(true) ==> Final(h, p))
      && (f.stage == Sealing || f.stage.Copying? ==> h.objs[p].sealed)
  }

  ghost predicate WritersOk(h: Heap, o: nat)
    requires IsObj(h, o)
  {
    h.objs[o].phase == Live ==> h.objs[o].writers == |Inside(h, o)|
  }

  ghost predicate FrameOk(h: Heap, o: nat)
    requires IsObj(h, o)
  {
    ValuesOk(h.objs[o], h.closed) && BondOk(h, o) && WritersOk(h, o)
  }

  /** An exclusive value has one owner. */
  ghost predicate OneOwner(f: Obj, g: Obj, k: Key) {
    k in f.values && k in g.values && Exclusive(k) && f.values[k].Own? && g.values[k].Own? ==> f.values[k].value != g.values[k].value
  }

  ghost predicate Owners(objs: seq<Obj>) {
    forall a: nat, b: nat, k :: a < |objs| && b < |objs| && a != b ==> OneOwner(objs[a], objs[b], k)
  }

  ghost predicate ValueInv(h: Heap) {
    (forall o: nat :: IsObj(h, o) ==> FrameOk(h, o)) && Owners(h.objs)
  }

  lemma FrameAt(h: Heap, o: nat)
    requires ValueInv(h) && IsObj(h, o)
    ensures FrameOk(h, o)
  {
    hide FrameOk, Owners;
  }

  // ---------------------------------------------------------------- frames a step leaves alone

  /** The frame is as before as far as its values, its bonds and its writers go. */
  ghost predicate Untouched(h: Heap, v: Heap, i: nat) {
    && IsObj(h, i) && IsObj(v, i)
    && var f, g := h.objs[i], v.objs[i];
       && g.values == f.values && g.borrowed == f.borrowed && g.stage == f.stage && g.continuing == f.continuing && g.inc == f.inc && g.writers == f.writers
       && (g.parent == f.parent || (g.parent.None? && f.borrowed == map[]))
       && (g.phase == f.phase || (f.phase == Live && g.phase == Closing) || (f.values == map[] && f.borrowed == map[] && f.phase != Live && g.phase != Live))
       && Inside(v, i) == Inside(h, i)
  }

  /** What a child relies on in its parent is still there. */
  ghost predicate Relied(h: Heap, v: Heap, p: nat) {
    && IsObj(h, p) && IsObj(v, p)
    && v.objs[p].values == h.objs[p].values && (h.objs[p].sealed ==> v.objs[p].sealed) && (Inside(h, p) == {} ==> Inside(v, p) == {})
  }

  /** Frame `p` stays sealed, and final if it was. */
  ghost predicate StaysFinal(h: Heap, v: Heap, p: nat) {
    IsObj(h, p) && IsObj(v, p) && (h.objs[p].sealed ==> v.objs[p].sealed) && (Final(h, p) ==> Final(v, p))
  }

  lemma UntouchedOk(h: Heap, v: Heap, i: nat)
    requires Untouched(h, v, i) && FrameOk(h, i) && v.closed == h.closed
    requires HasParent(v, i) ==>
      && HasParent(h, i)
      && var p := h.objs[i].parent.value;
         Relied(h, v, p) || (h.objs[i].borrowed == map[] && StaysFinal(h, v, p))
    ensures FrameOk(v, i)
  {
    hide Inside;
  }

  /** No child of frame `o` borrows from it. */
  ghost predicate NoBorrower(h: Heap, o: nat) {
    forall i: nat :: IsObj(h, i) && h.objs[i].parent == Some(o) ==> h.objs[i].borrowed == map[]
  }

  lemma NotFinalYet(h: Heap, o: nat)
    requires ValueInv(h) && IsObj(h, o) && (!Final(h, o) || h.objs[o].values == map[])
    ensures NoBorrower(h, o)
  {
    hide Inside, ValuesOk, WritersOk, Owners;
    forall i: nat | IsObj(h, i) && h.objs[i].parent == Some(o) ensures h.objs[i].borrowed == map[] {
      FrameAt(h, i);
      hide Final;
      if h.objs[o].values == map[] { assert forall k :: k !in h.objs[i].borrowed; }
    }
  }

  /** Only frame `o` changed, and what its children rely on did not, or none of them borrows. */
  lemma OneChanged(h: Heap, v: Heap, o: nat)
    requires Inv(h) && ValueInv(h) && IsObj(h, o) && |v.objs| == |h.objs| && v.closed == h.closed
    requires forall i: nat :: IsObj(h, i) && i != o ==> v.objs[i] == h.objs[i] && Inside(v, i) == Inside(h, i)
    requires FrameOk(v, o) && (Relied(h, v, o) || (NoBorrower(h, o) && StaysFinal(h, v, o)))
    requires Owners(v.objs)
    ensures ValueInv(v)
  {
    hide FrameOk, Inside, RefsOk, CallsOk, StaysFinal, Owners, NoBorrower;
    forall i: nat | IsObj(v, i) ensures FrameOk(v, i) {
      if i != o {
        FrameAt(h, i);
        RefsAt(h.objs, i);
        hide RefOk;
        if h.objs[i].parent == Some(o) && !Relied(h, v, o) { Borrowless(h, i, o); }
        UntouchedOk(h, v, i);
      }
    }
  }

  lemma Borrowless(h: Heap, i: nat, o: nat)
    requires NoBorrower(h, o) && IsObj(h, i) && h.objs[i].parent == Some(o)
    ensures h.objs[i].borrowed == map[]
  {
  }

  /** No frame's values, bonds or writers moved. */
  lemma AllUntouched(h: Heap, v: Heap)
    requires Inv(h) && ValueInv(h) && |v.objs| == |h.objs| && v.closed == h.closed
    requires forall i: nat :: IsObj(h, i) ==> Untouched(h, v, i) && v.objs[i].sealed == h.objs[i].sealed
    ensures ValueInv(v)
  {
    hide FrameOk, Inside, RefsOk, CallsOk, Owners;
    forall i: nat | IsObj(v, i) ensures FrameOk(v, i) {
      FrameAt(h, i);
      RefsAt(h.objs, i);
      hide RefOk;
      UntouchedOk(h, v, i);
    }
    OwnersSame(h.objs, v.objs);
  }

  lemma OwnersSame(objs: seq<Obj>, us: seq<Obj>)
    requires Owners(objs) && |us| == |objs| && forall i: nat :: i < |objs| ==> us[i].values == objs[i].values
    ensures Owners(us)
  {
    forall a: nat, b: nat, k | a < |us| && b < |us| && a != b ensures OneOwner(us[a], us[b], k) {
      assert OneOwner(objs[a], objs[b], k);
    }
  }

  // ---------------------------------------------------------------- writes

  /** Calls on another frame, or on another use, do not count here. */
  lemma InsideElse(h: Heap, v: Heap, i: nat)
    requires IsObj(h, i) && IsObj(v, i) && v.objs[i].inc == h.objs[i].inc
    requires forall w :: (w in v.calls && v.calls[w] == Call(i, h.objs[i].inc)) <==> (w in h.calls && h.calls[w] == Call(i, h.objs[i].inc))
    ensures Inside(v, i) == Inside(h, i)
  {
  }

  lemma BeginKeeps(h: Heap, o: nat, g: nat, w: nat, v: Heap)
    requires Inv(h) && ValueInv(h) && Enabled(h, BeginSet(o, g, w)) && v == Apply(h, BeginSet(o, g, w))
    ensures ValueInv(v)
  {
    hide RefsOk, CallsOk, Owners, ValuesOk, Matches;
    FrameAt(h, o);
    RefsAt(h.objs, o);
    hide RefOk;
    assert Inside(v, o) == Inside(h, o) + {w} && w !in Inside(h, o);
    forall i: nat | IsObj(h, i) && i != o ensures v.objs[i] == h.objs[i] && Inside(v, i) == Inside(h, i) { InsideElse(h, v, i); }
    if HasParent(h, o) { InsideElse(h, v, h.objs[o].parent.value); }
    hide Inside;
    OwnersSame(h.objs, v.objs);
    OwnBondKept(h, v, o);
    ValuesKept(h.objs[o], v.objs[o], h.closed);
    NotFinalYet(h, o);
    OneChanged(h, v, o);
  }

  /** A frame's bond to its parent when the parent, another frame, stands still. */
  lemma OwnBondKept(h: Heap, v: Heap, o: nat)
    requires IsObj(h, o) && BondOk(h, o) && IsObj(v, o) && |v.objs| == |h.objs|
    requires v.objs[o].borrowed == h.objs[o].borrowed && v.objs[o].parent == h.objs[o].parent && v.objs[o].stage == h.objs[o].stage
    requires HasParent(h, o) ==>
      var p := h.objs[o].parent.value;
      v.objs[p].values == h.objs[p].values && v.objs[p].sealed == h.objs[p].sealed && Inside(v, p) == Inside(h, p)
    ensures BondOk(v, o)
  {
    hide Inside;
  }

  lemma ValuesKept(f: Obj, g: Obj, closed: set<Value>)
    requires ValuesOk(f, closed) && g.values == f.values && g.borrowed == f.borrowed && g.parent == f.parent
    requires g.continuing == f.continuing && g.stage == f.stage && g.phase == f.phase
    ensures ValuesOk(g, closed)
  {
  }

  lemma EndKeeps(h: Heap, w: nat, v: Heap)
    requires Inv(h) && ValueInv(h) && Enabled(h, EndSet(w)) && Timely(h, w) && v == Apply(h, EndSet(w))
    ensures ValueInv(v)
  {
    hide RefsOk, CallsOk, Owners, ValuesOk, Matches;
    var o := h.calls[w].o;
    FrameAt(h, o);
    RefsAt(h.objs, o);
    hide RefOk;
    assert Inside(v, o) == Inside(h, o) - {w} && w in Inside(h, o);
    forall i: nat | IsObj(h, i) && i != o ensures v.objs[i] == h.objs[i] && Inside(v, i) == Inside(h, i) { InsideElse(h, v, i); }
    if HasParent(h, o) { InsideElse(h, v, h.objs[o].parent.value); }
    hide Inside;
    OwnersSame(h.objs, v.objs);
    OwnBondKept(h, v, o);
    ValuesKept(h.objs[o], v.objs[o], h.closed);
    OneChanged(h, v, o);
  }

  lemma CommitValues(h: Heap, o: nat, k: Key, x: Value, g: Obj)
    requires IsObj(h, o) && ValuesOk(h.objs[o], h.closed) && h.objs[o].phase == Live && h.objs[o].stage == Open && Installable(h, o, k, x)
    requires g == h.objs[o].(values := h.objs[o].values[k := Store(h.objs[o].borrowed, k, x)])
    ensures ValuesOk(g, h.closed)
  {
  }

  lemma CommitOwners(h: Heap, o: nat, k: Key, x: Value, us: seq<Obj>)
    requires Owners(h.objs) && IsObj(h, o) && Installable(h, o, k, x)
    requires forall i: nat :: IsObj(h, i) ==> forall j :: j in h.objs[i].values ==> h.objs[i].values[j].value.key == j
    requires us == h.objs[o := h.objs[o].(values := h.objs[o].values[k := Store(h.objs[o].borrowed, k, x)])]
    ensures Owners(us)
  {
    forall a: nat, b: nat, j | a < |us| && b < |us| && a != b ensures OneOwner(us[a], us[b], j) {
      assert OneOwner(h.objs[a], h.objs[b], j);
    }
  }

  lemma KeysOk(h: Heap, i: nat)
    requires ValueInv(h) && IsObj(h, i)
    ensures forall j :: j in h.objs[i].values ==> h.objs[i].values[j].value.key == j
  {
    hide Owners, BondOk, WritersOk;
    FrameAt(h, i);
  }

  /** A write that swaps the snapshot is inside, so no child relies on the frame. */
  lemma CommitKeeps(h: Heap, w: nat, k: Key, x: Value, v: Heap)
    requires Inv(h) && ValueInv(h) && Enabled(h, Commit(w, k, x)) && Owed(h, Commit(w, k, x)) && v == Apply(h, Commit(w, k, x))
    ensures ValueInv(v)
  {
    hide RefsOk, CallsOk, Owners, ValuesOk, Matches, Installable, Store;
    var o := h.calls[w].o;
    FrameAt(h, o);
    RefsAt(h.objs, o);
    hide RefOk;
    assert w in Inside(h, o);
    forall i: nat | IsObj(h, i) ensures Inside(v, i) == Inside(h, i) { InsideElse(h, v, i); }
    hide Inside;
    CallAt(h, w);
    CommitValues(h, o, k, x, v.objs[o]);
    forall i: nat | IsObj(h, i) ensures forall j :: j in h.objs[i].values ==> h.objs[i].values[j].value.key == j { KeysOk(h, i); }
    CommitOwners(h, o, k, x, v.objs);
    OwnBondKept(h, v, o);
    NotFinalYet(h, o);
    OneChanged(h, v, o);
  }

  // ---------------------------------------------------------------- sealing and copying

  lemma SealKeeps(h: Heap, o: nat, v: Heap)
    requires Inv(h) && ValueInv(h) && IsObj(h, o) && v == h.(objs := h.objs[o := h.objs[o].(sealed := true)])
    ensures ValueInv(v) && Inv(v)
  {
    hide RefsOk, CallsOk, Owners, ValuesOk, Matches;
    FrameAt(h, o);
    RefsAt(h.objs, o);
    hide RefOk;
    forall i: nat | IsObj(h, i) ensures Inside(v, i) == Inside(h, i) { InsideElse(h, v, i); }
    hide Inside;
    OwnersSame(h.objs, v.objs);
    OwnBondKept(h, v, o);
    ValuesKept(h.objs[o], v.objs[o], h.closed);
    OneChanged(h, v, o);
    assert forall i: nat :: i < |h.objs| ==> SameRef(h.objs[i], v.objs[i]);
    SameRefs(h.objs, v.objs);
    assert CallsOk(v) by { SealCalls(h, o, v); }
  }

  lemma SealCalls(h: Heap, o: nat, v: Heap)
    requires Inv(h) && IsObj(h, o) && v == h.(objs := h.objs[o := h.objs[o].(sealed := true)])
    ensures CallsOk(v)
  {
    hide RefsOk;
  }

  /** The fork of `o` moves on to stage `g.stage`; nothing else changes. */
  lemma StageKeeps(h: Heap, o: nat, stage: Stage, v: Heap)
    requires Inv(h) && ValueInv(h) && HasParent(h, o) && h.objs[o].stage != Open && stage != Open
    requires v == h.(objs := h.objs[o := h.objs[o].(stage := stage)])
    requires h.objs[h.objs[o].parent.value].sealed && (stage == Copying(true) ==> Final(h, h.objs[o].parent.value))
    ensures ValueInv(v)
  {
    hide RefsOk, CallsOk, Owners, Matches;
    FrameAt(h, o);
    RefsAt(h.objs, o);
    hide RefOk;
    forall i: nat | IsObj(h, i) ensures Inside(v, i) == Inside(h, i) { InsideElse(h, v, i); }
    hide Inside;
    OwnersSame(h.objs, v.objs);
    assert Matches(v.objs[o], v.objs[h.objs[o].parent.value]) by { EmptyMatches(v.objs[o], v.objs[h.objs[o].parent.value]); }
    OneChanged(h, v, o);
  }

  lemma EmptyMatches(f: Obj, p: Obj)
    requires f.borrowed == map[]
    ensures Matches(f, p)
  {
  }

  lemma SealParentKeeps(h: Heap, o: nat, v: Heap)
    requires Inv(h) && ValueInv(h) && Enabled(h, SealParent(o)) && v == Apply(h, SealParent(o))
    ensures ValueInv(v)
  {
    hide Inv, ValueInv;
    var p := h.objs[o].parent.value;
    ParentDiffers(h, o);
    if h.objs[p].sealed {
      StageKeeps(h, o, Copying(false), v);
    } else {
      var m := h.(objs := Flagged(h, o));
      SealKeeps(h, p, m);
      StageKeeps(m, o, Sealing, v);
    }
  }

  lemma ParentDiffers(h: Heap, o: nat)
    requires Inv(h) && HasParent(h, o)
    ensures h.objs[o].parent.value != o && h.objs[h.objs[o].parent.value].phase == Live
    ensures h.objs[o].stage != Open ==> h.objs[o].phase == Live
  {
    hide RefsOk, CallsOk;
    RefsAt(h.objs, o);
    hide RefOk;
  }

  lemma WaitedKeeps(h: Heap, o: nat, v: Heap)
    requires Inv(h) && ValueInv(h) && Enabled(h, Waited(o)) && v == Apply(h, Waited(o))
    ensures ValueInv(v)
  {
    hide Inv;
    var p := h.objs[o].parent.value;
    ParentDiffers(h, o);
    FrameAt(h, o);
    FrameAt(h, p);
    hide ValueInv, ValuesOk, Matches, Inside;
    StageKeeps(h, o, Copying(true), v);
  }

  lemma CopiedValues(f: Obj, p: Obj, clones: map<Key, Value>, closed: set<Value>, g: Obj)
    requires ValuesOk(f, closed) && ValuesOk(p, closed) && f.phase == Live && f.parent.Some? && forall k :: k in clones ==> clones[k].key == k
    requires g == f.(stage := Open, values := Inherited(p.values, f.continuing, clones), borrowed := Carried(p.values, f.continuing))
    ensures ValuesOk(g, closed) && Matches(g, p) && (!f.continuing ==> g.borrowed == map[])
    ensures forall k :: k in g.values && g.values[k].Own? ==> !Exclusive(k)
  {
    InheritedIs(p.values, f.continuing, clones);
    hide Inherited, Carried;
  }

  /** What a fork copies under each key. */
  lemma InheritedIs(values: map<Key, Stored>, continuing: bool, clones: map<Key, Value>)
    requires forall k :: k in values ==> values[k].value.key == k
    requires forall k :: k in clones ==> clones[k].key == k
    ensures var m, b := Inherited(values, continuing, clones), Carried(values, continuing);
      && (forall k :: k in m ==> m[k].value.key == k && (m[k].Own? ==> !Exclusive(k)) && (m[k].Lent? ==> k in b && b[k] == m[k].value))
      && (forall k :: k in b ==> continuing && k.execution && k in values && b[k] == values[k].value)
  {
  }

  lemma CopyOwners(objs: seq<Obj>, o: nat, g: Obj)
    requires Owners(objs) && o < |objs| && forall k :: k in g.values && g.values[k].Own? ==> !Exclusive(k)
    ensures Owners(objs[o := g])
  {
    var us := objs[o := g];
    forall a: nat, b: nat, k | a < |us| && b < |us| && a != b ensures OneOwner(us[a], us[b], k) {
      assert OneOwner(objs[a], objs[b], k);
    }
  }

  lemma CopyKeeps(h: Heap, o: nat, clones: map<Key, Value>, v: Heap)
    requires Inv(h) && ValueInv(h) && Enabled(h, Copy(o, clones)) && Owed(h, Copy(o, clones)) && v == Apply(h, Copy(o, clones))
    ensures ValueInv(v)
  {
    hide RefsOk, CallsOk, Owners, Inherited, Carried, Matches;
    var p := h.objs[o].parent.value;
    ParentDiffers(h, o);
    FrameAt(h, o);
    FrameAt(h, p);
    CopiedValues(h.objs[o], h.objs[p], clones, h.closed, v.objs[o]);
    CopyOwners(h.objs, o, v.objs[o]);
    forall i: nat | IsObj(h, i) ensures Inside(v, i) == Inside(h, i) { InsideElse(h, v, i); }
    NotFinalYet(h, o);
    hide Inside, ValuesOk, NoBorrower;
    OneChanged(h, v, o);
  }

  // ---------------------------------------------------------------- forks, releases, reclaims

  lemma ForkKeeps(h: Heap, st: Step, v: Heap)
    requires Inv(h) && ValueInv(h) && Enabled(h, st) && st.Fork? && v == Apply(h, st)
    ensures ValueInv(v)
  {
    ForkShape(h, st);
    var c := Child(h, st);
    assert c.values == map[] && c.borrowed == map[] && c.writers == 0 && (c.parent.None? ==> c.stage == Open) && (c.stage == Open || c.stage == Acquired);
    assert v.calls == h.calls && v.closed == h.closed;
    hide Inv, ValueInv, Apply, Enabled, Child;
    ForkedKeeps(h, st.o, AcquiredBy(h, st), c, v);
  }

  lemma ForkedKeeps(h: Heap, o: nat, p: Option<nat>, c: Obj, v: Heap)
    requires Inv(h) && ValueInv(h) && Forked(h.objs, o, p, c, v.objs) && v.calls == h.calls && v.closed == h.closed
    requires c.values == map[] && c.borrowed == map[] && c.writers == 0 && (c.stage == Open || c.stage == Acquired)
    ensures ValueInv(v)
  {
    hide RefsOk, Owners, FrameOk;
    forall i: nat | IsObj(v, i) ensures FrameOk(v, i) {
      if i == o { ForkedChild(h, o, p, c, v); } else { ForkedElse(h, o, p, c, v, i); }
    }
    ForkedOwners(h.objs, o, p, c, v.objs);
  }

  lemma ForkedChild(h: Heap, o: nat, p: Option<nat>, c: Obj, v: Heap)
    requires Inv(h) && Forked(h.objs, o, p, c, v.objs) && v.calls == h.calls && c.values == map[] && c.borrowed == map[] && c.writers == 0
    requires c.stage == Open || c.stage == Acquired
    ensures FrameOk(v, o)
  {
    hide RefsOk;
    forall w | w in h.calls ensures h.calls[w] != Call(o, c.inc) { assert CallOk(h.objs, h.calls[w]); }
    assert Inside(v, o) == {};
    hide Inside;
  }

  lemma ForkedElse(h: Heap, o: nat, p: Option<nat>, c: Obj, v: Heap, i: nat)
    requires Inv(h) && ValueInv(h) && Forked(h.objs, o, p, c, v.objs) && v.calls == h.calls && v.closed == h.closed && IsObj(v, i) && i != o
    ensures FrameOk(v, i)
  {
    hide RefsOk, CallsOk, FrameOk, Owners;
    FrameAt(h, i);
    RefsAt(h.objs, i);
    hide RefOk;
    InsideElse(h, v, i);
    if HasParent(h, i) { InsideElse(h, v, h.objs[i].parent.value); }
    hide Inside;
    UntouchedOk(h, v, i);
  }

  lemma ForkedOwners(objs: seq<Obj>, o: nat, p: Option<nat>, c: Obj, us: seq<Obj>)
    requires Owners(objs) && Forked(objs, o, p, c, us) && c.values == map[]
    ensures Owners(us)
  {
    forall a: nat, b: nat, k | a < |us| && b < |us| && a != b ensures OneOwner(us[a], us[b], k) {
      if a < |objs| && b < |objs| { assert OneOwner(objs[a], objs[b], k); }
    }
  }

  lemma ReleaseKeeps(h: Heap, o: nat, g: nat, v: Heap)
    requires Inv(h) && ValueInv(h) && Enabled(h, Release(o, g)) && v == Apply(h, Release(o, g))
    ensures ValueInv(v)
  {
    hide RefsOk, CallsOk, ValueInv;
    RefsAt(h.objs, o);
    forall i: nat | IsObj(h, i) ensures Untouched(h, v, i) && v.objs[i].sealed == h.objs[i].sealed { InsideElse(h, v, i); }
    AllUntouched(h, v);
  }

  lemma LetGoValues(h: Heap, o: nat, f: Obj, v: Heap)
    requires Inv(h) && ValueInv(h) && LetGo(h.objs, o, f, v.objs) && v.calls == h.calls && v.closed == h.closed
    requires o < |h.objs| && (h.objs[o].phase == Releasing || h.objs[o].temporary)
    ensures ValueInv(v)
  {
    hide RefsOk, CallsOk, LetGo;
    LetGoIs(h.objs, o, f, v.objs);
    LetGoShape(h.objs, o, f, v.objs, o);
    RefsAt(h.objs, o);
    FrameAt(h, o);
    NothingBorrowed(h, o);
    hide ValueInv, FrameOk;
    forall i: nat | IsObj(h, i) ensures Untouched(h, v, i) && v.objs[i].sealed == h.objs[i].sealed {
      LetGoShape(h.objs, o, f, v.objs, i);
      if h.objs[o].parent == Some(i) { RefsAt(h.objs, i); }
      InsideElse(h, v, i);
    }
    AllUntouched(h, v);
  }

  /** A frame that lets go of its parent borrows nothing. */
  lemma NothingBorrowed(h: Heap, o: nat)
    requires IsObj(h, o) && FrameOk(h, o) && ParentOk(h.objs, o) && (h.objs[o].phase == Releasing || h.objs[o].temporary)
    ensures h.objs[o].borrowed == map[] && (h.objs[o].phase == Releasing ==> h.objs[o].values == map[])
  {
    hide BondOk, WritersOk;
    if h.objs[o].temporary { assert forall k :: k !in h.objs[o].borrowed; }
  }

  lemma CloseKeeps(h: Heap, o: nat, v: Heap)
    requires Inv(h) && ValueInv(h) && Enabled(h, CloseValues(o)) && v == Apply(h, CloseValues(o))
    ensures ValueInv(v)
  {
    hide RefsOk, CallsOk, FrameOk;
    forall i: nat | IsObj(v, i) ensures FrameOk(v, i) { CloseAt(h, o, v, i); }
    forall a: nat, b: nat, k | a < |v.objs| && b < |v.objs| && a != b ensures OneOwner(v.objs[a], v.objs[b], k) {
      assert OneOwner(h.objs[a], h.objs[b], k);
    }
  }

  lemma CloseAt(h: Heap, o: nat, v: Heap, i: nat)
    requires Inv(h) && ValueInv(h) && Enabled(h, CloseValues(o)) && v == Apply(h, CloseValues(o)) && IsObj(v, i)
    ensures FrameOk(v, i)
  {
    hide RefsOk, CallsOk, FrameOk;
    FrameAt(h, i);
    FrameAt(h, o);
    KeysOk(h, o);
    RefsAt(h.objs, i);
    RefsAt(h.objs, o);
    KidIsThere(h.objs, i, o);
    InsideElse(h, v, i);
    if HasParent(h, i) { InsideElse(h, v, h.objs[i].parent.value); }
    if i == o {
      ClosedFrame(h, o, v);
    } else {
      assert OwnersApart(h.objs[i], h.objs[o]) by { hide Inside; forall k ensures OneOwner(h.objs[i], h.objs[o], k) {} }
      hide Inside, RefOk, Owners, ValueInv, Kids;
      ClosedElse(h, v, i, o);
    }
  }

  ghost predicate OwnersApart(f: Obj, g: Obj) {
    forall k :: OneOwner(f, g, k)
  }

  lemma ClosedFrame(h: Heap, o: nat, v: Heap)
    requires IsObj(h, o) && IsObj(v, o) && FrameOk(h, o) && h.objs[o].phase == Closing && h.objs[o].stage == Open
    requires v.objs[o].values == map[] && v.objs[o].borrowed == map[] && v.objs[o].phase == Completing && v.objs[o].stage == Open
    ensures FrameOk(v, o)
  {
    hide Inside, Final;
  }

  /** Closing another frame's values leaves this one's open. */
  lemma ClosedElse(h: Heap, v: Heap, i: nat, o: nat)
    requires IsObj(h, i) && IsObj(h, o) && |v.objs| == |h.objs| && v.objs[i] == h.objs[i] && i != o
    requires FrameOk(h, i) && Inside(v, i) == Inside(h, i) && OwnersApart(h.objs[i], h.objs[o])
    requires v.closed == h.closed + Owned(h.objs[o].values)
    requires forall k :: k in h.objs[o].values ==> h.objs[o].values[k].value.key == k
    requires HasParent(h, i) ==> var p := h.objs[i].parent.value; v.objs[p] == h.objs[p] && Inside(v, p) == Inside(h, p)
    ensures FrameOk(v, i)
  {
    hide Inside;
    forall k | k in h.objs[i].values && Exclusive(k) && h.objs[i].values[k].Own? ensures h.objs[i].values[k].value !in v.closed {
      assert OneOwner(h.objs[i], h.objs[o], k);
    }
  }

  lemma PhaseKeeps(h: Heap, st: Step, v: Heap)
    requires Inv(h) && ValueInv(h) && Enabled(h, st) && (st.Complete? || st.Return?) && v == Apply(h, st)
    ensures ValueInv(v)
  {
    hide RefsOk, CallsOk, Owners;
    RefsAt(h.objs, st.o);
    FrameAt(h, st.o);
    hide ValueInv;
    forall i: nat | IsObj(h, i) ensures Untouched(h, v, i) && v.objs[i].sealed == h.objs[i].sealed { InsideElse(h, v, i); }
    AllUntouched(h, v);
  }

  /** Every step of obliging callers keeps the values in order. */
  lemma StepKeepsValues(h: Heap, st: Step)
    requires Inv(h) && ValueInv(h) && Enabled(h, st) && Owed(h, st)
    ensures ValueInv(Apply(h, st))
  {
    hide Inv, ValueInv, LetGo;
    var v := Apply(h, st);
    match st {
      case Fork(_, _, _, _, _) => ForkKeeps(h, st, v);
      case SealParent(o) => SealParentKeeps(h, o, v);
      case Waited(o) => WaitedKeeps(h, o, v);
      case Copy(o, clones) => CopyKeeps(h, o, clones, v);
      case BeginSet(o, g, w) => BeginKeeps(h, o, g, w, v);
      case Commit(w, k, x) => CommitKeeps(h, w, k, x, v);
      case EndSet(w) => EndKeeps(h, w, v);
      case Seal(o, g) => SealKeeps(h, o, v);
      case Release(o, g) => ReleaseKeeps(h, o, g, v);
      case DropParent(o) => LetGoStep(h, st); LetGoValues(h, o, LetGoFrame(h.objs[o]), v);
      case ReleaseParent(o) => LetGoStep(h, st); LetGoValues(h, o, LetGoFrame(h.objs[o]), v);
      case CloseValues(o) => CloseKeeps(h, o, v);
      case Complete(o) => PhaseKeeps(h, st, v);
      case Return(o) => PhaseKeeps(h, st, v);
    }
  }
}
