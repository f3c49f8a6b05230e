/**
 * Pooled frame contexts: refcounted frames with parents, generation-checked handles, and execution
 * values that continuations borrow (api/context/framecontext.go). The reference acquire and the
 * decrement are single atomic steps. A write is inside the frame between its entry and its end and
 * swaps the snapshot in between; a fork acquires its parent, raises the seal flag or finds it up, and
 * copies; reclaiming is a sequence of steps. All of these interleave.
 */
module FrameContexts {
  import opened Options

  /** A context key. Execution values are carried to continuations; inheritable ones to every fork. */
  datatype Key = Key(id: nat, execution: bool, inherit: bool)

  /** A closable value, made for one key. */
  datatype Value = Value(id: nat, key: Key, comparable: bool)

  /** A stored value is owned by its frame, or lent to it by its parent. */
  datatype Stored = Own(value: Value) | Lent(value: Value)

  /** Where a frame object is in its life: in the pool, in use, or being reclaimed. */
  datatype Phase = Pooled | Live | Closing | Completing | Releasing | Returning

  /** How far its fork is; `waited` tells that this fork raised its parent's flag and waited for writers. */
  datatype Stage = Acquired | Sealing | Copying(waited: bool) | Open

  datatype Obj = Obj(
    generation: nat,
    refcount: int,
    sealed: bool,
    writers: int,
    values: map<Key, Stored>,
    borrowed: map<Key, Value>,
    parent: Option<nat>,
    phase: Phase,
    stage: Stage,
    continuing: bool,
    // history: the generation its last use began with, the parent's at that time, whether the
    // parent is held only while copying, whether the owner still holds it, and its nesting depth
    inc: nat,
    parentInc: nat,
    temporary: bool,
    held: bool,
    depth: nat)

  datatype Event =
    | Born(o: nat, inc: nat, parent: nat, parentInc: nat)
    | Closed(o: nat, inc: nat)
    | Completed(o: nat, inc: nat)

  /** A write inside frame object `o`, which it entered in use `inc`. */
  datatype Call = Call(o: nat, inc: nat)

  datatype Heap = Heap(objs: seq<Obj>, calls: map<nat, Call>, closed: set<Value>, log: seq<Event>)

  const EMPTY: Heap := Heap([], map[], {}, [])

  predicate IsObj(h: Heap, o: nat) {
    o < |h.objs|
  }

  /** frameContextRef.resolveFrame: a handle is an object and the generation it was made with. */
  predicate Resolves(h: Heap, o: nat, generation: nat) {
    IsObj(h, o) && h.objs[o].generation == generation && h.objs[o].refcount > 0
  }

  /** A handle exists once the fork that makes it is done. */
  predicate Handled(h: Heap, o: nat, generation: nat) {
    Resolves(h, o, generation) && h.objs[o].stage == Open
  }

  /** A key whose values only continuations share. */
  predicate Exclusive(k: Key) {
    k.execution && !k.inherit
  }

  /** storedValue: setting back the very handle a continuation borrowed keeps it borrowed. */
  function Store(borrowed: map<Key, Value>, k: Key, v: Value): Stored {
    if k in borrowed && borrowed[k] == v && v.comparable then Lent(v) else Own(v)
  }

  /** What forkFrameContextMode copies; `clones` are the values Clone returned. */
  function Inherited(values: map<Key, Stored>, continuing: bool, clones: map<Key, Value>): map<Key, Stored> {
    map k | k in values && ((continuing && k.execution) || k.inherit) ::
      if continuing && k.execution then Lent(values[k].value)
      else if k in clones then Own(clones[k]) else Own(values[k].value)
  }

  function Carried(values: map<Key, Stored>, continuing: bool): map<Key, Value> {
    map k | k in values && continuing && k.execution :: values[k].value
  }

  datatype Step =
    | Fork(parent: Option<nat>, generation: nat, o: nat, continuing: bool, temporary: bool)
    | SealParent(o: nat)
    | Waited(o: nat)
    | Copy(o: nat, clones: map<Key, Value>)
    | BeginSet(o: nat, generation: nat, w: nat)
    | Commit(w: nat, k: Key, v: Value)
    | EndSet(w: nat)
    | Seal(o: nat, generation: nat)
    | Release(o: nat, generation: nat)
    | DropParent(o: nat)
    | CloseValues(o: nat)
    | Complete(o: nat)
    | ReleaseParent(o: nat)
    | Return(o: nat)

  /** The parent reference a fork acquires: none when the handle no longer resolves. */
  function AcquiredBy(h: Heap, st: Step): Option<nat>
    requires st.Fork?
  {
    if st.parent.Some? && Handled(h, st.parent.value, st.generation) then st.parent else None
  }

  predicate Owns(f: Obj, k: Key, v: Value) {
    k in f.values && f.values[k] == Own(v)
  }

  predicate HasParent(h: Heap, o: nat) {
    IsObj(h, o) && h.objs[o].parent.Some? && IsObj(h, h.objs[o].parent.value)
  }

  /** ContinueFrameContext seals before it forks, so a continuing fork finds the flag up. */
  predicate Enabled(h: Heap, st: Step) {
    match st
    case Fork(_, _, o, continuing, temporary) =>
      && (o == |h.objs| || (IsObj(h, o) && h.objs[o].phase == Pooled))
      && !(continuing && temporary)
      && (AcquiredBy(h, st).Some? && continuing ==> h.objs[AcquiredBy(h, st).value].sealed)
    case SealParent(o) => HasParent(h, o) && h.objs[o].stage == Acquired
    case Waited(o) => HasParent(h, o) && h.objs[o].stage == Sealing && h.objs[h.objs[o].parent.value].writers == 0
    case Copy(o, clones) => HasParent(h, o) && h.objs[o].stage.Copying? && forall k :: k in clones ==> clones[k].key == k
    case BeginSet(o, g, w) => Handled(h, o, g) && !h.objs[o].sealed && w !in h.calls
    case Commit(w, _, _) => w in h.calls && IsObj(h, h.calls[w].o)
    case EndSet(w) => w in h.calls && IsObj(h, h.calls[w].o)
    case Seal(o, g) => Handled(h, o, g)
    case Release(o, g) => IsObj(h, o) && h.objs[o].held && h.objs[o].stage == Open && g == h.objs[o].inc
    case DropParent(o) => IsObj(h, o) && h.objs[o].phase == Live && h.objs[o].stage == Open && h.objs[o].temporary
    case CloseValues(o) => IsObj(h, o) && h.objs[o].phase == Closing
    case Complete(o) => IsObj(h, o) && h.objs[o].phase == Completing
    case ReleaseParent(o) => IsObj(h, o) && h.objs[o].phase == Releasing
    case Return(o) => IsObj(h, o) && h.objs[o].phase == Returning
  }

  /** One reference fewer; the last one starts the reclaim and invalidates every handle. */
  function Decremented(f: Obj): Obj {
    if f.refcount <= 0 then f
    else if f.refcount == 1 then f.(refcount := 0, generation := f.generation + 1, phase := Closing)
    else f.(refcount := f.refcount - 1)
  }

  function DropRef(objs: seq<Obj>, p: Option<nat>): seq<Obj> {
    if p.Some? && p.value < |objs| then objs[p.value := Decremented(objs[p.value])] else objs
  }

  function Put(objs: seq<Obj>, o: nat, f: Obj): seq<Obj>
    requires o <= |objs|
  {
    if o == |objs| then objs + [f] else objs[o := f]
  }

  /** The child a fork opens in object `o`, before it has copied anything. */
  function Child(h: Heap, st: Step): Obj
    requires Enabled(h, st) && st.Fork?
  {
    var last := if st.o == |h.objs| then 0 else h.objs[st.o].generation;
    var blank := Obj(last + 1, 1, false, 0, map[], map[], None, Live, Open, st.continuing, last + 1, 0, false, true, 0);
    var p := AcquiredBy(h, st);
    if p.None? then blank
    else
      var f := h.objs[p.value];
      blank.(parent := p, stage := Acquired, parentInc := f.inc, temporary := st.temporary, depth := f.depth + 1)
  }

  function Retained(h: Heap, st: Step): seq<Obj>
    requires st.Fork?
  {
    var p := AcquiredBy(h, st);
    if p.None? then h.objs
    else h.objs[p.value := h.objs[p.value].(refcount := h.objs[p.value].refcount + 1)]
  }

  /** Owned closers of exclusive keys; closing others is outside what this model tracks. */
  function Owned(values: map<Key, Stored>): set<Value> {
    set k | k in values && values[k].Own? && Exclusive(k) :: values[k].value
  }

  /** The parent of `o`, its flag raised. */
  function Flagged(h: Heap, o: nat): seq<Obj>
    requires HasParent(h, o)
  {
    var p := h.objs[o].parent.value;
    h.objs[p := h.objs[p].(sealed := true)]
  }

  function Apply(h: Heap, st: Step): Heap
    requires Enabled(h, st)
  {
    match st
    case Fork(_, _, o, _, temporary) =>
      var p, c := AcquiredBy(h, st), Child(h, st);
      h.(objs := Put(Retained(h, st), o, c),
         log := if p.Some? && !temporary then h.log + [Born(o, c.inc, p.value, c.parentInc)] else h.log)
    case SealParent(o) =>
      // a flag already up is somebody else's seal, which nobody waits for here
      if h.objs[h.objs[o].parent.value].sealed then h.(objs := h.objs[o := h.objs[o].(stage := Copying(false))])
      else h.(objs := Flagged(h, o)[o := Flagged(h, o)[o].(stage := Sealing)])
    case Waited(o) => h.(objs := h.objs[o := h.objs[o].(stage := Copying(true))])
    case Copy(o, clones) =>
      var f, p := h.objs[o], h.objs[h.objs[o].parent.value];
      h.(objs := h.objs[o := f.(stage := Open, values := Inherited(p.values, f.continuing, clones), borrowed := Carried(p.values, f.continuing))])
    case BeginSet(o, _, w) =>
      h.(objs := h.objs[o := h.objs[o].(writers := h.objs[o].writers + 1)], calls := h.calls[w := Call(o, h.objs[o].inc)])
    case Commit(w, k, v) =>
      var o := h.calls[w].o;
      h.(objs := h.objs[o := h.objs[o].(values := h.objs[o].values[k := Store(h.objs[o].borrowed, k, v)])])
    case EndSet(w) =>
      var o := h.calls[w].o;
      h.(objs := h.objs[o := h.objs[o].(writers := h.objs[o].writers - 1)], calls := h.calls - {w})
    case Seal(o, _) => h.(objs := h.objs[o := h.objs[o].(sealed := true)])
    case Release(o, g) =>
      // releaseFrame ignores a handle of another generation
      var f := h.objs[o].(held := false);
      h.(objs := h.objs[o := if f.generation == g then Decremented(f) else f])
    case DropParent(o) =>
      h.(objs := DropRef(h.objs[o := h.objs[o].(parent := None, temporary := false)], h.objs[o].parent))
    case CloseValues(o) =>
      var f := h.objs[o];
      h.(objs := h.objs[o := f.(values := map[], borrowed := map[], sealed := false, writers := 0, phase := Completing)],
         closed := h.closed + Owned(f.values), log := h.log + [Closed(o, f.inc)])
    case Complete(o) =>
      h.(objs := h.objs[o := h.objs[o].(phase := Releasing)], log := h.log + [Completed(o, h.objs[o].inc)])
    case ReleaseParent(o) =>
      h.(objs := DropRef(h.objs[o := h.objs[o].(parent := None, temporary := false, phase := Returning)], h.objs[o].parent))
    case Return(o) => h.(objs := h.objs[o := h.objs[o].(phase := Pooled)])
  }

  predicate Runs(h: Heap, steps: seq<Step>)
    decreases |steps|
  {
    steps != [] ==> Enabled(h, steps[0]) && Runs(Apply(h, steps[0]), steps[1..])
  }

  function Exec(h: Heap, steps: seq<Step>): Heap
    requires Runs(h, steps)
    decreases |steps|
  {
    if steps == [] then h else Exec(Apply(h, steps[0]), steps[1..])
  }

  // ---------------------------------------------------------------- what callers owe for exclusive values

  /** The writes inside frame `o` in its current use. */
  function Inside(h: Heap, o: nat): set<nat>
    requires IsObj(h, o)
  {
    set w | w in h.calls && h.calls[w] == Call(o, h.objs[o].inc)
  }

  /**
   * A handle set under an exclusive key is open and no other frame owns it, or it is the comparable one
   * this frame borrowed.
   */
  predicate Installable(h: Heap, o: nat, k: Key, v: Value)
    requires IsObj(h, o)
  {
    && v.key == k
    && (Exclusive(k) ==>
          || (k in h.objs[o].borrowed && h.objs[o].borrowed[k] == v && v.comparable)
          || (v !in h.closed && forall i :: 0 <= i < |h.objs| && i != o ==> !Owns(h.objs[i], k, v)))
  }

  /** The write is inside a frame still in the use it entered. */
  predicate Timely(h: Heap, w: nat) {
    w in h.calls && IsObj(h, h.calls[w].o) && h.objs[h.calls[w].o].inc == h.calls[w].inc && h.objs[h.calls[w].o].phase == Live
  }

  /**
   * Handles are installed as above; a write is over before its frame is reclaimed; and no write is inside
   * a frame while a continuation copies it.
   */
  predicate Owed(h: Heap, st: Step)
    requires Enabled(h, st)
  {
    match st
    case Commit(w, k, v) => Timely(h, w) && Installable(h, h.calls[w].o, k, v)
    case EndSet(w) => Timely(h, w)
    case Copy(o, _) => h.objs[o].continuing ==> Inside(h, h.objs[o].parent.value) == {}
    case _ => true
  }

  /** Runs in which callers do what they owe. */
  predicate OwedRuns(h: Heap, steps: seq<Step>)
    decreases |steps|
  {
    steps != [] ==> Enabled(h, steps[0]) && Owed(h, steps[0]) && OwedRuns(Apply(h, steps[0]), steps[1..])
  }
}
