/** What every run of frame contexts guarantees of references, handles and reclaiming, whatever callers set. */
module FrameTheorems {
  import opened FrameContexts
  import opened Options
  import opened FrameLifetime

  // ---------------------------------------------------------------- the reclaim log

  ghost predicate Has(log: seq<Event>, e: Event, lo: int, hi: int) {
    exists m :: 0 <= m < |log| && lo <= m < hi && log[m] == e
  }

  /** Frame `c`, opened with generation `inc`, still holds its parent. */
  ghost predicate Holds(h: Heap, e: Event)
    requires e.Born?
  {
    && IsObj(h, e.o)
    && var f := h.objs[e.o];
       f.inc == e.inc && f.parent == Some(e.parent) && f.parentInc == e.parentInc && !f.temporary
  }

  /** An event of a past or current use of its object. */
  ghost predicate Past(h: Heap, e: Event) {
    && IsObj(h, e.o)
    && var f := h.objs[e.o];
       match e
       case Born(_, inc, _, _) => inc <= f.inc
       case Closed(_, inc) => inc < f.inc || (inc == f.inc && f.phase != Live && f.phase != Closing)
       case Completed(_, inc) => inc < f.inc || (inc == f.inc && f.phase != Live && f.phase != Closing && f.phase != Completing)
  }

  ghost predicate EventOk(h: Heap, i: nat)
    requires i < |h.log|
  {
    var e := h.log[i];
    && Past(h, e)
    && (e.Born? ==> Has(h.log, Completed(e.o, e.inc), i + 1, |h.log|) || Holds(h, e))
    && (e.Born? ==> !Has(h.log, Completed(e.o, e.inc), 0, i))
    && (e.Completed? ==> Has(h.log, Closed(e.o, e.inc), 0, i))
    && (e.Closed? ==> forall j :: 0 <= j < |h.log| && h.log[j].Born? && h.log[j].parent == e.o && h.log[j].parentInc == e.inc ==>
          Has(h.log, Completed(h.log[j].o, h.log[j].inc), j + 1, i))
    && (!e.Born? ==> !Has(h.log, e, 0, i))
  }

  /** A frame past its completion has it on record, and before that its closing. */
  ghost predicate StageOk(h: Heap, o: nat)
    requires IsObj(h, o)
  {
    var f := h.objs[o];
    && (f.phase == Releasing || f.phase == Returning || f.phase == Pooled ==> Has(h.log, Completed(o, f.inc), 0, |h.log|))
    && (f.phase == Completing ==> Has(h.log, Closed(o, f.inc), 0, |h.log|))
  }

  ghost predicate LogInv(h: Heap) {
    && (forall i: nat :: i < |h.log| ==> EventOk(h, i))
    && (forall o: nat :: IsObj(h, o) ==> StageOk(h, o))
  }

  /** How objects may move without touching the log. */
  ghost predicate Moves(h: Heap, v: Heap) {
    && |h.objs| <= |v.objs|
    && (forall o: nat :: IsObj(h, o) ==>
          var f, g := h.objs[o], v.objs[o];
          || (g.inc == f.inc && (f.phase != Live && f.phase != Closing ==> g.phase != Live && g.phase != Closing)
              && (f.phase != Live && f.phase != Closing && f.phase != Completing ==> g.phase != Live && g.phase != Closing && g.phase != Completing))
          || g.inc > f.inc)
  }

  lemma HasMore(log: seq<Event>, x: Event, e: Event, lo: int, hi: int)
    requires hi <= |log|
    ensures Has(log + [x], e, lo, hi) <==> Has(log, e, lo, hi)
  {
    if Has(log, e, lo, hi) {
      var m :| 0 <= m < |log| && lo <= m < hi && log[m] == e;
      assert (log + [x])[m] == e;
    }
  }

  lemma HasWider(log: seq<Event>, x: Event, e: Event, lo: int)
    ensures Has(log, e, lo, |log|) ==> Has(log + [x], e, lo, |log| + 1)
    ensures e == x && lo <= |log| ==> Has(log + [x], e, lo, |log| + 1)
    ensures Has(log + [x], e, lo, |log| + 1) ==> Has(log, e, lo, |log|) || e == x
  {
    if Has(log, e, lo, |log|) {
      var m :| 0 <= m < |log| && lo <= m < |log| && log[m] == e;
      assert (log + [x])[m] == e;
    }
    if e == x && lo <= |log| {
      assert (log + [x])[|log|] == e;
    }
  }

  lemma HasLonger(log: seq<Event>, e: Event, i: int, j: int)
    requires i <= j
    ensures Has(log, e, 0, i) ==> Has(log, e, 0, j)
  {
    if Has(log, e, 0, i) {
      var m :| 0 <= m < |log| && 0 <= m < i && log[m] == e;
      assert m < j;
    }
  }

  /** Steps that log nothing: a Born frame keeps its parent or has completed. */
  lemma QuietKeeps(h: Heap, v: Heap)
    requires LogInv(h) && v.log == h.log && Moves(h, v)
    requires forall i: nat :: i < |h.log| && h.log[i].Born? && Holds(h, h.log[i]) ==>
      Holds(v, h.log[i]) || Has(h.log, Completed(h.log[i].o, h.log[i].inc), i + 1, |h.log|)
    requires forall o: nat :: IsObj(v, o) ==> StageOk(v, o)
    ensures LogInv(v)
  {
    forall i: nat | i < |v.log| ensures EventOk(v, i) {
      assert EventOk(h, i);
    }
  }

  /** Steps that log `x`, which concerns object `o` as it now is. */
  lemma LoggedKeeps(h: Heap, v: Heap, x: Event)
    requires LogInv(h) && v.log == h.log + [x] && Moves(h, v)
    requires forall i: nat :: i < |h.log| && h.log[i].Born? && Holds(h, h.log[i]) ==> Holds(v, h.log[i])
    requires forall o: nat :: IsObj(v, o) ==> StageOk(v, o)
    requires EventOk(v, |h.log|)
    // no closing on record names the parent incarnation of a new birth
    requires x.Born? ==> !Has(h.log, Closed(x.parent, x.parentInc), 0, |h.log|)
    ensures LogInv(v)
  {
    forall i: nat | i < |v.log| ensures EventOk(v, i) {
      if i < |h.log| {
        LoggedAt(h, v, x, i);
      }
    }
  }

  lemma LoggedAt(h: Heap, v: Heap, x: Event, i: nat)
    requires LogInv(h) && v.log == h.log + [x] && Moves(h, v) && i < |h.log|
    requires h.log[i].Born? && Holds(h, h.log[i]) ==> Holds(v, h.log[i])
    requires x.Born? ==> !Has(h.log, Closed(x.parent, x.parentInc), 0, |h.log|)
    ensures EventOk(v, i)
  {
    assert EventOk(h, i);
    var e := h.log[i];
    assert v.log[i] == e;
    match e {
      case Born(o, inc, _, _) =>
        HasWider(h.log, x, Completed(o, inc), i + 1);
        HasMore(h.log, x, Completed(o, inc), 0, i);
      case Completed(o, inc) =>
        HasMore(h.log, x, Closed(o, inc), 0, i);
        HasMore(h.log, x, e, 0, i);
      case Closed(o, inc) =>
        HasMore(h.log, x, e, 0, i);
        assert Has(h.log, e, 0, |h.log|);
        forall j | 0 <= j < |v.log| && v.log[j].Born? && v.log[j].parent == o && v.log[j].parentInc == inc
          ensures Has(v.log, Completed(v.log[j].o, v.log[j].inc), j + 1, i)
        {
          if j < |h.log| {
            HasMore(h.log, x, Completed(h.log[j].o, h.log[j].inc), j + 1, i);
          }
        }
    }
  }

  /** Every object keeps its incarnation, its parent and a phase no earlier, except object `o`. */
  ghost predicate ElseSame(h: Heap, v: Heap, o: nat) {
    && |h.objs| <= |v.objs|
    && (forall i: nat :: IsObj(v, i) && i != o ==>
          && IsObj(h, i)
          && var f, g := h.objs[i], v.objs[i];
             && g.inc == f.inc && g.parent == f.parent && g.parentInc == f.parentInc && g.temporary == f.temporary
             && (g.phase == f.phase || (f.phase == Live && g.phase == Closing)))
  }

  lemma ForkLogs(h: Heap, st: Step, v: Heap)
    requires Inv(h) && LogInv(h) && Enabled(h, st) && st.Fork? && v == Apply(h, st)
    ensures LogInv(v)
  {
    hide LogInv, RefsOk, CallsOk;
    var p, c := AcquiredBy(h, st), Child(h, st);
    ForkShape(h, st);
    if st.o < |h.objs| { RefsAt(h.objs, st.o); }
    hide RefOk, Apply, Child, Enabled;
    ForkedLogs(h, st, p, c, v);
  }

  lemma ForkedLogs(h: Heap, st: Step, p: Option<nat>, c: Obj, v: Heap)
    requires LogInv(h) && st.Fork? && Forked(h.objs, st.o, p, c, v.objs)
    requires st.o < |h.objs| ==> h.objs[st.o].parent.None?
    requires v.log == if p.Some? && !st.temporary then h.log + [Born(st.o, c.inc, p.value, c.parentInc)] else h.log
    requires c.temporary == (p.Some? && st.temporary)
    ensures LogInv(v)
  {
    forall o: nat | IsObj(v, o) ensures StageOk(v, o) {
      if o != st.o {
        assert StageOk(h, o);
        if v.log != h.log {
          HasWider(h.log, v.log[|h.log|], Completed(o, h.objs[o].inc), 0);
          HasWider(h.log, v.log[|h.log|], Closed(o, h.objs[o].inc), 0);
        }
      }
    }
    if v.log == h.log {
      QuietKeeps(h, v);
    } else {
      var e := v.log[|h.log|];
      forall m | 0 <= m < |h.log| ensures h.log[m] != Closed(e.parent, e.parentInc) && h.log[m] != Completed(e.o, e.inc) {
        assert EventOk(h, m);
      }
      HasMore(h.log, e, Completed(e.o, e.inc), 0, |h.log|);
      LoggedKeeps(h, v, e);
    }
  }

  /** Steps that log nothing and detach at most frame `o`. */
  lemma SilentLogs(h: Heap, v: Heap, o: nat)
    requires LogInv(h) && IsObj(h, o) && ElseSame(h, v, o) && |v.objs| == |h.objs| && v.log == h.log
    requires var f, g := h.objs[o], v.objs[o];
      && g.inc == f.inc
      && (g.phase == f.phase || (f.phase == Live && g.phase == Closing) || (f.phase == Releasing && g.phase == Returning)
          || (f.phase == Returning && g.phase == Pooled))
      && ((g.parent == f.parent && g.parentInc == f.parentInc && g.temporary == f.temporary) || f.temporary || f.phase == Releasing)
    ensures LogInv(v)
  {
    forall i: nat | i < |h.log| && h.log[i].Born? && Holds(h, h.log[i])
      ensures Holds(v, h.log[i]) || Has(h.log, Completed(h.log[i].o, h.log[i].inc), i + 1, |h.log|)
    {
      if h.log[i].o == o && h.objs[o].phase == Releasing {
        CompletedAfter(h, i, o);
      }
    }
    forall i: nat | IsObj(v, i) ensures StageOk(v, i) {
      assert StageOk(h, i);
    }
    QuietKeeps(h, v);
  }

  /** A frame that lets go of its parent at the end of its reclaim has completed since its birth. */
  lemma CompletedAfter(h: Heap, i: nat, o: nat)
    requires LogInv(h) && i < |h.log| && IsObj(h, o) && h.objs[o].phase == Releasing
    requires h.log[i].Born? && h.log[i].o == o && h.log[i].inc == h.objs[o].inc
    ensures Has(h.log, Completed(o, h.log[i].inc), i + 1, |h.log|)
  {
    assert StageOk(h, o) && EventOk(h, i);
    var m :| 0 <= m < |h.log| && h.log[m] == Completed(o, h.objs[o].inc);
    var e := Completed(o, h.objs[o].inc);
    assert m < i ==> Has(h.log, e, 0, i);
  }

  lemma CloseLogs(h: Heap, o: nat)
    requires Inv(h) && LogInv(h) && Enabled(h, CloseValues(o))
    ensures LogInv(Apply(h, CloseValues(o)))
  {
    var v := Apply(h, CloseValues(o));
    RefsAt(h.objs, o);
    var e := Closed(o, h.objs[o].inc);
    forall j | 0 <= j < |h.log| && h.log[j].Born? && h.log[j].parent == o && h.log[j].parentInc == e.inc
      ensures Has(v.log, Completed(h.log[j].o, h.log[j].inc), j + 1, |h.log|)
    {
      var b := h.log[j];
      assert EventOk(h, j);
      assert Holds(h, b) ==> b.o in Kids(h.objs, o);
      HasMore(h.log, e, Completed(h.log[j].o, h.log[j].inc), j + 1, |h.log|);
    }
    EndLogs(h, v, o, e);
  }

  lemma CompleteLogs(h: Heap, o: nat)
    requires Inv(h) && LogInv(h) && Enabled(h, Complete(o))
    ensures LogInv(Apply(h, Complete(o)))
  {
    var v := Apply(h, Complete(o));
    var e := Completed(o, h.objs[o].inc);
    assert StageOk(h, o);
    HasMore(h.log, e, Closed(o, e.inc), 0, |h.log|);
    EndLogs(h, v, o, e);
  }

  /** Logging `e`, the closing or the completion of frame `o`. */
  lemma EndLogs(h: Heap, v: Heap, o: nat, e: Event)
    requires LogInv(h) && IsObj(h, o) && ElseSame(h, v, o) && |v.objs| == |h.objs| && v.log == h.log + [e]
    requires !e.Born? && e.o == o && e.inc == h.objs[o].inc
    requires var f, g := h.objs[o], v.objs[o];
      && g.inc == f.inc && g.parent == f.parent && g.parentInc == f.parentInc && g.temporary == f.temporary
      && (e.Closed? ==> f.phase == Closing && g.phase == Completing)
      && (e.Completed? ==> f.phase == Completing && g.phase == Releasing)
    requires e.Completed? ==> Has(v.log, Closed(o, e.inc), 0, |h.log|)
    requires e.Closed? ==> forall j :: 0 <= j < |h.log| && h.log[j].Born? && h.log[j].parent == o && h.log[j].parentInc == e.inc ==>
      Has(v.log, Completed(h.log[j].o, h.log[j].inc), j + 1, |h.log|)
    ensures LogInv(v)
  {
    forall m | 0 <= m < |h.log| ensures h.log[m] != e {
      assert EventOk(h, m);
    }
    forall i: nat | IsObj(v, i) ensures StageOk(v, i) {
      assert StageOk(h, i);
      HasWider(h.log, e, Completed(i, v.objs[i].inc), 0);
      HasWider(h.log, e, Closed(i, v.objs[i].inc), 0);
    }
    HasMore(h.log, e, e, 0, |h.log|);
    LoggedKeeps(h, v, e);
  }

  /** Steps inside forks and writes log nothing and move no frame's bonds or phase. */
  lemma StillLogs(h: Heap, st: Step, v: Heap)
    requires Inv(h) && LogInv(h) && Enabled(h, st) && StillRefs(st) && !st.CloseValues? && !st.Complete? && !st.Return? && v == Apply(h, st)
    ensures LogInv(v)
  {
    hide LogInv, Inv, SameRef;
    StillSame(h, st, v);
    StillPhases(h, st, v);
    hide Apply, Enabled;
    BondsKept(h, v);
  }

  lemma StillPhases(h: Heap, st: Step, v: Heap)
    requires Enabled(h, st) && StillRefs(st) && !st.CloseValues? && !st.Complete? && !st.Return? && v == Apply(h, st)
    ensures |v.objs| == |h.objs| && v.log == h.log && forall i: nat :: i < |h.objs| ==> v.objs[i].phase == h.objs[i].phase
  {
    hide Inherited, Carried, Store;
  }

  lemma BondsKept(h: Heap, v: Heap)
    requires LogInv(h) && |v.objs| == |h.objs| && v.log == h.log
    requires forall i: nat :: i < |h.objs| ==> v.objs[i].phase == h.objs[i].phase && SameRef(h.objs[i], v.objs[i])
    ensures LogInv(v)
  {
    forall o: nat | IsObj(v, o) ensures StageOk(v, o) { assert StageOk(h, o); }
    QuietKeeps(h, v);
  }

  lemma StepLogs(h: Heap, st: Step)
    requires Inv(h) && LogInv(h) && Enabled(h, st)
    ensures LogInv(Apply(h, st))
  {
    var v := Apply(h, st);
    hide LogInv, Inv, LetGo;
    match st {
      case Fork(_, _, _, _, _) => ForkLogs(h, st, v);
      case Release(o, _) => ReleaseLogs(h, st);
      case DropParent(o) => LetGoStep(h, st); LetGoLogs(h, o, LetGoFrame(h.objs[o]), v);
      case ReleaseParent(o) => LetGoStep(h, st); LetGoLogs(h, o, LetGoFrame(h.objs[o]), v);
      case CloseValues(o) => CloseLogs(h, o);
      case Complete(o) => CompleteLogs(h, o);
      case Return(o) => SilentLogs(h, v, o);
      case _ => StillLogs(h, st, v);
    }
  }

  lemma ReleaseLogs(h: Heap, st: Step)
    requires Inv(h) && LogInv(h) && Enabled(h, st) && st.Release?
    ensures LogInv(Apply(h, st))
  {
    hide LogInv, RefsOk;
    RefsAt(h.objs, st.o);
    SilentLogs(h, Apply(h, st), st.o);
  }

  lemma LetGoLogs(h: Heap, o: nat, f: Obj, v: Heap)
    requires Inv(h) && LogInv(h) && LetGo(h.objs, o, f, v.objs) && v.log == h.log
    requires o < |h.objs| && (h.objs[o].phase == Releasing || h.objs[o].temporary)
    ensures LogInv(v)
  {
    hide LogInv, RefsOk, CallsOk;
    LetGoIs(h.objs, o, f, v.objs);
    LetGoShape(h.objs, o, f, v.objs, o);
    RefsAt(h.objs, o);
    if h.objs[o].parent.Some? { RefsAt(h.objs, h.objs[o].parent.value); }
    assert ElseSame(h, v, o) by {
      forall i: nat | IsObj(v, i) && i != o ensures IsObj(h, i) && v.objs[i] == if h.objs[o].parent == Some(i) then Decremented(h.objs[i]) else h.objs[i] {
        LetGoShape(h.objs, o, f, v.objs, i);
      }
    }
    hide LetGo;
    SilentLogs(h, v, o);
  }

  // ---------------------------------------------------------------- over whole runs

  lemma {:induction false} RunKeeps(h: Heap, steps: seq<Step>)
    requires Inv(h) && LogInv(h) && Runs(h, steps)
    ensures Inv(Exec(h, steps)) && LogInv(Exec(h, steps))
    decreases |steps|
  {
    if steps != [] {
      StepKeeps(h, steps[0]);
      StepLogs(h, steps[0]);
      hide Inv, LogInv, Apply, Enabled;
      RunKeeps(Apply(h, steps[0]), steps[1..]);
    }
  }

  /** A heap that some run of frame operations reaches. */
  ghost predicate Reached(h: Heap) {
    exists steps :: Runs(EMPTY, steps) && Exec(EMPTY, steps) == h
  }

  lemma {:induction false} RunsOn(h: Heap, steps: seq<Step>, st: Step)
    requires Runs(h, steps) && Enabled(Exec(h, steps), st)
    ensures Runs(h, steps + [st]) && Exec(h, steps + [st]) == Apply(Exec(h, steps), st)
    decreases |steps|
  {
    hide Enabled, Apply;
    var more := steps + [st];
    if steps == [] {
      assert more == [st] && more[1..] == [];
      assert Runs(Apply(h, st), []) && Exec(Apply(h, st), []) == Apply(h, st);
    } else {
      assert more[0] == steps[0] && more[1..] == steps[1..] + [st];
      RunsOn(Apply(h, steps[0]), steps[1..], st);
    }
  }

  /** What one more step makes of a reached heap is reached. */
  lemma ReachedNext(h: Heap, st: Step)
    requires Reached(h) && Enabled(h, st)
    ensures Reached(Apply(h, st))
  {
    var steps :| Runs(EMPTY, steps) && Exec(EMPTY, steps) == h;
    RunsOn(EMPTY, steps, st);
    hide Enabled, Apply;
  }

  lemma ReachedOk(h: Heap)
    requires Reached(h)
    ensures Inv(h) && LogInv(h)
  {
    var steps :| Runs(EMPTY, steps) && Exec(EMPTY, steps) == h;
    RunKeeps(EMPTY, steps);
  }

  /** A frame in use counts exactly its unreleased owner and the frames that hold it; no other does. */
  lemma CountsReferences(h: Heap, o: nat)
    requires Reached(h) && IsObj(h, o)
    ensures h.objs[o].refcount == (if h.objs[o].held then 1 else 0) + |Kids(h.objs, o)|
    ensures h.objs[o].refcount > 0 <==> h.objs[o].phase == Live
    ensures forall c :: c in Kids(h.objs, o) ==> h.objs[o].phase == Live && h.objs[o].inc == h.objs[c].parentInc
  {
    ReachedOk(h);
    assert RefOk(h.objs, o);
    forall c | c in Kids(h.objs, o) ensures h.objs[o].phase == Live && h.objs[o].inc == h.objs[c].parentInc {
      assert ParentOk(h.objs, c);
    }
  }

  lemma ReleaseGrows(h: Heap, st: Step, o: nat)
    requires Enabled(h, st) && st.Release? && IsObj(h, o)
    ensures IsObj(Apply(h, st), o)
    ensures Apply(h, st).objs[o].generation >= h.objs[o].generation && Apply(h, st).objs[o].inc == h.objs[o].inc
  {
  }

  lemma StepGrows(h: Heap, st: Step, o: nat)
    requires Inv(h) && Enabled(h, st) && IsObj(h, o)
    ensures IsObj(Apply(h, st), o)
    ensures Apply(h, st).objs[o].generation >= h.objs[o].generation && Apply(h, st).objs[o].inc >= h.objs[o].inc
  {
    var v := Apply(h, st);
    hide RefsOk, CallsOk, LetGo, Apply, Enabled, Child;
    RefsAt(h.objs, o);
    if st.Fork? {
      ForkShape(h, st);
    } else if st.DropParent? || st.ReleaseParent? {
      LetGoStep(h, st);
      LetGoUse(h.objs, st.o, LetGoFrame(h.objs[st.o]), v.objs, o);
    } else if st.Release? {
      ReleaseGrows(h, st, o);
    } else {
      StillSame(h, st, v);
    }
  }

  lemma {:induction false} RunGrows(h: Heap, steps: seq<Step>, o: nat)
    requires Inv(h) && LogInv(h) && Runs(h, steps) && IsObj(h, o)
    ensures IsObj(Exec(h, steps), o)
    ensures Exec(h, steps).objs[o].generation >= h.objs[o].generation && Exec(h, steps).objs[o].inc >= h.objs[o].inc
    decreases |steps|
  {
    if steps != [] {
      StepKeeps(h, steps[0]);
      StepLogs(h, steps[0]);
      StepGrows(h, steps[0], o);
      hide Inv, LogInv, Apply, Enabled;
      RunGrows(Apply(h, steps[0]), steps[1..], o);
    }
  }

  /** A handle resolves exactly while the use it was made for lasts. */
  lemma ResolvesWhileLive(h: Heap, o: nat, g: nat)
    requires Reached(h)
    ensures Resolves(h, o, g) <==> IsObj(h, o) && h.objs[o].phase == Live && h.objs[o].inc == g
  {
    ReachedOk(h);
    if IsObj(h, o) { assert RefOk(h.objs, o); }
  }

  /** A handle that stops resolving never resolves again, whatever the object is reused for. */
  lemma StaleForever(h: Heap, steps: seq<Step>, later: seq<Step>, o: nat, g: nat)
    requires Reached(h) && Resolves(h, o, g) && Runs(h, steps) && !Resolves(Exec(h, steps), o, g)
    requires Runs(Exec(h, steps), later)
    ensures !Resolves(Exec(Exec(h, steps), later), o, g)
  {
    ReachedOk(h);
    var u := Exec(h, steps);
    RunKeeps(h, steps);
    RunGrows(h, steps, o);
    RunGrows(u, later, o);
    RunKeeps(u, later);
    assert RefOk(h.objs, o) && RefOk(u.objs, o) && RefOk(Exec(u, later).objs, o);
    hide Runs, LogInv, Inv;
  }

  /** No use of a frame closes its values twice or completes twice, and completion follows closing. */
  lemma ReclaimedOnce(h: Heap, i: nat, j: nat)
    requires Reached(h) && i < j < |h.log| && !h.log[i].Born?
    ensures h.log[i] != h.log[j]
    ensures h.log[i].Completed? ==> h.log[j] != Closed(h.log[i].o, h.log[i].inc)
  {
    ReachedOk(h);
    assert EventOk(h, i) && EventOk(h, j);
    var e := h.log[i];
    assert Has(h.log, e, 0, j);
    HasLonger(h.log, Closed(e.o, e.inc), i, j);
  }

  /** A frame object is back in the pool only after its last use was closed and completed. */
  lemma PooledWasReclaimed(h: Heap, o: nat)
    requires Reached(h) && IsObj(h, o) && h.objs[o].phase == Pooled
    ensures Closed(o, h.objs[o].inc) in h.log && Completed(o, h.objs[o].inc) in h.log
  {
    ReachedOk(h);
    assert StageOk(h, o);
    var m :| 0 <= m < |h.log| && h.log[m] == Completed(o, h.objs[o].inc);
    assert EventOk(h, m);
  }

  /** A child's closers and its completion run before its parent's closers do. */
  lemma ChildBeforeParent(h: Heap, i: nat, j: nat)
    requires Reached(h) && i < |h.log| && j < |h.log|
    requires h.log[i].Born? && h.log[j] == Closed(h.log[i].parent, h.log[i].parentInc)
    ensures exists n, m :: 0 <= n < m < j && i < m && h.log[n] == Closed(h.log[i].o, h.log[i].inc)
              && h.log[m] == Completed(h.log[i].o, h.log[i].inc)
  {
    ReachedOk(h);
    var b := h.log[i];
    assert EventOk(h, j);
    assert Has(h.log, Completed(b.o, b.inc), i + 1, j);
    var m :| i + 1 <= m < j && h.log[m] == Completed(b.o, b.inc);
    assert EventOk(h, m);
    assert Has(h.log, Closed(b.o, b.inc), 0, m);
    var n :| 0 <= n < m && h.log[n] == Closed(b.o, b.inc);
  }
}
