/** What a pending operation's Take reports over every run, by the Complete that won, and that Close can always return. */
module PendingOutcomes {
  import opened Options
  import opened PendingOperations
  import opened PendingRuns

  // ---------------------------------------------------------------- what Take reports

  /** The Complete that won had a resource to store. */
  predicate Stores(o: Won) {
    o.value.Some? && o.err.None? && o.ctx.None? && !o.closed
  }

  /** Why one that stored nothing has no result: its failure, then the context's error, then the close, then that there is none. */
  function Reason(o: Won): Error {
    if o.err.Some? then o.err.value
    else if o.ctx.Some? then o.ctx.value
    else if o.closed then OperationClosed
    else NoResult
  }

  /** What may have taken a stored resource away. */
  predicate Abandoned(w: World, e: Error) {
    || (e == OperationClosed && w.f.closed)
    || (e == Canceled && (w.ctxDone || w.parentDone))
  }

  ghost predicate OutcomeOk(w: World) {
    var f := w.f;
    && (f.finishing <==> w.won.Some?)
    && (w.won.None? ==> !w.stored && f.value.None? && f.err == if f.completed then Some(OperationClosed) else None)
    && (w.won.Some? ==>
          && (w.stored <==> Stores(w.won.value))
          && (w.won.value.closed ==> f.closed) && (w.won.value.ctx.Some? ==> w.ctxDone)
          && (!w.stored ==> f.err == Some(Reason(w.won.value)))
          && (f.value.Some? ==> w.stored && f.value == w.won.value.value))
    && (w.stored && f.err.Some? ==> Abandoned(w, f.err.value))
    && (w.won.None? && f.completed ==> f.closed)
    && (!w.hook.Uninstalled? && !w.hook.Waiting? && !w.hook.Stopped? ==> w.parentDone)
  }

  /** Complete's first section keeps the reason of the call that wins. */
  lemma RecordsReason(f: Fields, ctx: Option<Error>, value: Option<Res>, err: Option<Error>)
    requires !Late(f) && f.err.None?
    ensures var g, o := Recorded(f, ctx, value, err), Won(value, err, ctx, f.closed);
      g.finishing && g.completed == f.completed && g.closed == f.closed
      && if Stores(o) then g.value == value && g.err.None? else g.value.None? && g.err == Some(Reason(o))
  {
  }

  lemma OutcomeCompletes(w: World, i: nat)
    requires OutcomeOk(w) && i < |w.completes| && (w.completes[i].Finishing? ==> w.f.finishing)
    ensures OutcomeOk(CompleteStep(w, i))
  {
    hide CompleteStep, Recorded, Seen, Stores, Reason;
    var v := CompleteStep(w, i);
    CompleteIs(w, i, v);
    SameContext(w, i, v);
    if w.completes[i].Offering? {
      RecordedError(w.f, Seen(w), w.completes[i].value, w.completes[i].err);
      if !Late(w.f) { RecordsReason(w.f, Seen(w), w.completes[i].value, w.completes[i].err); }
    }
  }

  lemma SameContext(w: World, i: nat, v: World)
    requires i < |w.completes| && v == CompleteStep(w, i)
    ensures v.ctxDone == w.ctxDone && v.parentDone == w.parentDone && (Seen(w).Some? ==> w.ctxDone)
  {
    hide Recorded, Unwanted, Add, Finished;
  }

  /** Take's section keeps an error that is there, and otherwise records why it transfers nothing. */
  lemma TakenError(w: World, late: bool)
    ensures var f, g := w.f, Taken(w, late).0;
      && (f.err.Some? ==> g.err == f.err)
      && (f.value.None? ==> g.err == f.err)
      && (g.err.Some? && f.err.None? ==>
            || (g.err == Some(OperationClosed) && f.closed)
            || (g.err == Some(Canceled) && (w.ctxDone || late || Detached(f, w.hook.Waiting?).hookRunning)))
  {
  }

  lemma OutcomeTakes(w: World, i: nat, late: bool)
    requires OutcomeOk(w) && FieldsOk(w) && HookOk(w) && Enabled(w, GoTake(i, late))
    ensures OutcomeOk(TakeStep(w, i, late))
  {
    hide TakeStep, Taken, Stores, Reason, Busy;
    var v := TakeStep(w, i, late);
    SameParent(w, i, late, v);
    if w.takes[i].Asking? {
      AskedIs(w, i, late, v);
      TakenFields(w, late);
      TakenError(w, late);
    } else {
      TakeClosedIs(w, i, late, v);
    }
  }

  lemma SameParent(w: World, i: nat, late: bool, v: World)
    requires i < |w.takes| && v == TakeStep(w, i, late)
    ensures v.parentDone == w.parentDone
  {
    hide Taken, StopHook, Add;
  }

  lemma OutcomeCloses(w: World)
    requires OutcomeOk(w) && FieldsOk(w) && Enabled(w, GoClose)
    ensures OutcomeOk(CloseStep(w))
  {
    hide Add, Busy, Stores, Reason;
  }

  lemma OutcomeAmbient(w: World, st: Step)
    requires OutcomeOk(w) && HookOk(w) && FieldsOk(w) && Enabled(w, st) && !st.GoComplete? && !st.GoTake? && !st.GoClose?
    ensures OutcomeOk(Apply(w, st))
  {
    hide Add, Busy, CompleteStep, TakeStep, CloseStep, Stores, Reason;
  }

  lemma OutcomeStep(w: World, st: Step)
    requires OutcomeOk(w) && HookOk(w) && Inv(w) && Enabled(w, st)
    ensures OutcomeOk(Apply(w, st))
  {
    hide CompleteStep, TakeStep, CloseStep, FieldsOk, Conserved, OutcomeOk, HookOk;
    match st {
      case GoComplete(i) =>
        assert w.completes[i].Finishing? ==> Winner(w.completes[i]);
        OutcomeCompletes(w, i);
      case GoTake(i, late) => OutcomeTakes(w, i, late);
      case GoClose => OutcomeCloses(w);
      case _ => OutcomeAmbient(w, st);
    }
  }

  lemma {:induction false} OutcomeRuns(w: World, steps: seq<Step>)
    requires OutcomeOk(w) && ErrorOk(w) && HookOk(w) && Inv(w) && Runs(w, steps)
    ensures OutcomeOk(Exec(w, steps))
    decreases |steps|
  {
    if steps != [] {
      StepKeeps(w, steps[0]);
      ErrorStep(w, steps[0]);
      OutcomeStep(w, steps[0]);
      hide Inv, Apply, Enabled, ErrorOk, HookOk, OutcomeOk;
      OutcomeRuns(Apply(w, steps[0]), steps[1..]);
    }
  }

  lemma ReachedOutcome(w: World)
    requires Reached(w)
    ensures OutcomeOk(w)
  {
    var steps :| Runs(FRESH, steps) && Exec(FRESH, steps) == w;
    FreshOk();
    assert ErrorOk(FRESH) && HookOk(FRESH) && OutcomeOk(FRESH);
    hide Inv, ErrorOk, HookOk, OutcomeOk;
    OutcomeRuns(FRESH, steps);
  }

  /**
   * The first Take of a complete operation reports the outcome of the Complete that won, whatever happened
   * since: its failure, or else the context's error, the close or the missing result that kept it from
   * storing anything. If it stored a resource, that one is transferred or closed, and only a close or a
   * cancellation takes it away. If none won, Close completed the operation.
   */
  lemma TakeReports(w: World, late: bool)
    requires Reached(w) && w.f.completed && !w.f.taken
    ensures var r := Taken(w, late).1;
      && (w.won.None? ==> r == Ready(Some(OperationClosed)))
      && (w.won.Some? && !Stores(w.won.value) ==> r == Ready(Some(Reason(w.won.value))))
      && (w.won.Some? && Stores(w.won.value) ==>
            && (r.Got? ==> Some(r.res) == w.won.value.value)
            && (r.Closes? ==> Some(r.discard) == w.won.value.value && r.err.Some?)
            && (r.Ready? && r.err.Some? ==>
                  || (r.err == Some(OperationClosed) && w.f.closed)
                  || (r.err == Some(Canceled) && (w.ctxDone || w.parentDone || late)))
            && !r.NotReady?)
  {
    ReachedOutcome(w);
    ReportOk(w);
    TakenError(w, late);
    hide Reached, Busy, Reason;
  }

  /**
   * The first Take of a complete operation that holds a resource decides over it, unless the operation was
   * closed or canceled by then or its hook has begun: it transfers it, or closes it if the context ends
   * during the call. Otherwise it leaves it to the Close or the hook.
   */
  lemma TakeSettles(w: World, late: bool)
    requires Reached(w) && w.f.completed && !w.f.taken && w.f.value.Some?
    ensures var g, r := Taken(w, late).0, Taken(w, late).1;
      var left := w.f.closed || Seen(w).Some? || !(w.hook.Uninstalled? || w.hook.Waiting? || w.hook.Stopped?);
      && g.taken && g.value == (if left then w.f.value else None)
      && (r.Ready? <==> left) && (r.Closes? <==> !left && late) && (r.Got? <==> !left && !late)
  {
    ReportOk(w);
    hide Reached, Busy, Seen, FirstError, AbandonError;
  }

  /** An operation that nobody closed and whose context has not ended reports exactly what its worker said. */
  lemma UndisturbedReports(w: World)
    requires Reached(w) && w.f.completed && !w.f.taken && !w.f.closed && !w.ctxDone && !w.parentDone
    ensures w.won.Some?
    ensures var o, r := w.won.value, Taken(w, false).1;
      && (o.err.Some? ==> r == Ready(o.err))
      && (o.err.None? && o.value.None? ==> r == Ready(Some(NoResult)))
      && (o.err.None? && o.value.Some? ==> r == Got(o.value.value))
  {
    ReachedOutcome(w);
    ReportOk(w);
    hide Reached, Busy;
  }

  // ---------------------------------------------------------------- the operation can always be completed and closed

  /** The call that won is there until the operation is complete, and one that has been decided found it decided. */
  ghost predicate Decides(w: World) {
    && (w.f.finishing && !w.f.completed ==> exists i :: 0 <= i < |w.completes| && Winner(w.completes[i]))
    && (forall i :: 0 <= i < |w.completes| && !w.completes[i].Offering? ==> Late(w.f))
    && (w.closing.Joining? && w.closing.running ==> w.f.hookRunning)
  }

  lemma DecidesCompletes(w: World, i: nat, v: World)
    requires Decides(w) && WinnersOk(w) && i < |w.completes| && v == CompleteStep(w, i)
    ensures Decides(v)
  {
    hide Recorded, Unwanted, Add, Seen;
    var c := w.completes[i];
    CompleteIs(w, i, v);
    if c.Offering? { RecordedError(w.f, Seen(w), c.value, c.err); RecordedHook(w.f, Seen(w), c.value, c.err); }
    assert v.completes == w.completes[i := v.completes[i]];
    if v.f.finishing && !v.f.completed {
      if w.f.finishing && !w.f.completed {
        var j :| 0 <= j < |w.completes| && Winner(w.completes[j]);
        assert v.completes[j] == w.completes[j] || (j == i && Winner(v.completes[i]));
      } else {
        assert Winner(v.completes[i]);
      }
    }
  }

  lemma RecordedHook(f: Fields, ctx: Option<Error>, value: Option<Res>, err: Option<Error>)
    ensures Recorded(f, ctx, value, err).hookRunning == f.hookRunning && Recorded(f, ctx, value, err).completed == f.completed
  {
  }

  lemma DecidesTakes(w: World, i: nat, late: bool, v: World)
    requires Decides(w) && i < |w.takes| && v == TakeStep(w, i, late)
    ensures Decides(v)
  {
    hide TakeStep, Taken, Winner;
    TakenFields(w, late);
    if w.takes[i].Asking? { AskedIs(w, i, late, v); } else { TakeClosedIs(w, i, late, v); }
  }

  lemma DecidesCloses(w: World)
    requires Decides(w)
    ensures Decides(CloseStep(w))
  {
    hide Add, StopHook, Winner;
  }

  lemma DecidesAmbient(w: World, st: Step)
    requires Decides(w) && Enabled(w, st) && !st.GoComplete? && !st.GoTake? && !st.GoClose?
    ensures Decides(Apply(w, st))
  {
    hide Add, Seen, CompleteStep, TakeStep, CloseStep;
    var v := Apply(w, st);
    if v.f.finishing && !v.f.completed {
      var j :| 0 <= j < |w.completes| && Winner(w.completes[j]);
      assert v.completes[j] == w.completes[j];
    }
  }

  lemma DecidesStep(w: World, st: Step)
    requires Decides(w) && Inv(w) && Enabled(w, st)
    ensures Decides(Apply(w, st))
  {
    hide CompleteStep, TakeStep, CloseStep, FieldsOk, WinnersOk, Conserved, Decides;
    match st {
      case GoComplete(i) => DecidesCompletes(w, i, Apply(w, st));
      case GoTake(i, late) => DecidesTakes(w, i, late, Apply(w, st));
      case GoClose => DecidesCloses(w);
      case _ => DecidesAmbient(w, st);
    }
  }

  lemma {:induction false} DecidesRuns(w: World, steps: seq<Step>)
    requires Decides(w) && Inv(w) && Runs(w, steps)
    ensures Decides(Exec(w, steps))
    decreases |steps|
  {
    if steps != [] {
      StepKeeps(w, steps[0]);
      DecidesStep(w, steps[0]);
      hide Inv, Apply, Enabled, Decides;
      DecidesRuns(Apply(w, steps[0]), steps[1..]);
    }
  }

  lemma ReachedDecides(w: World)
    requires Reached(w)
    ensures Decides(w)
  {
    var steps :| Runs(FRESH, steps) && Exec(FRESH, steps) == w;
    FreshOk();
    assert Decides(FRESH);
    hide Inv, Decides;
    DecidesRuns(FRESH, steps);
  }

  /** Some run leads from `w` to `v`. */
  ghost predicate Leads(w: World, v: World) {
    exists steps :: Runs(w, steps) && Exec(w, steps) == v
  }

  lemma LeadsNowhere(w: World)
    ensures Leads(w, w)
  {
    assert Runs(w, []) && Exec(w, []) == w;
  }

  lemma LeadsFrom(w: World, st: Step, v: World)
    requires Enabled(w, st) && Leads(Apply(w, st), v)
    ensures Leads(w, v)
  {
    hide Enabled, Apply;
    var steps :| Runs(Apply(w, st), steps) && Exec(Apply(w, st), steps) == v;
    assert ([st] + steps)[1..] == steps;
    assert Runs(w, [st] + steps) && Exec(w, [st] + steps) == v;
  }

  // First the operation becomes complete.

  function CompleteWork(c: Completing): nat {
    match c
    case Offering(_, _) => 3
    case Discarding(_) => 2
    case Finishing => 1
    case _ => 0
  }

  /** Once some Complete was called the operation can become complete. */
  lemma {:induction false} CanComplete(w: World, i: nat) returns (v: World)
    requires Reached(w) && i < |w.completes| && !w.f.completed
    requires if w.f.finishing then Winner(w.completes[i]) else w.completes[i].Offering?
    ensures Leads(w, v) && Reached(v) && v.f.completed
    decreases CompleteWork(w.completes[i])
  {
    var u := ReachedNext(w, GoComplete(i));
    CompleteIs(w, i, u);
    LeadsNowhere(u);
    hide Reached, Leads, Recorded, Unwanted, Add, Seen;
    if w.completes[i].Finishing? {
      v := u;
    } else {
      var c := w.completes[i];
      if c.Offering? { RecordedHook(w.f, Seen(w), c.value, c.err); RecordedError(w.f, Seen(w), c.value, c.err); }
      v := CanComplete(u, i);
    }
    LeadsFrom(w, GoComplete(i), v);
  }

  /** The hook that a canceled parent starts closes the resource that is stored and leaves the reason. */
  lemma CancelCloses(w: World, r: Res) returns (v: World)
    requires Reached(w) && w.hook.Fired? && w.f.value == Some(r)
    ensures Leads(w, v) && Reached(v) && v.hook.HookReturned? && v.ctxDone
    ensures v.f.value.None? && v.f.err.Some? && v.closed[r] == 1 && v.transferred[r] == 0
  {
    var x := ReachedNext(w, RunHook);
    var y := ReachedNext(x, CancelHook);
    v := ReachedNext(y, EndHook);
    AtMostOneOwner(v, r);
    LeadsNowhere(v);
    assert v.closed[r] == w.closed[r] + 1;
    hide Reached, Leads;
    LeadsFrom(y, EndHook, v);
    LeadsFrom(x, CancelHook, v);
    LeadsFrom(w, RunHook, v);
  }

  // Then Close can return.

  function CloseWork(k: Closing): nat {
    match k
    case NotClosing => 6
    case Marked(_) => 5
    case Awaiting => 4
    case Joining(_, _) => 3
    case ClosingLeftover(_, _) => 2
    case Draining => 1
    case CloseReturned => 0
  }

  function HookWork(h: Hook): nat {
    match h
    case Fired => 3
    case HookCanceling(_) => 2
    case HookClosing(_) => 1
    case _ => 0
  }

  function Work(w: World): nat {
    HookWork(w.hook) + Busy(w.takes) + CloseWork(w.closing)
  }

  lemma {:induction false} BusyOne(ts: seq<Taking>) returns (i: nat)
    requires Busy(ts) > 0
    ensures i < |ts| && ts[i].TakeClosing?
  {
    var n := |ts| - 1;
    if ts[n].TakeClosing? { i := n; } else { i := BusyOne(ts[..n]); }
  }

  /** The step that brings a complete operation closer to closed: the hook first, then takes, then Close itself. */
  lemma NextStep(w: World) returns (st: Step)
    requires FieldsOk(w) && HookOk(w) && Decides(w) && w.f.completed && Work(w) > 0 && !w.closing.CloseReturned?
    ensures Enabled(w, st)
    ensures
      || ((st == RunHook || st == CancelHook || st == EndHook) && HookWork(w.hook) > 0)
      || (st.GoTake? && st.i < |w.takes| && w.takes[st.i].TakeClosing? && !st.late)
      || (st == GoClose && HookWork(w.hook) == 0)
  {
    match w.hook {
      case Fired => st := RunHook;
      case HookCanceling(_) => st := CancelHook;
      case HookClosing(_) => st := EndHook;
      case _ =>
        if Busy(w.takes) > 0 {
          var i := BusyOne(w.takes);
          st := GoTake(i, false);
        } else {
          st := GoClose;
        }
    }
  }

  lemma HookWorks(w: World, st: Step)
    requires Enabled(w, st) && (st == RunHook || st == CancelHook || st == EndHook)
    ensures Work(Apply(w, st)) < Work(w) && Apply(w, st).f.completed == w.f.completed
  {
    hide Busy, Add, Seen, FirstError, AbandonError;
  }

  lemma TakeWorks(w: World, i: nat)
    requires i < |w.takes| && w.takes[i].TakeClosing?
    ensures Work(TakeStep(w, i, false)) < Work(w) && TakeStep(w, i, false).f.completed == w.f.completed
  {
    hide TakeStep, Busy, InTakes;
    var v := TakeStep(w, i, false);
    TakeClosedIs(w, i, false, v);
    TakesUpdate(w.takes, i, v.takes[i], 0);
  }

  lemma CloseWorks(w: World)
    requires FieldsOk(w) && Enabled(w, GoClose) && HookWork(w.hook) == 0
    ensures Work(CloseStep(w)) < Work(w) && (w.f.completed ==> CloseStep(w).f.completed)
  {
    hide Busy, Add;
  }

  lemma StepWorks(w: World, st: Step)
    requires FieldsOk(w) && Enabled(w, st)
    requires
      || ((st == RunHook || st == CancelHook || st == EndHook) && HookWork(w.hook) > 0)
      || (st.GoTake? && st.i < |w.takes| && w.takes[st.i].TakeClosing? && !st.late)
      || (st == GoClose && HookWork(w.hook) == 0)
    ensures Work(Apply(w, st)) < Work(w) && (w.f.completed ==> Apply(w, st).f.completed)
  {
    hide Busy, Add, Work, HookWork, FieldsOk, TakeStep, CloseStep, HookRan, CloseDone;
    match st {
      case GoTake(i, _) => TakeWorks(w, i);
      case GoClose => CloseWorks(w);
      case _ => HookWorks(w, st);
    }
  }

  /** A complete operation can be closed, whatever the hook and the takes are doing. */
  lemma {:induction false} CanClose(w: World) returns (v: World)
    requires Reached(w) && w.f.completed
    ensures Leads(w, v) && v.f.completed && v.closing.CloseReturned?
    decreases Work(w)
  {
    LeadsNowhere(w);
    v := w;
    if !w.closing.CloseReturned? {
      ReportOk(w);
      ReachedDecides(w);
      hide Reached, Leads, Busy, ErrorOk, HookOk, FieldsOk, Decides, Apply, Enabled;
      var st := NextStep(w);
      StepWorks(w, st);
      var u := ReachedNext(w, st);
      v := CanClose(u);
      LeadsFrom(w, st, v);
    }
  }

  /**
   * From every reached state in which the worker has called Complete, or Close has completed the operation,
   * the operation can become ready and Close can return: no interleaving leaves either waiting for good.
   */
  lemma CanFinish(w: World) returns (v: World)
    requires Reached(w) && (w.completes != [] || w.f.completed)
    ensures Leads(w, v) && v.f.completed && v.closing.CloseReturned?
  {
    if w.f.completed {
      v := CanClose(w);
    } else {
      ReachedDecides(w);
      var i := 0;
      if w.f.finishing { i :| 0 <= i < |w.completes| && Winner(w.completes[i]); }
      hide Reached, Leads;
      var u := CanComplete(w, i);
      v := CanClose(u);
      LeadsOn(w, u, v);
    }
  }

  lemma LeadsOn(w: World, u: World, v: World)
    requires Leads(w, u) && Leads(u, v)
    ensures Leads(w, v)
  {
    var xs :| Runs(w, xs) && Exec(w, xs) == u;
    LeadsAlong(w, xs, u, v);
  }

  lemma {:induction false} LeadsAlong(w: World, xs: seq<Step>, u: World, v: World)
    requires Runs(w, xs) && Exec(w, xs) == u && Leads(u, v)
    ensures Leads(w, v)
    decreases |xs|
  {
    hide Leads, Enabled, Apply;
    if xs != [] {
      LeadsAlong(Apply(w, xs[0]), xs[1..], u, v);
      LeadsFrom(w, xs[0], v);
    }
  }
}
