/** Every interleaving of the calls on a pending operation: who ends up with each resource. */
module PendingRuns {
  import opened Options
  import opened PendingOperations

  /** A Complete call between its sections. */
  datatype Completing =
    | Offering(value: Option<Res>, err: Option<Error>)
    | Rejecting(value: Option<Res>)
    | Discarding(value: Option<Res>)
    | Finishing
    | CompleteReturned

  /** A Take call: before its section, canceling the context of what it transfers, closing what it withdrew, or over. */
  datatype Taking = Asking | TakeCanceling(res: Res) | TakeClosing(res: Res) | TakeReturned(result: TakeResult)

  /** The one call that Close's once-guard lets run. */
  datatype Closing =
    | NotClosing
    | Marked(started: bool)
    | Awaiting
    | Joining(leftover: Option<Res>, running: bool)
    | ClosingLeftover(leftover: Option<Res>, started: bool)
    | Draining
    | CloseReturned

  /** The cancellation hook: not installed, waiting for the parent, stopped, or running through its parts. */
  datatype Hook =
    | Uninstalled
    | Waiting
    | Stopped
    | Fired
    | HookCanceling(res: Option<Res>)
    | HookClosing(res: Option<Res>)
    | HookReturned

  /** The Complete that won: its arguments, the context's error as it saw it, and whether Close had begun. */
  datatype Won = Won(value: Option<Res>, err: Option<Error>, ctx: Option<Error>, closed: bool)

  /**
   * `given`, `closed` and `transferred` are histories of resources; `won` is the Complete that won, and
   * `stored` tells that it stored a resource.
   */
  datatype World = World(
    f: Fields,
    parentDone: bool,
    ctxDone: bool,
    hook: Hook,
    completes: seq<Completing>,
    takes: seq<Taking>,
    closing: Closing,
    given: multiset<Res>,
    closed: multiset<Res>,
    transferred: multiset<Res>,
    won: Option<Won>,
    stored: bool)

  const FRESH: World := World(IDLE, false, false, Uninstalled, [], [], NotClosing, multiset{}, multiset{}, multiset{}, None, false)

  datatype Step =
    | Start
    | CancelParent
    | Propagate
    | Fire
    | RunHook
    | CancelHook
    | EndHook
    | CallComplete(value: Option<Res>, err: Option<Error>)
    | GoComplete(i: nat)
    | CallTake
    | GoTake(i: nat, late: bool)
    | GoClose

  /** What a section sees of the context: nothing before Start. */
  function Seen(w: World): Option<Error> {
    if w.f.started && w.ctxDone then Some(Canceled) else None
  }

  predicate Enabled(w: World, st: Step) {
    match st
    case Start => true
    case CancelParent => true
    case Propagate => w.parentDone && w.f.started
    case Fire => w.parentDone && w.hook.Waiting?
    case RunHook => w.hook.Fired?
    case CancelHook => w.hook.HookCanceling?
    case EndHook => w.hook.HookClosing?
    case CallComplete(value, _) => value.Some? ==> value.value !in w.given
    case GoComplete(i) => i < |w.completes| && !w.completes[i].CompleteReturned?
    case CallTake => true
    case GoTake(i, late) => i < |w.takes| && !w.takes[i].TakeReturned? && (late ==> w.parentDone && w.f.started)
    case GoClose =>
      match w.closing
      case Awaiting => w.f.signals > 0
      case Joining(_, running) => running ==> w.hook.HookReturned?
      case Draining => w.f.inflight == 0
      case CloseReturned => false
      case _ => true
  }

  /** One more of resource `r`, if there is one. */
  function Add(m: multiset<Res>, r: Option<Res>): multiset<Res> {
    if r.Some? then m[r.value := m[r.value] + 1] else m
  }

  /** The stop function succeeds while the hook has not started. */
  function StopHook(w: World): Hook {
    if w.f.armed && w.hook.Waiting? then Stopped else w.hook
  }

  function CompleteStep(w: World, i: nat): World
    requires i < |w.completes|
  {
    match w.completes[i]
    case Offering(value, err) =>
      var d := Unwanted(w.f, Seen(w), value, err);
      w.(f := Recorded(w.f, Seen(w), value, err),
         completes := w.completes[i := if Late(w.f) then Rejecting(d) else Discarding(d)],
         won := if Late(w.f) then w.won else Some(Won(value, err, Seen(w), w.f.closed)),
         stored := w.stored || (!Late(w.f) && Recorded(w.f, Seen(w), value, err).value.Some?))
    case Rejecting(r) => w.(completes := w.completes[i := CompleteReturned], closed := Add(w.closed, r))
    case Discarding(r) => w.(completes := w.completes[i := Finishing], closed := Add(w.closed, r))
    case Finishing => w.(f := Finished(w.f), completes := w.completes[i := CompleteReturned])
    case CompleteReturned => w
  }

  /** What Take's section does now; `late` says that the context ends while it runs. */
  function Taken(w: World, late: bool): (Fields, TakeResult) {
    Took(w.f, Seen(w), if late then Some(Canceled) else Seen(w), w.hook.Waiting?)
  }

  function TakeStep(w: World, i: nat, late: bool): World
    requires i < |w.takes|
  {
    match w.takes[i]
    case Asking =>
      var g, r := Taken(w, late).0, Taken(w, late).1;
      w.(f := g,
         ctxDone := w.ctxDone || late,
         hook := if w.f.armed && !g.armed then StopHook(w) else w.hook,
         takes := w.takes[i := if r.Closes? then TakeClosing(r.discard) else if r.Got? then TakeCanceling(r.res) else TakeReturned(r)],
         transferred := if r.Got? then Add(w.transferred, Some(r.res)) else w.transferred)
    case TakeCanceling(r) => w.(takes := w.takes[i := TakeReturned(Got(r))], ctxDone := w.ctxDone || w.f.started)
    case TakeClosing(r) => w.(f := CloseDone(w.f), takes := w.takes[i := TakeReturned(Ready(w.f.err))], closed := Add(w.closed, Some(r)))
    case TakeReturned(_) => w
  }

  /** The fields after Close's next step. */
  function ClosedFields(w: World): Fields {
    match w.closing
    case NotClosing => CloseMarked(w.f)
    case Marked(started) => if started then w.f else CloseIdle(w.f)
    case Awaiting => CloseJoined(w.f, w.hook.Waiting?)
    case ClosingLeftover(r, _) => if r.Some? then CloseDone(w.f) else w.f
    case _ => w.f
  }

  function NextClosing(w: World): Closing {
    match w.closing
    case NotClosing => Marked(w.f.started)
    case Marked(started) => if started then Awaiting else ClosingLeftover(w.f.value, false)
    case Awaiting => Joining(w.f.value, CloseJoined(w.f, w.hook.Waiting?).hookRunning)
    case Joining(r, _) => ClosingLeftover(r, true)
    case ClosingLeftover(_, started) => if started then Draining else CloseReturned
    case Draining => CloseReturned
    case CloseReturned => CloseReturned
  }

  function CloseStep(w: World): World {
    w.(f := ClosedFields(w),
       closing := NextClosing(w),
       ctxDone := w.ctxDone || w.closing == Marked(true),
       hook := if w.closing.Awaiting? then StopHook(w) else w.hook,
       closed := if w.closing.ClosingLeftover? then Add(w.closed, w.closing.leftover) else w.closed)
  }

  function Apply(w: World, st: Step): World
    requires Enabled(w, st)
  {
    match st
    case Start => w.(f := Started(w.f), hook := if w.f.closed || w.f.started then w.hook else Waiting)
    case CancelParent => w.(parentDone := true)
    case Propagate => w.(ctxDone := true)
    case Fire => w.(hook := Fired)
    case RunHook => w.(f := HookRan(w.f, Seen(w)), hook := HookCanceling(w.f.value))
    case CancelHook => w.(hook := HookClosing(w.hook.res), ctxDone := true)
    case EndHook =>
      var r := w.hook.res;
      w.(f := if r.Some? then CloseDone(w.f) else w.f, hook := HookReturned, closed := Add(w.closed, r))
    case CallComplete(value, err) => w.(completes := w.completes + [Offering(value, err)], given := Add(w.given, value))
    case GoComplete(i) => CompleteStep(w, i)
    case CallTake => w.(takes := w.takes + [Asking])
    case GoTake(i, late) => TakeStep(w, i, late)
    case GoClose => CloseStep(w)
  }

  predicate Runs(w: World, steps: seq<Step>)
    decreases |steps|
  {
    steps != [] ==> Enabled(w, steps[0]) && Runs(Apply(w, steps[0]), steps[1..])
  }

  function Exec(w: World, steps: seq<Step>): World
    requires Runs(w, steps)
    decreases |steps|
  {
    if steps == [] then w else Exec(Apply(w, steps[0]), steps[1..])
  }

  // ---------------------------------------------------------------- where resources are

  function OfComplete(c: Completing): Option<Res> {
    if c.Offering? || c.Rejecting? || c.Discarding? then c.value else None
  }

  function OfTake(t: Taking): Option<Res> {
    if t.TakeClosing? then Some(t.res) else None
  }

  function OfClose(k: Closing): Option<Res> {
    if k.Joining? || k.ClosingLeftover? then k.leftover else None
  }

  function OfHook(h: Hook): Option<Res> {
    if h.HookCanceling? || h.HookClosing? then h.res else None
  }

  function Is(o: Option<Res>, r: Res): nat {
    if o == Some(r) then 1 else 0
  }

  function InCompletes(cs: seq<Completing>, r: Res): nat {
    if cs == [] then 0 else InCompletes(cs[..|cs| - 1], r) + Is(OfComplete(cs[|cs| - 1]), r)
  }

  function InTakes(ts: seq<Taking>, r: Res): nat {
    if ts == [] then 0 else InTakes(ts[..|ts| - 1], r) + Is(OfTake(ts[|ts| - 1]), r)
  }

  /** Take calls that are closing a resource. */
  function Busy(ts: seq<Taking>): nat {
    if ts == [] then 0 else Busy(ts[..|ts| - 1]) + (if ts[|ts| - 1].TakeClosing? then 1 else 0)
  }

  /** The places where resource `r` is, counted. */
  function Places(w: World, r: Res): nat {
    Is(w.f.value, r) + InCompletes(w.completes, r) + InTakes(w.takes, r) + Is(OfClose(w.closing), r) + Is(OfHook(w.hook), r)
    + w.closed[r] + w.transferred[r]
  }

  predicate Winner(c: Completing) {
    c.Discarding? || c.Finishing?
  }

  /** Past the point where Close took what was left. */
  predicate Swept(k: Closing) {
    k.Joining? || k.ClosingLeftover? || k.Draining? || k.CloseReturned?
  }

  ghost predicate FieldsOk(w: World) {
    var f := w.f;
    && f.signals == (if f.completed then 1 else 0)
    && (f.value.Some? ==> f.finishing)
    && (w.hook.Uninstalled? <==> !f.started)
    && (w.hook.Waiting? ==> f.armed)
    && (f.armed || f.hookRunning ==> f.started)
    && (f.closed <==> !w.closing.NotClosing?)
    && (Swept(w.closing) ==> f.value.None? && Late(f))
    && (w.closing.Marked? || w.closing.ClosingLeftover? ==> w.closing.started == f.started)
    && (w.closing.Awaiting? || w.closing.Joining? || w.closing.Draining? ==> f.started)
    && (!f.started ==> Busy(w.takes) == 0 && !w.ctxDone)
    && f.inflight == Busy(w.takes) + (if OfHook(w.hook).Some? then 1 else 0) + (if OfClose(w.closing).Some? then 1 else 0)
    && (w.closing.CloseReturned? ==> f.inflight == 0)
  }

  ghost predicate WinnersOk(w: World) {
    && (forall i: nat :: i < |w.completes| && Winner(w.completes[i]) ==> w.f.finishing && !w.f.completed)
    && (forall i: nat, j: nat :: i < j < |w.completes| ==> !(Winner(w.completes[i]) && Winner(w.completes[j])))
  }

  /** Each resource given is in exactly one place. */
  ghost predicate Conserved(w: World, r: Res) {
    Places(w, r) == w.given[r] <= 1
  }

  ghost predicate Inv(w: World) {
    (forall r :: Conserved(w, r)) && FieldsOk(w) && WinnersOk(w)
  }

  // ---------------------------------------------------------------- steps

  lemma {:induction false} CompletesUpdate(cs: seq<Completing>, i: nat, c: Completing, r: Res)
    requires i < |cs|
    ensures InCompletes(cs[i := c], r) == InCompletes(cs, r) + Is(OfComplete(c), r) - Is(OfComplete(cs[i]), r)
  {
    var n := |cs| - 1;
    if i == n {
      assert cs[i := c][..n] == cs[..n];
    } else {
      assert cs[i := c][..n] == cs[..n][i := c];
      CompletesUpdate(cs[..n], i, c, r);
    }
  }

  lemma {:induction false} TakesUpdate(ts: seq<Taking>, i: nat, t: Taking, r: Res)
    requires i < |ts|
    ensures InTakes(ts[i := t], r) == InTakes(ts, r) + Is(OfTake(t), r) - Is(OfTake(ts[i]), r)
    ensures Busy(ts[i := t]) == Busy(ts) + (if t.TakeClosing? then 1 else 0) - (if ts[i].TakeClosing? then 1 else 0)
  {
    var n := |ts| - 1;
    if i == n {
      assert ts[i := t][..n] == ts[..n];
    } else {
      assert ts[i := t][..n] == ts[..n][i := t];
      TakesUpdate(ts[..n], i, t, r);
    }
  }

  lemma {:induction false} NotBusy(ts: seq<Taking>, r: Res)
    ensures Busy(ts) == 0 ==> InTakes(ts, r) == 0
  {
    if ts != [] { NotBusy(ts[..|ts| - 1], r); }
  }

  /** Whatever Complete's first section does, the resource is then either stored or unwanted. */
  lemma RecordedPlaces(f: Fields, ctx: Option<Error>, value: Option<Res>, err: Option<Error>, r: Res)
    requires f.value.Some? ==> f.finishing
    ensures Is(Recorded(f, ctx, value, err).value, r) + Is(Unwanted(f, ctx, value, err), r) == Is(f.value, r) + Is(value, r)
  {
  }

  lemma RecordedFields(f: Fields, ctx: Option<Error>, value: Option<Res>, err: Option<Error>)
    requires f.value.Some? ==> f.finishing
    ensures var g := Recorded(f, ctx, value, err);
      && g.started == f.started && g.completed == f.completed && g.closed == f.closed && g.signals == f.signals && g.inflight == f.inflight
      && g.armed == f.armed && g.hookRunning == f.hookRunning
      && (Late(f) ==> g == f) && (!Late(f) ==> g.finishing) && (g.value.Some? ==> g.finishing)
      && (!Late(f) && f.closed ==> g.value.None?)
  {
  }

  lemma CompleteConserves(w: World, i: nat, v: World, r: Res)
    requires Conserved(w, r) && FieldsOk(w) && Enabled(w, GoComplete(i)) && v == CompleteStep(w, i)
    ensures Conserved(v, r)
  {
    hide InCompletes, InTakes, Busy, Recorded, Unwanted;
    CompletesUpdate(w.completes, i, v.completes[i], r);
    if w.completes[i].Offering? {
      RecordedPlaces(w.f, Seen(w), w.completes[i].value, w.completes[i].err, r);
    }
  }

  lemma CompleteFields(w: World, i: nat, v: World)
    requires FieldsOk(w) && WinnersOk(w) && Enabled(w, GoComplete(i)) && v == CompleteStep(w, i)
    ensures FieldsOk(v) && WinnersOk(v)
  {
    assert Winner(w.completes[i]) ==> !w.f.completed && w.f.finishing;
    hide InCompletes, InTakes, Busy, WinnersOk, Recorded, Unwanted, Seen, Add;
    var c := v.completes[i];
    if w.completes[i].Offering? {
      RecordedFields(w.f, Seen(w), w.completes[i].value, w.completes[i].err);
    }
    assert v.completes == w.completes[i := c];
    WinnersAfter(w, i, c, v);
  }

  lemma WinnersAfter(w: World, i: nat, c: Completing, v: World)
    requires WinnersOk(w) && i < |w.completes| && v.completes == w.completes[i := c]
    requires w.f.finishing ==> v.f.finishing
    requires Winner(c) ==> v.f.finishing && !v.f.completed && (Winner(w.completes[i]) || (!w.f.finishing && !w.f.completed))
    requires v.f.completed != w.f.completed ==> Winner(w.completes[i])
    ensures WinnersOk(v)
  {
    forall k: nat | k < |v.completes| && Winner(v.completes[k]) ensures v.f.finishing && !v.f.completed {
      assert k < i ==> !(Winner(w.completes[k]) && Winner(w.completes[i]));
    }
    forall k: nat, j: nat | k < j < |v.completes| ensures !(Winner(v.completes[k]) && Winner(v.completes[j])) {
      assert !(Winner(w.completes[k]) && Winner(w.completes[j]));
    }
  }

  /** Steps other than Complete's leave the winner alone. */
  lemma WinnersSame(w: World, v: World)
    requires WinnersOk(w) && v.completes == w.completes && v.f.finishing == w.f.finishing
    requires v.f.completed == w.f.completed || !w.f.finishing
    ensures WinnersOk(v)
  {
  }

  /** Take's section moves the stored resource at most once: to its caller or to be closed. */
  lemma TakenPlaces(w: World, late: bool, r: Res)
    ensures var f, g, t := w.f, Taken(w, late).0, Taken(w, late).1;
      && Is(g.value, r) + (if t.Closes? then Is(Some(t.discard), r) else 0) + (if t.Got? then Is(Some(t.res), r) else 0) == Is(f.value, r)
  {
  }

  /** What Take's section leaves alone. */
  ghost predicate Steady(f: Fields, g: Fields) {
    g.started == f.started && g.finishing == f.finishing && g.completed == f.completed && g.closed == f.closed && g.signals == f.signals
  }

  /** It counts the resource it closes, and neither closes nor transfers one of a closed operation. */
  ghost predicate Counted(f: Fields, g: Fields, t: TakeResult, later: Option<Error>) {
    && g.inflight == f.inflight + (if t.Closes? then 1 else 0)
    && (g.value == f.value || g.value.None?)
    && (t.Closes? || t.Got? ==> f.value.Some?) && (t.Closes? ==> f.closed || later.Some?)
  }

  /** It settles the hook's stop function or leaves it alone. */
  ghost predicate Attended(f: Fields, g: Fields, stops: bool) {
    (g.armed == f.armed && g.hookRunning == f.hookRunning) || (!g.armed && g.hookRunning == (f.hookRunning || (f.armed && !stops)))
  }

  lemma SettledFields(f: Fields, later: Option<Error>, stops: bool)
    requires f.value.Some?
    ensures var g, t := Settled(f, later, stops).0, Settled(f, later, stops).1;
      Steady(f, g) && Counted(f, g, t, later) && Attended(f, g, stops) && g.taken == f.taken
  {
    hide FirstError, AbandonError;
  }

  lemma TookFields(f: Fields, ctx: Option<Error>, later: Option<Error>, stops: bool)
    ensures var g, t := Took(f, ctx, later, stops).0, Took(f, ctx, later, stops).1;
      && Steady(f, g) && Counted(f, g, t, later) && Attended(f, g, stops)
      && (g.taken || g == f) && (t.Closes? || t.Got? ==> !f.closed)
  {
    hide FirstError, AbandonError, Settled;
    if f.value.Some? { SettledFields(f.(taken := true), later, stops); }
  }

  lemma TakenFields(w: World, late: bool)
    ensures var f, g, t := w.f, Taken(w, late).0, Taken(w, late).1;
      && Steady(f, g) && Counted(f, g, t, if late then Some(Canceled) else Seen(w)) && Attended(f, g, w.hook.Waiting?)
      && (g.taken || g == f) && (t.Closes? || t.Got? ==> !f.closed)
  {
    hide Took, Seen, Steady, Counted, Attended;
    TookFields(w.f, Seen(w), if late then Some(Canceled) else Seen(w), w.hook.Waiting?);
  }

  /** A Take call's section, field by field. */
  lemma AskedIs(w: World, i: nat, late: bool, v: World)
    requires i < |w.takes| && w.takes[i].Asking? && v == TakeStep(w, i, late)
    ensures v.f == Taken(w, late).0 && v.hook == (if w.f.armed && !v.f.armed then StopHook(w) else w.hook)
    ensures v.completes == w.completes && v.closing == w.closing && v.stored == w.stored && v.won == w.won && v.ctxDone == (w.ctxDone || late)
    ensures v.takes == w.takes[i := v.takes[i]] && (v.takes[i].TakeClosing? <==> Taken(w, late).1.Closes?)
  {
    hide Taken, StopHook, Add;
  }

  lemma TakeClosedIs(w: World, i: nat, late: bool, v: World)
    requires i < |w.takes| && !w.takes[i].Asking? && v == TakeStep(w, i, late)
    ensures v.f == (if w.takes[i].TakeClosing? then CloseDone(w.f) else w.f) && v.hook == w.hook
    ensures v.completes == w.completes && v.closing == w.closing && v.stored == w.stored && v.won == w.won
    ensures v.takes == w.takes[i := v.takes[i]] && !v.takes[i].TakeClosing? && v.ctxDone == (w.ctxDone || (w.takes[i].TakeCanceling? && w.f.started))
  {
    hide Add, Taken, StopHook, CloseDone;
  }

  lemma TakeConserves(w: World, i: nat, late: bool, v: World, r: Res)
    requires Conserved(w, r) && i < |w.takes| && v == TakeStep(w, i, late)
    ensures Conserved(v, r)
  {
    hide InCompletes, InTakes, Busy, Taken, Seen;
    TakesUpdate(w.takes, i, v.takes[i], r);
    TakenPlaces(w, late, r);
    if w.takes[i].Asking? {
      assert v.takes == w.takes[i := v.takes[i]];
    }
  }

  lemma TakeFields(w: World, i: nat, late: bool, v: World)
    requires FieldsOk(w) && Enabled(w, GoTake(i, late)) && v == TakeStep(w, i, late)
    ensures FieldsOk(v)
  {
    hide TakeStep, InTakes, Busy, Taken;
    if w.takes[i].Asking? { AskedIs(w, i, late, v); } else { TakeClosedIs(w, i, late, v); }
    TakesUpdate(w.takes, i, v.takes[i], 0);
    TakenFields(w, late);
  }

  lemma CloseConserves(w: World, v: World, r: Res)
    requires Conserved(w, r) && FieldsOk(w) && Enabled(w, GoClose) && v == CloseStep(w)
    ensures Conserved(v, r)
  {
    hide InCompletes, InTakes, Busy;
  }

  /** Close's section on an operation never started leaves it complete or about to be, and empty. */
  lemma CloseIdleFacts(f: Fields)
    ensures var g := CloseIdle(f);
      && g.started == f.started && g.finishing == f.finishing && g.closed == f.closed && g.armed == f.armed && g.hookRunning == f.hookRunning
      && g.value.None? && Late(g)
      && g.signals == f.signals + (if g.completed && !f.completed then 1 else 0) && (f.completed ==> g.completed)
      && g.inflight == f.inflight + (if f.value.Some? then 1 else 0)
      && (g.completed != f.completed ==> !f.finishing)
  {
  }

  /** Close's section after the worker is done leaves it empty and its hook stopped or running. */
  lemma CloseJoinedFacts(f: Fields, stops: bool)
    ensures var g := CloseJoined(f, stops);
      && g.started == f.started && g.finishing == f.finishing && g.closed == f.closed && g.completed == f.completed
      && g.value.None? && g.signals == f.signals && !g.armed
      && g.inflight == f.inflight + (if f.value.Some? then 1 else 0) && (g.hookRunning ==> f.hookRunning || f.armed)
  {
  }

  /** Close's next step, field by field. */
  lemma CloseIs(w: World, v: World)
    requires v == CloseStep(w)
    ensures v.f == ClosedFields(w) && v.closing == NextClosing(w) && v.completes == w.completes && v.takes == w.takes
    ensures v.hook == (if w.closing.Awaiting? then StopHook(w) else w.hook) && v.ctxDone == (w.ctxDone || w.closing == Marked(true))
  {
    hide ClosedFields, NextClosing, StopHook, Add;
  }

  lemma CloseFields(w: World, v: World)
    requires FieldsOk(w) && Enabled(w, GoClose) && v == CloseStep(w)
    ensures FieldsOk(v)
  {
    hide Busy, CloseStep, CloseIdle, CloseJoined;
    CloseIs(w, v);
    CloseIdleFacts(w.f);
    CloseJoinedFacts(w.f, w.hook.Waiting?);
  }

  lemma CloseWinners(w: World, v: World)
    requires WinnersOk(w) && v == CloseStep(w)
    ensures WinnersOk(v)
  {
    hide WinnersOk, CloseStep, CloseIdle, CloseJoined;
    CloseIs(w, v);
    CloseIdleFacts(w.f);
    CloseJoinedFacts(w.f, w.hook.Waiting?);
    WinnersSame(w, v);
  }

  lemma TakeWinners(w: World, i: nat, late: bool, v: World)
    requires WinnersOk(w) && i < |w.takes| && v == TakeStep(w, i, late)
    ensures WinnersOk(v)
  {
    hide WinnersOk, TakeStep, Taken;
    TakenFields(w, late);
    if w.takes[i].Asking? { AskedIs(w, i, late, v); } else { TakeClosedIs(w, i, late, v); }
    WinnersSame(w, v);
  }

  predicate Ambient(st: Step) {
    st.RunHook? || st.CancelHook? || st.EndHook? || st.Start? || st.CancelParent? || st.Propagate? || st.Fire?
  }

  lemma HookConserves(w: World, st: Step, v: World, r: Res)
    requires Conserved(w, r) && FieldsOk(w) && Enabled(w, st) && Ambient(st) && v == Apply(w, st)
    ensures Conserved(v, r) && FieldsOk(v)
  {
    hide InCompletes, InTakes, Busy, Seen, FirstError, AbandonError, CompleteStep, TakeStep, CloseStep;
  }

  lemma CallConserves(w: World, st: Step, v: World, r: Res)
    requires Conserved(w, r) && FieldsOk(w) && Enabled(w, st) && (st.CallComplete? || st.CallTake?) && v == Apply(w, st)
    ensures Conserved(v, r) && FieldsOk(v)
  {
    hide InCompletes, InTakes, Busy;
    if st.CallComplete? {
      CompletesAppend(w.completes, Offering(st.value, st.err), r);
      assert v.completes == w.completes + [Offering(st.value, st.err)] && v.takes == w.takes;
    } else {
      TakesAppend(w.takes, r);
      assert v.takes == w.takes + [Asking] && v.completes == w.completes;
    }
  }

  lemma CompletesAppend(cs: seq<Completing>, c: Completing, r: Res)
    ensures InCompletes(cs + [c], r) == InCompletes(cs, r) + Is(OfComplete(c), r)
  {
    assert (cs + [c])[..|cs|] == cs;
  }

  lemma TakesAppend(ts: seq<Taking>, r: Res)
    ensures InTakes(ts + [Asking], r) == InTakes(ts, r) && Busy(ts + [Asking]) == Busy(ts)
  {
    assert (ts + [Asking])[..|ts|] == ts;
  }

  lemma CallWinners(w: World, st: Step, v: World)
    requires WinnersOk(w) && (st.CallComplete? || st.CallTake?) && Enabled(w, st) && v == Apply(w, st)
    ensures WinnersOk(v)
  {
  }

  lemma StepConserves(w: World, st: Step, v: World, r: Res)
    requires Conserved(w, r) && FieldsOk(w) && WinnersOk(w) && Enabled(w, st) && v == Apply(w, st)
    ensures Conserved(v, r) && FieldsOk(v)
  {
    hide Conserved, FieldsOk, WinnersOk, CompleteStep, TakeStep, CloseStep;
    match st {
      case GoComplete(i) => CompleteConserves(w, i, v, r); CompleteFields(w, i, v);
      case GoTake(i, late) => TakeConserves(w, i, late, v, r); TakeFields(w, i, late, v);
      case GoClose => CloseConserves(w, v, r); CloseFields(w, v);
      case CallComplete(_, _) => CallConserves(w, st, v, r);
      case CallTake => CallConserves(w, st, v, r);
      case _ => HookConserves(w, st, v, r);
    }
  }

  lemma HookWinners(w: World, st: Step, v: World)
    requires WinnersOk(w) && Enabled(w, st) && Ambient(st) && v == Apply(w, st)
    ensures WinnersOk(v)
  {
    hide WinnersOk, Add;
    WinnersSame(w, v);
  }

  lemma StepWinners(w: World, st: Step, v: World)
    requires FieldsOk(w) && WinnersOk(w) && Enabled(w, st) && v == Apply(w, st)
    ensures WinnersOk(v)
  {
    hide FieldsOk, WinnersOk, CompleteStep, TakeStep, CloseStep;
    match st {
      case GoComplete(i) => CompleteFields(w, i, v);
      case CallComplete(_, _) => CallWinners(w, st, v);
      case CallTake => CallWinners(w, st, v);
      case GoTake(i, late) => TakeWinners(w, i, late, v);
      case GoClose => CloseWinners(w, v);
      case _ => HookWinners(w, st, v);
    }
  }

  lemma StepKeeps(w: World, st: Step)
    requires Inv(w) && Enabled(w, st)
    ensures Inv(Apply(w, st))
  {
    hide FieldsOk, WinnersOk, Conserved, Enabled, Apply;
    var v := Apply(w, st);
    forall r ensures Conserved(v, r) { StepConserves(w, st, v, r); }
    StepConserves(w, st, v, 0);
    StepWinners(w, st, v);
  }

  lemma {:induction false} RunKeeps(w: World, steps: seq<Step>)
    requires Inv(w) && Runs(w, steps)
    ensures Inv(Exec(w, steps))
    decreases |steps|
  {
    if steps != [] {
      StepKeeps(w, steps[0]);
      hide Inv, Apply, Enabled;
      RunKeeps(Apply(w, steps[0]), steps[1..]);
    }
  }

  // ---------------------------------------------------------------- what it gives

  ghost predicate Reached(w: World) {
    exists steps :: Runs(FRESH, steps) && Exec(FRESH, steps) == w
  }

  lemma ReachedOk(w: World)
    requires Reached(w)
    ensures Inv(w)
  {
    var steps :| Runs(FRESH, steps) && Exec(FRESH, steps) == w;
    FreshOk();
    hide Inv;
    RunKeeps(FRESH, steps);
  }

  lemma FreshOk()
    ensures Inv(FRESH)
  {
  }

  /** No resource is both transferred and closed, closed twice or transferred twice. */
  lemma AtMostOneOwner(w: World, r: Res)
    requires Reached(w)
    ensures w.closed[r] + w.transferred[r] <= w.given[r] <= 1
  {
    ReachedOk(w);
    assert Conserved(w, r);
  }

  /** Once every Complete and the Close have returned, each resource given was closed or transferred, once. */
  lemma ExactlyOneOwner(w: World, r: Res)
    requires Reached(w) && w.closing.CloseReturned? && r in w.given
    requires forall i :: 0 <= i < |w.completes| ==> w.completes[i].CompleteReturned?
    ensures w.closed[r] + w.transferred[r] == 1
  {
    ReachedOk(w);
    NoneInCompletes(w.completes, r);
    NotBusy(w.takes, r);
    assert Conserved(w, r);
  }

  lemma {:induction false} NoneInCompletes(cs: seq<Completing>, r: Res)
    requires forall i :: 0 <= i < |cs| ==> cs[i].CompleteReturned?
    ensures InCompletes(cs, r) == 0
  {
    if cs != [] { NoneInCompletes(cs[..|cs| - 1], r); }
  }

  /** The signal channels are closed at most once, and exactly when the operation is complete. */
  lemma SignalledOnce(w: World)
    requires Reached(w)
    ensures w.f.signals == if w.f.completed then 1 else 0
  {
    ReachedOk(w);
  }

  lemma QuietStep(w: World, st: Step)
    requires Inv(w) && w.closing.CloseReturned? && Enabled(w, st)
    ensures Apply(w, st).closing.CloseReturned? && Apply(w, st).transferred == w.transferred
  {
    hide WinnersOk, Conserved, InCompletes, InTakes, Busy, Add;
  }

  /** Nothing is transferred once Close has returned, and nothing is stored any more. */
  lemma {:induction false} QuietAfterClose(w: World, steps: seq<Step>)
    requires Inv(w) && w.closing.CloseReturned? && Runs(w, steps)
    ensures Exec(w, steps).f.value.None? && Exec(w, steps).transferred == w.transferred
    decreases |steps|
  {
    if steps != [] {
      StepKeeps(w, steps[0]);
      QuietStep(w, steps[0]);
      hide Inv, Apply, Enabled;
      QuietAfterClose(Apply(w, steps[0]), steps[1..]);
    }
  }

  // ---------------------------------------------------------------- what Take reports

  /**
   * Why an operation holds nothing. One that never stored a resource has an error once it is decided; one
   * that did gets an error only from a Take, or once it was started; one that says nothing was taken, or
   * closed without ever being started.
   */
  ghost predicate ErrorOk(w: World) {
    var f := w.f;
    && (Late(f) && f.value.None? && f.err.None? ==> f.taken || (Swept(w.closing) && !f.started))
    && (w.stored ==> f.finishing)
    && (Late(f) && !w.stored ==> f.err.Some?)
    && (w.stored && !f.started && !f.taken ==> f.err.None?)
    && (f.value.Some? ==> f.err.None? || f.taken)
  }

  /** The fields know as much of the hook as it shows. */
  ghost predicate HookOk(w: World) {
    match w.hook
    case Uninstalled => !w.f.armed && !w.f.hookRunning
    case Waiting => w.f.armed && !w.f.hookRunning
    case Stopped => !w.f.armed && !w.f.hookRunning
    case Fired => w.f.armed || w.f.hookRunning
    case HookCanceling(_) => w.f.hookRunning
    case HookClosing(_) => w.f.hookRunning
    case HookReturned => w.f.hookRunning
  }

  /** What Complete's first section stores, and why not. */
  lemma RecordedError(f: Fields, ctx: Option<Error>, value: Option<Res>, err: Option<Error>)
    ensures var g := Recorded(f, ctx, value, err);
      && g == f.(finishing := g.finishing, value := g.value, err := g.err)
      && (if Late(f) then g == f else g.finishing && (g.value.Some? <==> g.err.None?))
  {
    hide CompleteError;
  }

  /** A Complete call's step, field by field. */
  lemma CompleteIs(w: World, i: nat, v: World)
    requires i < |w.completes| && v == CompleteStep(w, i)
    ensures v.hook == w.hook && v.closing == w.closing
    ensures w.completes[i].Offering? ==>
      && v.f == Recorded(w.f, Seen(w), w.completes[i].value, w.completes[i].err)
      && v.stored == (w.stored || (!Late(w.f) && v.f.value.Some?))
      && v.won == if Late(w.f) then w.won else Some(Won(w.completes[i].value, w.completes[i].err, Seen(w), w.f.closed))
    ensures !w.completes[i].Offering? ==> v.stored == w.stored && v.won == w.won && v.f == if w.completes[i].Finishing? then Finished(w.f) else w.f
  {
    hide Recorded, Unwanted, Add, Seen, Finished;
  }

  lemma ErrorCompletes(w: World, i: nat)
    requires ErrorOk(w) && HookOk(w) && i < |w.completes| && (w.completes[i].Finishing? ==> w.f.finishing)
    ensures ErrorOk(CompleteStep(w, i)) && HookOk(CompleteStep(w, i))
  {
    hide CompleteStep, Recorded, Seen;
    CompleteIs(w, i, CompleteStep(w, i));
    if w.completes[i].Offering? { RecordedError(w.f, Seen(w), w.completes[i].value, w.completes[i].err); }
  }

  lemma ErrorTakes(w: World, i: nat, late: bool)
    requires ErrorOk(w) && i < |w.takes|
    ensures ErrorOk(TakeStep(w, i, late))
  {
    hide TakeStep, Taken;
    var v := TakeStep(w, i, late);
    if w.takes[i].Asking? {
      AskedIs(w, i, late, v);
      TakenFields(w, late);
      TakenStored(w, late);
    } else {
      TakeClosedIs(w, i, late, v);
    }
  }

  /** Take clears no error. */
  lemma TakenStored(w: World, late: bool)
    ensures w.f.err.Some? ==> Taken(w, late).0.err.Some?
  {
    hide Seen;
  }

  lemma HookTakes(w: World, i: nat, late: bool)
    requires HookOk(w) && i < |w.takes|
    ensures HookOk(TakeStep(w, i, late))
  {
    hide TakeStep, Taken;
    var v := TakeStep(w, i, late);
    if w.takes[i].Asking? { AskedIs(w, i, late, v); TakenFields(w, late); } else { TakeClosedIs(w, i, late, v); }
  }

  lemma ErrorCloses(w: World)
    requires ErrorOk(w) && HookOk(w) && FieldsOk(w)
    ensures ErrorOk(CloseStep(w)) && HookOk(CloseStep(w))
  {
    hide Add, Busy;
  }

  lemma ErrorAmbient(w: World, st: Step)
    requires ErrorOk(w) && HookOk(w) && FieldsOk(w) && Enabled(w, st) && !st.GoComplete? && !st.GoTake? && !st.GoClose?
    ensures ErrorOk(Apply(w, st)) && HookOk(Apply(w, st))
  {
    hide Add, Busy, Seen, CompleteStep, TakeStep, CloseStep;
  }

  lemma ErrorStep(w: World, st: Step)
    requires ErrorOk(w) && HookOk(w) && Inv(w) && Enabled(w, st)
    ensures ErrorOk(Apply(w, st)) && HookOk(Apply(w, st))
  {
    hide CompleteStep, TakeStep, CloseStep, FieldsOk, Conserved, ErrorOk, HookOk;
    match st {
      case GoComplete(i) =>
        assert w.completes[i].Finishing? ==> Winner(w.completes[i]);
        ErrorCompletes(w, i);
      case GoTake(i, late) => ErrorTakes(w, i, late); HookTakes(w, i, late);
      case GoClose => ErrorCloses(w);
      case _ => ErrorAmbient(w, st);
    }
  }

  lemma {:induction false} ErrorRuns(w: World, steps: seq<Step>)
    requires ErrorOk(w) && HookOk(w) && Inv(w) && Runs(w, steps)
    ensures ErrorOk(Exec(w, steps)) && HookOk(Exec(w, steps))
    decreases |steps|
  {
    if steps != [] {
      StepKeeps(w, steps[0]);
      ErrorStep(w, steps[0]);
      hide Inv, Apply, Enabled, ErrorOk, HookOk;
      ErrorRuns(Apply(w, steps[0]), steps[1..]);
    }
  }

  lemma ReportOk(w: World)
    requires Reached(w)
    ensures FieldsOk(w) && ErrorOk(w) && HookOk(w)
  {
    ReachedOk(w);
    var steps :| Runs(FRESH, steps) && Exec(FRESH, steps) == w;
    FreshOk();
    assert ErrorOk(FRESH) && HookOk(FRESH);
    hide Inv, ErrorOk, HookOk;
    ErrorRuns(FRESH, steps);
  }

  /**
   * The first Take of a complete operation says why it has no resource, except in one case: the Complete
   * that won stored a resource, and Close took it away although nobody had started the operation.
   */
  lemma SilentTake(w: World, late: bool)
    requires Reached(w) && w.f.completed && !w.f.taken
    ensures Taken(w, late).1 == Ready(None) <==> w.stored && Swept(w.closing) && !w.f.started
  {
    ReportOk(w);
    hide Reached, Busy, HookOk, Seen, FirstError, AbandonError;
  }

  /**
   * A resource is transferred exactly by the first Take of a complete operation that holds one, neither
   * closed nor canceled before or during the call, and whose cancellation hook has not begun.
   */
  lemma TransferIff(w: World, late: bool)
    requires Reached(w)
    ensures Taken(w, late).1.Got? <==>
      && w.f.completed && !w.f.taken && w.f.value.Some? && !w.f.closed && Seen(w).None? && !late
      && (w.hook.Uninstalled? || w.hook.Waiting? || w.hook.Stopped?)
  {
    ReportOk(w);
    hide Reached, Busy, Seen, FirstError, AbandonError;
  }

  // A resource is stored and closed, nobody starts the operation, and Take reports nothing at all.

  lemma {:induction false} RunsOn(w: World, steps: seq<Step>, st: Step)
    requires Runs(w, steps) && Enabled(Exec(w, steps), st)
    ensures Runs(w, steps + [st]) && Exec(w, steps + [st]) == Apply(Exec(w, steps), st)
    decreases |steps|
  {
    hide Enabled, Apply;
    var more := steps + [st];
    if steps == [] {
      assert more == [st] && more[1..] == [];
      assert Runs(Apply(w, st), []) && Exec(Apply(w, st), []) == Apply(w, st);
    } else {
      assert more[0] == steps[0] && more[1..] == steps[1..] + [st];
      RunsOn(Apply(w, steps[0]), steps[1..], st);
    }
  }

  lemma ReachedNext(w: World, st: Step) returns (v: World)
    requires Reached(w) && Enabled(w, st)
    ensures Reached(v) && v == Apply(w, st)
  {
    v := Apply(w, st);
    var steps :| Runs(FRESH, steps) && Exec(FRESH, steps) == w;
    RunsOn(FRESH, steps, st);
    hide Enabled, Apply;
  }

  /** The one call of Complete stores `r` and returns. */
  lemma StoredReached(r: Res) returns (w: World)
    ensures Reached(w) && w.stored && w.f == IDLE.(finishing := true, completed := true, value := Some(r), signals := 1)
    ensures w.closing == NotClosing && w.takes == [] && w.hook == Uninstalled && w.given[r] == 1
  {
    assert Runs(FRESH, []) && Exec(FRESH, []) == FRESH && Reached(FRESH);
    hide Reached, TakeStep, CloseStep;
    w := ReachedNext(FRESH, CallComplete(Some(r), None));
    assert w.completes == [Offering(Some(r), None)] && w.f == IDLE;
    w := ReachedNext(w, GoComplete(0));
    assert w.completes == [Discarding(None)] && w.f == IDLE.(finishing := true, value := Some(r));
    w := ReachedNext(w, GoComplete(0));
    assert w.completes == [Finishing];
    w := ReachedNext(w, GoComplete(0));
  }

  /** Close, of an operation that nobody started, takes the stored resource away. */
  lemma StoredClosed(r: Res) returns (w: World)
    ensures Reached(w) && w.stored && w.closing == CloseReturned && w.takes == [] && w.given[r] == 1
    ensures w.f == IDLE.(finishing := true, completed := true, closed := true, signals := 1)
  {
    w := StoredReached(r);
    hide Reached, Add;
    w := ReachedNext(w, GoClose);
    assert w.closing == Marked(false);
    w := ReachedNext(w, GoClose);
    assert w.closing == ClosingLeftover(Some(r), false) && w.f.value.None?;
    w := ReachedNext(w, GoClose);
  }

  lemma SilentTakeHappens(r: Res) returns (w: World)
    ensures Reached(w) && w.given[r] == 1 && w.stored && w.closing == CloseReturned && !w.f.started
    ensures w.takes == [TakeReturned(Ready(None))]
  {
    w := StoredClosed(r);
    hide Reached, CloseStep, CompleteStep, Add;
    w := ReachedNext(w, CallTake);
    w := ReachedNext(w, GoTake(0, false));
  }

  /** After a Take that was ready, every later one reports that, whatever happened between. */
  lemma {:induction false} TakenStaysTaken(w: World, steps: seq<Step>, late: bool)
    requires Spent(w.f) && Runs(w, steps)
    ensures Taken(Exec(w, steps), late) == (Exec(w, steps).f, Ready(Some(AlreadyTaken)))
    decreases |steps|
  {
    if steps != [] {
      SpentStep(w, steps[0]);
      hide Apply, Enabled, Spent;
      TakenStaysTaken(Apply(w, steps[0]), steps[1..], late);
    }
  }

  predicate Spent(f: Fields) {
    f.completed && f.taken
  }

  lemma CompleteSpent(w: World, i: nat)
    requires Spent(w.f) && i < |w.completes|
    ensures Spent(CompleteStep(w, i).f)
  {
    hide Add, Unwanted;
  }

  lemma TakeSpent(w: World, i: nat, late: bool)
    requires Spent(w.f) && i < |w.takes|
    ensures Spent(TakeStep(w, i, late).f)
  {
    hide Add, StopHook, Seen;
  }

  lemma CloseSpent(w: World)
    requires Spent(w.f)
    ensures Spent(CloseStep(w).f)
  {
    hide Add, StopHook, NextClosing;
  }

  lemma SpentStep(w: World, st: Step)
    requires Spent(w.f) && Enabled(w, st)
    ensures Spent(Apply(w, st).f)
  {
    hide CompleteStep, TakeStep, CloseStep, Add, Seen;
    match st {
      case GoComplete(i) => CompleteSpent(w, i);
      case GoTake(i, late) => TakeSpent(w, i, late);
      case GoClose => CloseSpent(w);
      case _ =>
    }
  }

  /** A resource Complete rejects is closed before the operation becomes ready. */
  lemma ClosedBeforeReady(w: World, i: nat)
    requires Reached(w) && i < |w.completes| && w.completes[i].Discarding?
    ensures !w.f.completed && w.f.signals == 0
  {
    ReachedOk(w);
    assert Winner(w.completes[i]);
  }
}
