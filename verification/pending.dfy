/**
 * A one-shot future for a deferred socket start (api/socket/pending.go). The functions here are what each
 * section under the operation's mutex does to its fields; the class does the same in place, and the
 * transition system of PendingRuns lets any number of calls, the cancellation hook and the context
 * interleave between sections.
 */
module PendingOperations {
  import opened Options

  /** A resource handle, and why an operation has none. */
  type Res = nat
  datatype Error = NoResult | OperationClosed | Canceled | AlreadyTaken | Failure(code: nat)

  /**
   * The fields the mutex guards. `armed` says that the stop function of the hook is still there, and
   * `signals` counts how often the two channels were closed.
   */
  datatype Fields = Fields(
    started: bool,
    finishing: bool,
    completed: bool,
    taken: bool,
    closed: bool,
    hookRunning: bool,
    armed: bool,
    value: Option<Res>,
    err: Option<Error>,
    inflight: int,
    signals: nat)

  const IDLE: Fields := Fields(false, false, false, false, false, false, false, None, None, 0, 0)

  function FirstError(a: Option<Error>, b: Error): Option<Error> {
    if a.Some? then a else Some(b)
  }

  function Started(f: Fields): Fields {
    if f.closed || f.started then f else f.(started := true, armed := true)
  }

  /** completeErr */
  function CompleteError(ctx: Option<Error>, err: Option<Error>, closed: bool): Error {
    if err.Some? then err.value else if ctx.Some? then ctx.value else if closed then OperationClosed else Canceled
  }

  predicate Late(f: Fields) {
    f.completed || f.finishing
  }

  /** Complete's first section: the one that wins stores its result, or keeps why not. */
  function Recorded(f: Fields, ctx: Option<Error>, value: Option<Res>, err: Option<Error>): Fields {
    if Late(f) then f
    else if f.closed || ctx.Some? then f.(finishing := true, value := None, err := Some(CompleteError(ctx, err, f.closed)))
    else if err.Some? then f.(finishing := true, value := None, err := err)
    else if value.None? then f.(finishing := true, value := None, err := Some(NoResult))
    else f.(finishing := true, value := value, err := None)
  }

  /** The resource Complete must close itself. */
  function Unwanted(f: Fields, ctx: Option<Error>, value: Option<Res>, err: Option<Error>): Option<Res> {
    if Late(f) || f.closed || ctx.Some? || err.Some? then value else None
  }

  /** Complete's second section. */
  function Finished(f: Fields): Fields {
    f.(completed := true, signals := f.signals + 1)
  }

  /** takeForCloseLocked */
  function Withdrawn(f: Fields): Fields {
    f.(value := None, inflight := Charged(f))
  }

  /** detachHookLocked, where `stops` is the stop function's answer. */
  function Detached(f: Fields, stops: bool): Fields {
    f.(armed := false, hookRunning := f.hookRunning || (f.armed && !stops))
  }

  /** abandonErrLocked */
  function AbandonError(closed: bool, ctx: Option<Error>): Error {
    if ctx.Some? then ctx.value else if closed then OperationClosed else Canceled
  }

  datatype TakeResult =
    | NotReady
    | Ready(err: Option<Error>)
    | Closes(discard: Res, err: Option<Error>)
    | Got(res: Res)

  /** Take's section once it is the first and finds a resource: the hook is detached, and the context looked at again. */
  function Settled(t: Fields, later: Option<Error>, stops: bool): (Fields, TakeResult)
    requires t.value.Some?
  {
    var d := Detached(t, stops);
    var e := FirstError(t.err, AbandonError(t.closed, later));
    if d.hookRunning then (d.(err := e), Ready(e))
    else if t.closed || later.Some? then (Withdrawn(d.(err := e)), Closes(t.value.value, e))
    else (d.(value := None), Got(t.value.value))
  }

  /** Take's section; the context may end between its first look (`ctx`) and its second (`later`). */
  function Took(f: Fields, ctx: Option<Error>, later: Option<Error>, stops: bool): (Fields, TakeResult) {
    if !f.completed then (f, NotReady)
    else if f.taken then (f, Ready(Some(AlreadyTaken)))
    else if f.value.None? || f.err.Some? then (f.(taken := true), Ready(f.err))
    else if f.closed || ctx.Some? then
      var e := FirstError(f.err, AbandonError(f.closed, ctx));
      (f.(taken := true, err := e), Ready(e))
    else Settled(f.(taken := true), later, stops)
  }

  function CloseMarked(f: Fields): Fields {
    f.(closed := true)
  }

  function Charged(f: Fields): int {
    if f.value.Some? then f.inflight + 1 else f.inflight
  }

  /** Close's second section when nothing was started. */
  function CloseIdle(f: Fields): Fields {
    f.(completed := f.completed || !f.finishing,
       err := if Late(f) then f.err else FirstError(f.err, OperationClosed),
       signals := if Late(f) then f.signals else f.signals + 1,
       value := None, inflight := Charged(f))
  }

  /** Close's second section after the worker is done. */
  function CloseJoined(f: Fields, stops: bool): Fields {
    f.(value := None, inflight := Charged(f), armed := false, hookRunning := f.hookRunning || (f.armed && !stops),
       err := if f.value.Some? then FirstError(f.err, OperationClosed) else f.err)
  }

  /** The cancellation hook's section. */
  function HookRan(f: Fields, ctx: Option<Error>): Fields {
    f.(hookRunning := true, value := None, inflight := Charged(f),
       err := if f.value.Some? then FirstError(f.err, AbandonError(f.closed, ctx)) else f.err)
  }

  function CloseDone(f: Fields): Fields {
    f.(inflight := f.inflight - 1)
  }

  /** The operation itself: each method is one section under the mutex. */
  class PendingOperation {
    var started: bool
    var finishing: bool
    var completed: bool
    var taken: bool
    var closed: bool
    var hookRunning: bool
    var armed: bool
    var value: Option<Res>
    var err: Option<Error>
    var inflight: int
    ghost var signals: nat

    ghost function View(): Fields
      reads this
    {
      Fields(started, finishing, completed, taken, closed, hookRunning, armed, value, err, inflight, signals)
    }

    constructor ()
      ensures View() == IDLE
    {
      started, finishing, completed, taken, closed, hookRunning, armed := false, false, false, false, false, false, false;
      value, err, inflight, signals := None, None, 0, 0;
    }

    method Start() returns (ok: bool)
      modifies this
      ensures View() == Started(old(View())) && (ok <==> !old(closed) && !old(started))
    {
      if closed || started { return false; }
      started, armed := true, true;
      ok := true;
    }

    method Record(ctx: Option<Error>, result: Option<Res>, failure: Option<Error>) returns (won: bool, discard: Option<Res>)
      modifies this
      ensures View() == Recorded(old(View()), ctx, result, failure)
      ensures won == !Late(old(View())) && discard == Unwanted(old(View()), ctx, result, failure)
      ensures !won ==> View() == old(View()) && discard == result
      ensures won && failure.Some? ==> err == failure && value.None? && discard == result
      ensures won && failure.None? && ctx.Some? ==> err == ctx && value.None? && discard == result
      ensures won && failure.None? && ctx.None? && closed ==> err == Some(OperationClosed) && value.None? && discard == result
      ensures won && failure.None? && ctx.None? && !closed ==>
        err == (if result.Some? then None else Some(NoResult)) && value == result && discard.None?
      ensures won ==> finishing && !completed && closed == old(closed) && taken == old(taken) && started == old(started)
    {
      if completed || finishing { return false, result; }
      finishing := true;
      won, discard := true, result;
      if closed || ctx.Some? {
        value, err := None, Some(CompleteError(ctx, failure, closed));
      } else if failure.Some? {
        value, err := None, failure;
      } else if result.None? {
        value, err, discard := None, Some(NoResult), None;
      } else {
        value, err, discard := result, None, None;
      }
    }

    method TakeForClose() returns (leftover: Option<Res>)
      modifies `value, `inflight
      ensures View() == Withdrawn(old(View())) && leftover == old(value)
    {
      leftover, value := value, None;
      if leftover.Some? { inflight := inflight + 1; }
    }

    method DetachHook(stops: bool) returns (running: bool)
      modifies `armed, `hookRunning
      ensures View() == Detached(old(View()), stops) && running == hookRunning
    {
      if armed {
        if !stops { hookRunning := true; }
        armed := false;
      }
      running := hookRunning;
    }

    method Take(ctx: Option<Error>, later: Option<Error>, stops: bool) returns (r: TakeResult)
      modifies this
      ensures (View(), r) == Took(old(View()), ctx, later, stops)
    {
      if !completed { return NotReady; }
      if taken { return Ready(Some(AlreadyTaken)); }
      taken := true;
      var result := value;
      if result.None? || err.Some? { return Ready(err); }
      if closed || ctx.Some? {
        err := FirstError(err, AbandonError(closed, ctx));
        return Ready(err);
      }
      var running := DetachHook(stops);
      if running || closed || later.Some? {
        err := FirstError(err, AbandonError(closed, later));
        if running { return Ready(err); }
        var discard := TakeForClose();
        return Closes(result.value, err);
      }
      value := None;
      r := Got(result.value);
    }

    method CloseUnstarted() returns (leftover: Option<Res>)
      modifies this
      ensures View() == CloseIdle(old(View())) && leftover == old(value)
    {
      if !completed && !finishing {
        completed := true;
        err := FirstError(err, OperationClosed);
        signals := signals + 1;
      }
      leftover := TakeForClose();
    }

    method CloseStarted(stops: bool) returns (leftover: Option<Res>, running: bool)
      modifies this
      ensures View() == CloseJoined(old(View()), stops) && leftover == old(value) && running == hookRunning
    {
      leftover := TakeForClose();
      if leftover.Some? { err := FirstError(err, OperationClosed); }
      running := DetachHook(stops);
    }

    method OnParentCancel(ctx: Option<Error>) returns (leftover: Option<Res>)
      modifies this
      ensures View() == HookRan(old(View()), ctx) && leftover == old(value)
    {
      hookRunning := true;
      leftover := TakeForClose();
      if leftover.Some? { err := FirstError(err, AbandonError(closed, ctx)); }
    }
  }
}
