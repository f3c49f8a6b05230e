/**
 * The end chain of one node: every session ever created for it, which ends are signalled and when
 * readers may deliver (cluster/internode/session.go, manager.go). Steps are the lock-held sections
 * and the three parts of an end signal (hook, closing `settled`, tail cleanup), in any interleaving.
 */
module SessionChain {
  import opened Options

  /** A session, identified by its position in creation order. */
  datatype Sess = Sess(
    owner: Option<nat>,       // the node state it belongs to; none for a departure without state
    predecessor: Option<nat>, // the session whose settling it waits for
    ended: bool,
    reading: bool,
    settling: bool,
    hooked: bool,             // the end hook has run
    settled: bool)

  /** A node state: the session it holds, and whether its removal has ended that session. */
  datatype State = State(sess: nat, closed: bool)

  /** What the application observes. */
  datatype Event = Signaled(sess: nat) | Delivered(sess: nat)

  datatype Chain = Chain(
    sessions: seq<Sess>,
    states: seq<State>,
    attached: Option<nat>,
    tail: Option<nat>,
    stopped: bool,
    log: seq<Event>)

  const EMPTY: Chain := Chain([], [], None, None, false, [])

  datatype Step =
    | CreateState
    | Replace                 // peer restart, peer reset or protocol error on the attached state
    | Detach
    | CloseDetached(state: nat)
    | Depart                  // departure of a node without state
    | BeginRead(sess: nat)
    | Deliver(sess: nat)
    | EndRead(sess: nat)
    | Hook(sess: nat)
    | CloseSettled(sess: nat)
    | Clean(sess: nat)
    | StopSettling

  predicate IsSess(c: Chain, i: nat) {
    i < |c.sessions|
  }

  /** chainSessionLocked: the new session follows the tail. */
  function Open(c: Chain, owner: Option<nat>, over: bool): Chain {
    c.(sessions := c.sessions + [Sess(owner, c.tail, over, false, over, false, false)], tail := Some(|c.sessions|))
  }

  /** awaitPredecessor and settle both wait for this. */
  predicate Released(c: Chain, i: nat)
    requires IsSess(c, i)
  {
    match c.sessions[i].predecessor
    case None => true
    case Some(p) => IsSess(c, p) && c.sessions[p].settled
  }

  function EndSess(s: Sess): Sess {
    s.(ended := true, settling := !s.reading)
  }

  predicate Enabled(c: Chain, st: Step) {
    match st
    case CreateState => c.attached.None?
    case Replace => c.attached.Some? && c.attached.value < |c.states| && IsSess(c, c.states[c.attached.value].sess)
    case Detach => c.attached.Some?
    case CloseDetached(a) => a < |c.states| && c.attached != Some(a) && !c.states[a].closed && IsSess(c, c.states[a].sess)
    case Depart => c.attached.None?
    case BeginRead(i) => IsSess(c, i) && Released(c, i) && !c.sessions[i].ended && !c.sessions[i].reading
    case Deliver(i) => IsSess(c, i) && c.sessions[i].reading
    case EndRead(i) => IsSess(c, i) && c.sessions[i].reading
    case Hook(i) => IsSess(c, i) && c.sessions[i].settling && !c.sessions[i].hooked && Released(c, i) && !c.stopped
    case CloseSettled(i) => IsSess(c, i) && c.sessions[i].hooked && !c.sessions[i].settled
    case Clean(i) => IsSess(c, i) && c.sessions[i].settled
    // the settle lock: no signal is under way
    case StopSettling => forall i :: 0 <= i < |c.sessions| ==> c.sessions[i].hooked ==> c.sessions[i].settled
  }

  function Apply(c: Chain, st: Step): Chain
    requires Enabled(c, st)
  {
    match st
    case CreateState =>
      Open(c, Some(|c.states|), false).(states := c.states + [State(|c.sessions|, false)], attached := Some(|c.states|))
    case Replace =>
      var a := c.attached.value;
      var i := c.states[a].sess;
      Open(c.(sessions := c.sessions[i := EndSess(c.sessions[i])]), Some(a), false)
        .(states := c.states[a := State(|c.sessions|, false)])
    case Detach => c.(attached := None)
    case CloseDetached(a) =>
      var i := c.states[a].sess;
      c.(sessions := c.sessions[i := EndSess(c.sessions[i])], states := c.states[a := c.states[a].(closed := true)])
    case Depart => Open(c, None, true)
    case BeginRead(i) => c.(sessions := c.sessions[i := c.sessions[i].(reading := true)])
    case Deliver(i) => c.(log := c.log + [Delivered(i)])
    case EndRead(i) =>
      var s := c.sessions[i];
      c.(sessions := c.sessions[i := s.(reading := false, settling := s.settling || s.ended)])
    case Hook(i) => c.(sessions := c.sessions[i := c.sessions[i].(hooked := true)], log := c.log + [Signaled(i)])
    case CloseSettled(i) => c.(sessions := c.sessions[i := c.sessions[i].(settled := true)])
    case Clean(i) => if c.tail == Some(i) then c.(tail := None) else c
    case StopSettling => c.(stopped := true)
  }

  predicate Runs(c: Chain, steps: seq<Step>)
    decreases |steps|
  {
    steps != [] ==> Enabled(c, steps[0]) && Runs(Apply(c, steps[0]), steps[1..])
  }

  function Exec(c: Chain, steps: seq<Step>): Chain
    requires Runs(c, steps)
    decreases |steps|
  {
    if steps == [] then c else Exec(Apply(c, steps[0]), steps[1..])
  }

  // ---------------------------------------------------------------- invariant

  /** End signals in a log. */
  function Signals(log: seq<Event>): nat {
    if log == [] then 0 else Signals(log[..|log| - 1]) + (if log[|log| - 1].Signaled? then 1 else 0)
  }

  /**
   * Every event belongs to the session whose number is the count of signals so far: signals come
   * in creation order, once each, and a session delivers only between its predecessor's signal
   * and its own.
   */
  ghost predicate Fenced(log: seq<Event>) {
    forall p :: 0 <= p < |log| ==> log[p].sess == Signals(log[..p])
  }

  ghost predicate AllSettled(c: Chain, n: nat) {
    n <= |c.sessions| && forall j :: 0 <= j < n ==> c.sessions[j].settled
  }

  ghost predicate SessOk(c: Chain, i: nat)
    requires IsSess(c, i)
  {
    var s := c.sessions[i];
    && (s.settled ==> s.hooked)
    && (s.hooked ==> s.settling && AllSettled(c, i))
    && (s.settling ==> s.ended && !s.reading)
    && (s.ended ==> s.reading || s.settling)
    && (s.reading ==> AllSettled(c, i))
    && (s.predecessor.None? ==> AllSettled(c, i))
    && (s.predecessor.Some? ==> s.predecessor.value + 1 == i)
    && (s.hooked <==> i < Signals(c.log))
    && (!s.ended ==> s.owner.Some? && s.owner.value < |c.states| && c.states[s.owner.value] == State(i, false))
  }

  ghost predicate StateOk(c: Chain, a: nat)
    requires a < |c.states|
  {
    !c.states[a].closed ==> IsSess(c, c.states[a].sess) && !c.sessions[c.states[a].sess].ended && c.sessions[c.states[a].sess].owner == Some(a)
  }

  ghost predicate Inv(c: Chain) {
    && (forall i: nat :: IsSess(c, i) ==> SessOk(c, i))
    && (forall a: nat :: a < |c.states| ==> StateOk(c, a))
    && (c.attached.Some? ==> c.attached.value < |c.states| && !c.states[c.attached.value].closed
                             && c.states[c.attached.value].sess + 1 == |c.sessions|)
    && (match c.tail case None => AllSettled(c, |c.sessions|) case Some(t) => t + 1 == |c.sessions|)
    && Fenced(c.log)
    && Signals(c.log) <= |c.sessions|
  }

  lemma SignalsAppend(log: seq<Event>, e: Event)
    ensures Signals(log + [e]) == Signals(log) + (if e.Signaled? then 1 else 0)
  {
    assert (log + [e])[..|log|] == log;
  }

  lemma FencedAppend(log: seq<Event>, e: Event)
    requires Fenced(log) && e.sess == Signals(log)
    ensures Fenced(log + [e])
  {
    forall p | 0 <= p < |log + [e]| ensures (log + [e])[p].sess == Signals((log + [e])[..p]) {
      assert (log + [e])[..p] == log[..p];
      assert log[..|log|] == log;
    }
  }

  /** Settled sessions are a prefix, so a session whose predecessor settled has all earlier ones settled. */
  lemma ReleasedMeans(c: Chain, i: nat)
    requires Inv(c) && IsSess(c, i) && Released(c, i)
    ensures AllSettled(c, i)
  {
    assert SessOk(c, i);
    if c.sessions[i].predecessor.Some? {
      assert SessOk(c, i - 1);
    }
  }

  /** While the sessions before `i` are settled and `i` is not signalled, exactly `i` signals were given. */
  lemma SignalsAre(c: Chain, i: nat)
    requires Inv(c) && IsSess(c, i) && AllSettled(c, i) && !c.sessions[i].hooked
    ensures Signals(c.log) == i
  {
    assert SessOk(c, i);
    if i > 0 {
      assert SessOk(c, i - 1);
    }
  }

  // ---------------------------------------------------------------- preservation

  /** A step that moves one session and nothing else. */
  function Move(c: Chain, i: nat, t: Sess): Chain
    requires IsSess(c, i)
  {
    c.(sessions := c.sessions[i := t])
  }

  lemma MoveKeeps(c: Chain, i: nat, t: Sess)
    requires Inv(c) && IsSess(c, i)
    requires var s := c.sessions[i]; t == s.(reading := t.reading, settling := t.settling, settled := t.settled) && (s.settled ==> t.settled)
    requires SessOk(Move(c, i, t), i)
    ensures Inv(Move(c, i, t))
  {
    var d := Move(c, i, t);
    forall j: nat | IsSess(d, j) ensures SessOk(d, j) {
      assert SessOk(c, j);
    }
    forall a: nat | a < |d.states| ensures StateOk(d, a) {
      assert StateOk(c, a);
    }
  }

  lemma OpenKeeps(c: Chain, owner: Option<nat>, over: bool, d: Chain)
    requires Inv(c) && c.attached.None?
    requires over ==> owner.None? && d == Open(c, owner, over)
    requires !over ==>
      && owner == Some(|c.states|)
      && d == Open(c, owner, over).(states := c.states + [State(|c.sessions|, false)], attached := owner)
    ensures Inv(d)
  {
    var n := |c.sessions|;
    forall j: nat | IsSess(d, j) ensures SessOk(d, j) {
      if j < n { assert SessOk(c, j); }
    }
    forall a: nat | a < |d.states| ensures StateOk(d, a) {
      if a < |c.states| { assert StateOk(c, a); }
    }
  }

  /** Ends the session of state `a`, which is unclosed. */
  lemma EndKeeps(c: Chain, a: nat, i: nat)
    requires Inv(c) && a < |c.states| && c.attached != Some(a) && !c.states[a].closed && i == c.states[a].sess
    ensures IsSess(c, i)
    ensures Inv(c.(sessions := c.sessions[i := EndSess(c.sessions[i])], states := c.states[a := c.states[a].(closed := true)]))
  {
    assert StateOk(c, a);
    var d := c.(sessions := c.sessions[i := EndSess(c.sessions[i])], states := c.states[a := c.states[a].(closed := true)]);
    assert SessOk(c, i);
    forall j: nat | IsSess(d, j) ensures SessOk(d, j) {
      assert SessOk(c, j);
    }
    forall b: nat | b < |d.states| ensures StateOk(d, b) {
      assert StateOk(c, b);
    }
  }

  lemma ReplaceKeeps(c: Chain)
    requires Inv(c) && Enabled(c, Replace)
    ensures Inv(Apply(c, Replace))
  {
    var a := c.attached.value;
    var i := c.states[a].sess;
    var n := |c.sessions|;
    var d := Apply(c, Replace);
    assert StateOk(c, a) && SessOk(c, i);
    forall j: nat | IsSess(d, j) ensures SessOk(d, j) {
      if j < n { assert SessOk(c, j); }
    }
    forall b: nat | b < |d.states| ensures StateOk(d, b) {
      assert StateOk(c, b);
    }
  }

  lemma HookKeeps(c: Chain, i: nat)
    requires Inv(c) && Enabled(c, Hook(i))
    ensures Inv(Apply(c, Hook(i)))
  {
    var d := Apply(c, Hook(i));
    ReleasedMeans(c, i);
    SignalsAre(c, i);
    SignalsAppend(c.log, Signaled(i));
    FencedAppend(c.log, Signaled(i));
    forall j: nat | IsSess(d, j) ensures SessOk(d, j) {
      assert SessOk(c, j) && SessOk(c, i);
    }
    forall a: nat | a < |d.states| ensures StateOk(d, a) {
      assert StateOk(c, a);
    }
  }

  lemma DeliverKeeps(c: Chain, i: nat)
    requires Inv(c) && Enabled(c, Deliver(i))
    ensures Inv(Apply(c, Deliver(i)))
  {
    var d := Apply(c, Deliver(i));
    assert SessOk(c, i);
    SignalsAre(c, i);
    SignalsAppend(c.log, Delivered(i));
    FencedAppend(c.log, Delivered(i));
    forall j: nat | IsSess(d, j) ensures SessOk(d, j) {
      assert SessOk(c, j);
    }
    forall a: nat | a < |d.states| ensures StateOk(d, a) {
      assert StateOk(c, a);
    }
  }

  /** The last session of a chain settles last. */
  lemma LastSettled(c: Chain, i: nat)
    requires Inv(c) && IsSess(c, i) && i + 1 == |c.sessions| && c.sessions[i].settled
    ensures AllSettled(c, |c.sessions|)
  {
    assert SessOk(c, i);
  }

  lemma FlagKeeps(c: Chain, d: Chain)
    requires Inv(c) && d == c.(attached := d.attached, tail := d.tail, stopped := d.stopped)
    requires d.attached == c.attached || d.attached.None?
    requires d.tail == c.tail || (d.tail.None? && AllSettled(c, |c.sessions|))
    ensures Inv(d)
  {
    forall j: nat | IsSess(d, j) ensures SessOk(d, j) {
      assert SessOk(c, j);
    }
    forall a: nat | a < |d.states| ensures StateOk(d, a) {
      assert StateOk(c, a);
    }
  }

  lemma StepKeeps(c: Chain, st: Step)
    requires Inv(c) && Enabled(c, st)
    ensures Inv(Apply(c, st))
  {
    hide AllSettled, Fenced, StateOk;
    match st {
      case CreateState => OpenKeeps(c, Some(|c.states|), false, Apply(c, st));
      case Replace => ReplaceKeeps(c);
      case Detach => FlagKeeps(c, Apply(c, st));
      case CloseDetached(a) => EndKeeps(c, a, c.states[a].sess);
      case Depart => OpenKeeps(c, None, true, Apply(c, st));
      case BeginRead(i) =>
        ReleasedMeans(c, i);
        assert SessOk(c, i);
        MovedOk(c, i, c.sessions[i].(reading := true));
        MoveKeeps(c, i, c.sessions[i].(reading := true));
      case Deliver(i) => DeliverKeeps(c, i);
      case EndRead(i) =>
        assert SessOk(c, i);
        var s := c.sessions[i];
        MovedOk(c, i, s.(reading := false, settling := s.settling || s.ended));
        MoveKeeps(c, i, s.(reading := false, settling := s.settling || s.ended));
      case Hook(i) => HookKeeps(c, i);
      case CloseSettled(i) =>
        assert SessOk(c, i);
        MovedOk(c, i, c.sessions[i].(settled := true));
        MoveKeeps(c, i, c.sessions[i].(settled := true));
      case Clean(i) =>
        if c.tail == Some(i) { LastSettled(c, i); }
        FlagKeeps(c, Apply(c, st));
      case StopSettling => FlagKeeps(c, Apply(c, st));
    }
  }

  /** Moving a session leaves the ones before it alone. */
  lemma MovedOk(c: Chain, i: nat, t: Sess)
    requires IsSess(c, i)
    ensures AllSettled(c, i) ==> AllSettled(Move(c, i, t), i)
  {
  }

  // ---------------------------------------------------------------- theorems

  lemma {:induction false} RunKeeps(c: Chain, steps: seq<Step>)
    requires Inv(c) && Runs(c, steps)
    ensures Inv(Exec(c, steps))
    decreases |steps|
  {
    hide Inv, Enabled, Apply;
    if steps != [] {
      StepKeeps(c, steps[0]);
      RunKeeps(Apply(c, steps[0]), steps[1..]);
    }
  }

  lemma ReachedOk(steps: seq<Step>)
    requires Runs(EMPTY, steps)
    ensures Inv(Exec(EMPTY, steps))
  {
    RunKeeps(EMPTY, steps);
  }

  lemma {:induction false} SignalsMonotone(log: seq<Event>, p: nat, q: nat)
    requires p <= q <= |log|
    ensures Signals(log[..p]) <= Signals(log[..q])
    ensures p < q && log[p].Signaled? ==> Signals(log[..p]) < Signals(log[..q])
    decreases q
  {
    if p < q {
      assert log[..q][..q - 1] == log[..q - 1];
      SignalsMonotone(log, p, q - 1);
    }
  }

  /**
   * In every interleaving: ends are signalled in creation order and at most once; nothing of a session
   * is delivered after its end signal, and nothing of a later session before it.
   */
  lemma EndsFenceDelivery(steps: seq<Step>, p: nat, q: nat)
    requires Runs(EMPTY, steps) && p < q < |Exec(EMPTY, steps).log|
    ensures var log := Exec(EMPTY, steps).log;
      && (log[p].Signaled? ==> log[p].sess < log[q].sess)
      && (log[p].Delivered? ==> log[p].sess <= log[q].sess)
  {
    ReachedOk(steps);
    hide Signals;
    SignalsMonotone(Exec(EMPTY, steps).log, p, q);
  }

  /** Signals are gapless: the k-th end signal is the k-th session's, so no end is skipped. */
  lemma NoEndSkipped(steps: seq<Step>, p: nat)
    requires Runs(EMPTY, steps) && p < |Exec(EMPTY, steps).log|
    ensures Exec(EMPTY, steps).log[p].sess == Signals(Exec(EMPTY, steps).log[..p])
  {
    ReachedOk(steps);
    hide Signals;
  }

  /** The first session whose end has not settled. */
  ghost predicate Earliest(c: Chain, i: nat) {
    IsSess(c, i) && !c.sessions[i].settled && AllSettled(c, i)
  }

  /** The session of the attached state. */
  predicate OnAttached(c: Chain, i: nat) {
    IsSess(c, i) && c.attached.Some? && c.sessions[i].owner == c.attached && !c.sessions[i].ended
  }

  /**
   * The chain never gets stuck: the earliest unsettled session is live on the attached state, awaits its
   * detached owner's close, is held by its own reader, or a step of its end signal is enabled now.
   */
  lemma NeverStuck(steps: seq<Step>, i: nat)
    requires Runs(EMPTY, steps)
    requires var c := Exec(EMPTY, steps); !c.stopped && Earliest(c, i)
    ensures var c := Exec(EMPTY, steps); var s := c.sessions[i];
      || (OnAttached(c, i) && c.attached.value < |c.states| && c.states[c.attached.value].sess == i)
      || (!s.ended && s.owner.Some? && c.attached != s.owner && Enabled(c, CloseDetached(s.owner.value)))
      || (s.ended && s.reading && Enabled(c, EndRead(i)))
      || Enabled(c, Hook(i)) || Enabled(c, CloseSettled(i))
  {
    ReachedOk(steps);
    Unstuck(Exec(EMPTY, steps), i);
  }

  lemma Unstuck(c: Chain, i: nat)
    requires Inv(c) && !c.stopped && Earliest(c, i)
    ensures var s := c.sessions[i];
      || (OnAttached(c, i) && c.attached.value < |c.states| && c.states[c.attached.value].sess == i)
      || (!s.ended && s.owner.Some? && c.attached != s.owner && Enabled(c, CloseDetached(s.owner.value)))
      || (s.ended && s.reading && Enabled(c, EndRead(i)))
      || Enabled(c, Hook(i)) || Enabled(c, CloseSettled(i))
  {
    assert SessOk(c, i);
  }

  /** An attached state always holds a live session, so the removal that closes it has one to end. */
  lemma AttachedIsLive(steps: seq<Step>)
    requires Runs(EMPTY, steps) && Exec(EMPTY, steps).attached.Some?
    ensures var c := Exec(EMPTY, steps);
      && c.attached.value < |c.states| && IsSess(c, c.states[c.attached.value].sess)
      && !c.sessions[c.states[c.attached.value].sess].ended
  {
    ReachedOk(steps);
    var c := Exec(EMPTY, steps);
    assert StateOk(c, c.attached.value);
  }

  // ---------------------------------------------------------------- the chain drains

  /** Steps a session still needs until it is settled. */
  function Remaining(s: Sess): nat {
    if s.settled then 0 else if s.hooked then 1 else if s.settling then 2
    else if s.ended then 3 else if s.reading then 5 else 4
  }

  function Work(ss: seq<Sess>): nat {
    if ss == [] then 0 else Work(ss[..|ss| - 1]) + Remaining(ss[|ss| - 1])
  }

  lemma {:induction false} WorkUpdate(ss: seq<Sess>, i: nat, t: Sess)
    requires i < |ss|
    ensures Work(ss[i := t]) == Work(ss) - Remaining(ss[i]) + Remaining(t)
    decreases |ss|
  {
    var n := |ss| - 1;
    if i == n {
      assert ss[i := t][..n] == ss[..n];
    } else {
      assert ss[i := t][..n] == ss[..n][i := t];
      WorkUpdate(ss[..n], i, t);
    }
  }

  /** Settling steps: none of them opens a session, starts a reader or delivers. */
  predicate Settling(st: Step) {
    st.CloseDetached? || st.EndRead? || st.Hook? || st.CloseSettled?
  }

  ghost predicate Drained(c: Chain) {
    forall i :: 0 <= i < |c.sessions| ==> c.sessions[i].settled || OnAttached(c, i)
  }

  lemma {:induction false} FindEarliest(c: Chain, n: nat) returns (i: nat)
    requires n < |c.sessions| && !c.sessions[n].settled
    ensures Earliest(c, i) && i <= n
    decreases n
  {
    if AllSettled(c, n) {
      i := n;
    } else {
      var j :| 0 <= j < n && !c.sessions[j].settled;
      i := FindEarliest(c, j);
    }
  }

  /** Every session before the one on the attached state has ended, so an undrained chain has a settling step. */
  lemma SettleOne(c: Chain, n: nat) returns (st: Step)
    requires Inv(c) && !c.stopped && n < |c.sessions| && !c.sessions[n].settled && !OnAttached(c, n)
    ensures Settling(st) && Enabled(c, st)
    ensures Work(Apply(c, st).sessions) < Work(c.sessions) && Apply(c, st).attached == c.attached && !Apply(c, st).stopped
  {
    var i := FindEarliest(c, n);
    assert SessOk(c, i) && SessOk(c, n);
    Unstuck(c, i);
    var s := c.sessions[i];
    hide Work;
    if !s.ended {
      st := CloseDetached(s.owner.value);
      WorkUpdate(c.sessions, i, EndSess(s));
    } else if s.reading {
      st := EndRead(i);
      WorkUpdate(c.sessions, i, s.(reading := false, settling := s.settling || s.ended));
    } else if !s.hooked {
      st := Hook(i);
      WorkUpdate(c.sessions, i, s.(hooked := true));
    } else {
      st := CloseSettled(i);
      WorkUpdate(c.sessions, i, s.(settled := true));
    }
  }

  /** From any state before shutdown, settling steps alone settle every session but the attached live one. */
  lemma {:induction false} ChainDrains(c: Chain) returns (steps: seq<Step>)
    requires Inv(c) && !c.stopped
    ensures Runs(c, steps) && forall k :: 0 <= k < |steps| ==> Settling(steps[k])
    ensures Drained(Exec(c, steps)) && Exec(c, steps).attached == c.attached
    decreases Work(c.sessions)
  {
    steps := [];
    if !Drained(c) {
      var n :| 0 <= n < |c.sessions| && !c.sessions[n].settled && !OnAttached(c, n);
      var st := SettleOne(c, n);
      StepKeeps(c, st);
      hide Inv, Enabled, Apply;
      var rest := ChainDrains(Apply(c, st));
      steps := [st] + rest;
      assert steps[0] == st && steps[1..] == rest;
    }
  }

  /** So once a node is gone, every end of its sessions can still be signalled. */
  lemma AllEndsCanSettle(steps: seq<Step>) returns (more: seq<Step>)
    requires Runs(EMPTY, steps)
    requires !Exec(EMPTY, steps).stopped && Exec(EMPTY, steps).attached.None?
    ensures Runs(Exec(EMPTY, steps), more) && forall k :: 0 <= k < |more| ==> Settling(more[k])
    ensures forall i :: 0 <= i < |Exec(Exec(EMPTY, steps), more).sessions| ==> Exec(Exec(EMPTY, steps), more).sessions[i].settled
  {
    ReachedOk(steps);
    hide Inv, Enabled, Apply;
    more := ChainDrains(Exec(EMPTY, steps));
  }

  /** No end is signalled after shutdown. */
  lemma {:induction false} SilentAfterStop(c: Chain, steps: seq<Step>)
    requires c.stopped && Runs(c, steps)
    ensures Exec(c, steps).stopped && Signals(Exec(c, steps).log) == Signals(c.log)
    decreases |steps|
  {
    if steps != [] {
      if steps[0].Deliver? {
        SignalsAppend(c.log, Delivered(steps[0].sess));
      }
      SilentAfterStop(Apply(c, steps[0]), steps[1..]);
    }
  }
}
