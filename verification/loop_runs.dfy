/**
 * A node's control loop together with the session protocol (cluster/internode/manager.go): the loop's
 * handlers start connection runs, and each start is the protocol's adoption of a socket. What the
 * protocol asks of an adoption, that no run serves the session, holds whenever the loop starts one.
 */
module LoopRuns {
  import opened Options
  import opened ControlLoops
  import P = Protocol
  import I = ProtocolInvariant
  import S = ProtocolSteps
  import L = Links

  /** The loop of side `x`, its live runs, and both ends' protocol state. A connection's id is its socket. */
  datatype Joint = Joint(loop: Loop, runs: set<Conn>, world: P.World)

  datatype Step =
    | Net(st: P.Step)
    | Manage
    | Arrive(c: Conn, authorized: bool, binding: Binding)
    | RunEnds(c: Conn)
    | Report(who: Option<Conn>)

  /** A socket that side `x` has not adopted. */
  predicate Unadopted(w: P.World, x: P.Side, c: Conn) {
    P.IsSock(w, c.id) && P.EndAt(w, c.id, x).sess == 0
  }

  predicate IsRun(runs: set<Conn>, k: nat) {
    exists c :: c in runs && c.id == k
  }

  /** Steps of the protocol that are not the loop's: anything but adopting for `x`, managing `x`, and ending its runs. */
  predicate Elsewhere(j: Joint, x: P.Side, st: P.Step) {
    && !(st.Adopt? && st.x == x) && st != P.CreateState(x)
    && !(st.Stop? && st.x == x && IsRun(j.runs, st.k))
  }

  predicate Enabled(x: P.Side, j: Joint, st: Step) {
    match st
    case Net(s) => P.Enabled(j.world, s) && Elsewhere(j, x, s)
    case Manage => P.Enabled(j.world, P.CreateState(x))
    case Arrive(c, _, _) => Unadopted(j.world, x, c) && (j.loop.successor.Some? ==> j.loop.successor.value.id != c.id)
    case RunEnds(c) => c in j.runs && P.Enabled(j.world, P.Stop(x, c.id))
    // a connection reports only after its run has ended
    case Report(who) => who.Some? ==> who.value !in j.runs
  }

  /** What a handler's effect does: the run it starts adopts the socket, if the protocol lets it. */
  function Handled(x: P.Side, j: Joint, e: Effect): Joint {
    Joint(e.loop, j.runs + AsSet(e.starts), if e.starts.Some? then Adopted(x, j.world, e.starts.value) else j.world)
  }

  function Adopted(x: P.Side, w: P.World, c: Conn): P.World {
    if P.Enabled(w, P.Adopt(x, c.id)) then P.Apply(w, P.Adopt(x, c.id)) else w
  }

  /** What the handler of the step does; the state is attached while the side has a current session. */
  function EffectOf(x: P.Side, localIsLower: bool, j: Joint, st: Step): Effect
    requires st.Arrive? || st.Report?
  {
    var attached := j.world.cur.At(x) != 0;
    if st.Arrive? then Connected(j.loop, st.c, localIsLower, st.authorized, st.binding, attached)
    else Disconnected(j.loop, st.who, attached)
  }

  function Apply(x: P.Side, localIsLower: bool, j: Joint, st: Step): Joint
    requires Enabled(x, j, st)
  {
    match st
    case Net(s) => j.(world := P.Apply(j.world, s))
    // a new state has a new loop; the old one can no longer adopt
    case Manage => Joint(Loop(None, None), {}, P.Apply(j.world, P.CreateState(x)))
    case RunEnds(c) => Joint(j.loop, j.runs - {c}, P.Apply(j.world, P.Stop(x, c.id)))
    case _ => Handled(x, j, EffectOf(x, localIsLower, j, st))
  }

  /** Every live run on the side's current session is one of the loop's. */
  ghost predicate Mirrors(w: P.World, x: P.Side, runs: set<Conn>) {
    forall k: nat :: P.IsSock(w, k) && P.EndAt(w, k, x).running && P.EndAt(w, k, x).sess == w.cur.At(x) ==> IsRun(runs, k)
  }

  ghost predicate LoopOk(j: Joint, x: P.Side) {
    && j.runs <= AsSet(j.loop.connection)
    && (j.loop.successor.Some? ==> j.loop.connection.Some? && Unadopted(j.world, x, j.loop.successor.value))
  }

  ghost predicate Inv(x: P.Side, j: Joint) {
    I.Inv(j.world) && LoopOk(j, x) && Mirrors(j.world, x, j.runs)
  }

  // ---------------------------------------------------------------- steps

  /** Side `x`'s ends after a step that adopts nothing for it: sockets stay its own, and no run appears. */
  ghost predicate EndsStay(w: P.World, v: P.World, x: P.Side) {
    && |w.socks| <= |v.socks|
    && (forall k: nat :: P.IsSock(w, k) ==>
          P.EndAt(v, k, x).sess == P.EndAt(w, k, x).sess && (P.EndAt(v, k, x).running ==> P.EndAt(w, k, x).running))
    && (forall k: nat :: P.IsSock(v, k) && !P.IsSock(w, k) ==> !P.EndAt(v, k, x).running)
    && (v.cur.At(x) == w.cur.At(x) || v.cur.At(x) == 0 || v.cur.At(x) == |w.sessions|)
  }

  lemma ConsumeStays(s: P.Session, e: P.End, k: nat, f: P.WireFrame)
    ensures P.Consume(s, e, k, f).1.sess == e.sess && P.Consume(s, e, k, f).1.running == e.running
  {
    hide P.Acked;
  }

  /** One end changed, of socket `k` and side `y`, and neither changed session nor began to run. */
  lemma OneEndStays(w: P.World, v: P.World, x: P.Side, y: P.Side, k: nat, f: P.End)
    requires P.IsSock(w, k) && v.socks == w.socks[k := w.socks[k].With(y, f)]
    requires f.sess == P.EndAt(w, k, y).sess && (f.running ==> P.EndAt(w, k, y).running)
    requires v.cur.At(x) == w.cur.At(x) || v.cur.At(x) == 0 || v.cur.At(x) == |w.sessions|
    ensures EndsStay(w, v, x)
  {
  }

  predicate OfState(st: P.Step) {
    st.CreateState? || st.Detach? || st.CloseDetached? || st.Replace? || st.Enqueue? || st.Connect?
  }

  lemma StateStays(w: P.World, x: P.Side, st: P.Step)
    requires P.Enabled(w, st) && OfState(st)
    ensures EndsStay(w, P.Apply(w, st), x)
  {
    hide P.Ended, L.Accept, P.NewSession;
  }

  lemma FailStays(w: P.World, x: P.Side, y: P.Side, k: nat)
    requires P.Enabled(w, P.FailSession(y, k))
    ensures EndsStay(w, P.Apply(w, P.FailSession(y, k)), x)
  {
    hide P.Ended, P.NewSession, EndsStay;
    OneEndStays(w, P.Apply(w, P.FailSession(y, k)), x, y, k, P.EndAt(w, k, y).(phase := P.Stopped));
  }

  lemma ReconcileStays(w: P.World, x: P.Side, y: P.Side, k: nat)
    requires P.Enabled(w, P.ReadResume(y, k))
    ensures EndsStay(w, P.Apply(w, P.ReadResume(y, k)), x)
  {
    hide P.Ended, P.NewSession, EndsStay;
    var v := P.Apply(w, P.ReadResume(y, k));
    OneEndStays(w, v, x, y, k, P.EndAt(v, k, y));
  }

  lemma EndStays(w: P.World, x: P.Side, st: P.Step)
    requires P.Enabled(w, st) && !OfState(st) && !st.FailSession? && !st.ReadResume? && (st.Adopt? ==> st.x != x)
    ensures EndsStay(w, P.Apply(w, st), x)
  {
    hide P.Consume, P.Reconcile, EndsStay, L.ResendFrame, L.TakeFrame, L.Take, L.Resend;
    var v := P.Apply(w, st);
    var e := P.EndAt(w, st.k, st.x);
    if st.Read? { ConsumeStays(w.sessions[e.sess], e, st.k, P.EndAt(w, st.k, P.Other(st.x)).wire[e.read]); }
    if st.Adopt? { OtherAdoptStays(w, x, st.x, st.k); } else { OneEndStays(w, v, x, st.x, st.k, P.EndAt(v, st.k, st.x)); }
  }

  lemma OtherAdoptStays(w: P.World, x: P.Side, y: P.Side, k: nat)
    requires P.Enabled(w, P.Adopt(y, k)) && y != x
    ensures EndsStay(w, P.Apply(w, P.Adopt(y, k)), x)
  {
  }

  lemma StepStays(w: P.World, x: P.Side, st: P.Step)
    requires P.Enabled(w, st) && !(st.Adopt? && st.x == x)
    ensures EndsStay(w, P.Apply(w, st), x)
  {
    hide P.Apply, P.Enabled, EndsStay;
    if OfState(st) { StateStays(w, x, st); }
    else if st.FailSession? { FailStays(w, x, st.x, st.k); }
    else if st.ReadResume? { ReconcileStays(w, x, st.x, st.k); }
    else { EndStays(w, x, st); }
  }

  /** What stays, stays mirrored: a session that becomes current has no run yet. */
  lemma StaysMirrored(w: P.World, v: P.World, x: P.Side, runs: set<Conn>)
    requires I.Inv(w) && I.Inv(v) && EndsStay(w, v, x) && Mirrors(w, x, runs)
    ensures Mirrors(v, x, runs)
  {
    hide I.EndOver, I.LocalOk, I.BoundOk, IsRun;
    forall k: nat | P.IsSock(v, k) && P.EndAt(v, k, x).running && P.EndAt(v, k, x).sess == v.cur.At(x) ensures IsRun(runs, k) {
      assert P.IsSock(w, k) && I.EndOk(w, k, x);
    }
  }

  /** With no run of the loop, nothing serves the current session, so an unadopted socket may be adopted. */
  lemma IdleMayAdopt(w: P.World, x: P.Side, c: Conn)
    requires I.Inv(w) && Mirrors(w, x, {}) && Unadopted(w, x, c) && w.cur.At(x) != 0
    ensures P.Enabled(w, P.Adopt(x, c.id))
  {
    hide I.EndOk, I.LocalOk;
    var id := w.cur.At(x);
    assert I.CurOk(w, x);
    assert I.BoundOk(w, id);
  }

  /** Adopting a socket leaves the other sockets alone. */
  lemma AdoptElse(w: P.World, x: P.Side, id: nat, k: nat)
    requires P.Enabled(w, P.Adopt(x, id)) && P.IsSock(w, k) && k != id
    ensures P.EndAt(P.Apply(w, P.Adopt(x, id)), k, x) == P.EndAt(w, k, x)
  {
  }

  lemma AdoptMirrors(w: P.World, x: P.Side, c: Conn)
    requires Mirrors(w, x, {}) && P.Enabled(w, P.Adopt(x, c.id))
    ensures Mirrors(P.Apply(w, P.Adopt(x, c.id)), x, {c})
  {
    var v := P.Apply(w, P.Adopt(x, c.id));
    assert |v.socks| == |w.socks| && v.cur == w.cur;
    forall k: nat | P.IsSock(w, k) && k != c.id ensures P.EndAt(v, k, x) == P.EndAt(w, k, x) { AdoptElse(w, x, c.id, k); }
    hide P.Apply, P.Enabled;
    assert IsRun({c}, c.id) by { assert c in {c}; }
  }

  /** A handler starts a run only when none is live, of a socket not yet adopted, for an attached state. */
  lemma StartsWhenIdle(x: P.Side, localIsLower: bool, j: Joint, st: Step)
    requires LoopOk(j, x) && (st.Arrive? || st.Report?) && Enabled(x, j, st)
    ensures var e := EffectOf(x, localIsLower, j, st);
      && (e.starts.Some? ==> j.runs == {} && Unadopted(j.world, x, e.starts.value) && j.world.cur.At(x) != 0 && e.loop == Loop(e.starts, None))
      && (e.starts.None? ==> j.runs <= AsSet(e.loop.connection))
      && (e.loop.successor.Some? ==> e.loop.connection.Some? && Unadopted(j.world, x, e.loop.successor.value))
  {
  }

  lemma HandlerKeeps(x: P.Side, localIsLower: bool, j: Joint, st: Step)
    requires Inv(x, j) && (st.Arrive? || st.Report?) && Enabled(x, j, st)
    ensures Inv(x, Apply(x, localIsLower, j, st))
    ensures var e := EffectOf(x, localIsLower, j, st); e.starts.Some? ==> P.Enabled(j.world, P.Adopt(x, e.starts.value.id))
  {
    hide I.Inv, Mirrors, EffectOf, P.Enabled, P.Apply, Unadopted;
    StartsWhenIdle(x, localIsLower, j, st);
    var e := EffectOf(x, localIsLower, j, st);
    if e.starts.Some? {
      var c := e.starts.value;
      IdleMayAdopt(j.world, x, c);
      AdoptMirrors(j.world, x, c);
      S.StepKeeps(j.world, P.Adopt(x, c.id));
      assert j.runs + AsSet(e.starts) == {c};
    } else {
      assert j.runs + AsSet(e.starts) == j.runs;
    }
  }

  lemma StaysLoopOk(j: Joint, x: P.Side, runs: set<Conn>, v: P.World)
    requires LoopOk(j, x) && EndsStay(j.world, v, x) && runs <= j.runs
    ensures LoopOk(Joint(j.loop, runs, v), x)
  {
  }

  lemma NetKeeps(x: P.Side, j: Joint, st: P.Step)
    requires Inv(x, j) && Enabled(x, j, Net(st))
    ensures Inv(x, j.(world := P.Apply(j.world, st)))
  {
    hide I.Inv, Mirrors, LoopOk, EndsStay, P.Enabled, P.Apply;
    var v := P.Apply(j.world, st);
    S.StepKeeps(j.world, st);
    StepStays(j.world, x, st);
    StaysMirrored(j.world, v, x, j.runs);
    StaysLoopOk(j, x, j.runs, v);
  }

  lemma ManageKeeps(x: P.Side, j: Joint)
    requires Inv(x, j) && Enabled(x, j, Manage)
    ensures Inv(x, Joint(Loop(None, None), {}, P.Apply(j.world, P.CreateState(x))))
  {
    var v := P.Apply(j.world, P.CreateState(x));
    S.StepKeeps(j.world, P.CreateState(x));
    NewSessionIdle(j.world, x, v);
  }

  /** Nothing serves a session that has just been created. */
  lemma NewSessionIdle(w: P.World, x: P.Side, v: P.World)
    requires I.Inv(w) && v.socks == w.socks && v.cur.At(x) == |w.sessions|
    ensures Mirrors(v, x, {})
  {
    hide I.EndOver, I.LocalOk, I.BoundOk, IsRun;
    forall k: nat | P.IsSock(v, k) && P.EndAt(v, k, x).running ensures P.EndAt(v, k, x).sess != v.cur.At(x) {
      assert I.EndOk(w, k, x);
    }
  }

  lemma RunEndsKeeps(x: P.Side, j: Joint, c: Conn)
    requires Inv(x, j) && Enabled(x, j, RunEnds(c))
    ensures Inv(x, Joint(j.loop, j.runs - {c}, P.Apply(j.world, P.Stop(x, c.id))))
  {
    var st := P.Stop(x, c.id);
    var v := P.Apply(j.world, st);
    StoppedNotRunning(j.world, x, c.id);
    hide I.Inv, EndsStay, P.Enabled, P.Apply;
    S.StepKeeps(j.world, st);
    StepStays(j.world, x, st);
    StaysMirrored(j.world, v, x, j.runs);
    StaysLoopOk(j, x, j.runs - {c}, v);
    forall k: nat | P.IsSock(v, k) && P.EndAt(v, k, x).running && P.EndAt(v, k, x).sess == v.cur.At(x) ensures IsRun(j.runs - {c}, k) {
      assert IsRun(j.runs, k);
      var d :| d in j.runs && d.id == k;
      assert d in j.runs - {c};
    }
  }

  lemma StoppedNotRunning(w: P.World, x: P.Side, k: nat)
    requires P.Enabled(w, P.Stop(x, k))
    ensures P.IsSock(P.Apply(w, P.Stop(x, k)), k) && !P.EndAt(P.Apply(w, P.Stop(x, k)), k, x).running
  {
  }

  lemma StepKeeps(x: P.Side, localIsLower: bool, j: Joint, st: Step)
    requires Inv(x, j) && Enabled(x, j, st)
    ensures Inv(x, Apply(x, localIsLower, j, st))
  {
    hide Inv, EffectOf, P.Apply;
    match st {
      case Net(s) => NetKeeps(x, j, s);
      case Manage => ManageKeeps(x, j);
      case RunEnds(c) => RunEndsKeeps(x, j, c);
      case _ => HandlerKeeps(x, localIsLower, j, st);
    }
  }

  predicate Runs(x: P.Side, localIsLower: bool, j: Joint, steps: seq<Step>)
    decreases |steps|
  {
    steps != [] ==> Enabled(x, j, steps[0]) && Runs(x, localIsLower, Apply(x, localIsLower, j, steps[0]), steps[1..])
  }

  function Exec(x: P.Side, localIsLower: bool, j: Joint, steps: seq<Step>): Joint
    requires Runs(x, localIsLower, j, steps)
    decreases |steps|
  {
    if steps == [] then j else Exec(x, localIsLower, Apply(x, localIsLower, j, steps[0]), steps[1..])
  }

  lemma {:induction false} RunKeeps(x: P.Side, localIsLower: bool, j: Joint, steps: seq<Step>)
    requires Inv(x, j) && Runs(x, localIsLower, j, steps)
    ensures Inv(x, Exec(x, localIsLower, j, steps))
    decreases |steps|
  {
    if steps != [] {
      StepKeeps(x, localIsLower, j, steps[0]);
      hide Inv, Apply, Enabled;
      RunKeeps(x, localIsLower, Apply(x, localIsLower, j, steps[0]), steps[1..]);
    }
  }

  function Start(window: nat): Joint {
    Joint(Loop(None, None), {}, P.Init(window))
  }

  lemma StartOk(x: P.Side, window: nat)
    ensures Inv(x, Start(window))
  {
  }

  /**
   * In every run of a loop with the protocol, each connection run that a handler starts is an adoption the
   * protocol allows: no other run serves the session. So one run per session is the loop's doing.
   */
  lemma StartsAreAdoptions(x: P.Side, localIsLower: bool, window: nat, steps: seq<Step>, st: Step)
    requires Runs(x, localIsLower, Start(window), steps)
    requires (st.Arrive? || st.Report?) && Enabled(x, Exec(x, localIsLower, Start(window), steps), st)
    ensures var j := Exec(x, localIsLower, Start(window), steps);
      var e := EffectOf(x, localIsLower, j, st);
      e.starts.Some? ==> j.runs == {} && P.Enabled(j.world, P.Adopt(x, e.starts.value.id))
  {
    hide Inv, Runs, Exec, EffectOf, Start;
    StartOk(x, window);
    RunKeeps(x, localIsLower, Start(window), steps);
    var j := Exec(x, localIsLower, Start(window), steps);
    HandlerKeeps(x, localIsLower, j, st);
    assert LoopOk(j, x) by { LoopOf(x, j); }
    StartsWhenIdle(x, localIsLower, j, st);
  }

  lemma LoopOf(x: P.Side, j: Joint)
    requires Inv(x, j)
    ensures LoopOk(j, x)
  {
  }

  /** A state of some run of a loop with the protocol. */
  ghost predicate Reached(x: P.Side, localIsLower: bool, j: Joint) {
    exists window: nat, steps :: Runs(x, localIsLower, Start(window), steps) && Exec(x, localIsLower, Start(window), steps) == j
  }

  lemma ReachedOk(x: P.Side, localIsLower: bool, j: Joint)
    requires Reached(x, localIsLower, j)
    ensures Inv(x, j)
  {
    hide Inv, Runs, Exec, Start;
    var window: nat, steps :| Runs(x, localIsLower, Start(window), steps) && Exec(x, localIsLower, Start(window), steps) == j;
    StartOk(x, window);
    RunKeeps(x, localIsLower, Start(window), steps);
  }

  /** Connection `c` is the loop's, its run is live, and it serves the side's current session. */
  ghost predicate Serves(x: P.Side, j: Joint, c: Conn) {
    && j.loop.connection == Some(c) && c in j.runs && P.Serving(j.world, c.id, x)
    && P.EndAt(j.world, c.id, x).sess == j.world.cur.At(x) && j.world.sessions[j.world.cur.At(x)].server == c.id
  }

  lemma AdoptServes(w: P.World, x: P.Side, k: nat)
    requires P.Enabled(w, P.Adopt(x, k))
    ensures var v := P.Apply(w, P.Adopt(x, k));
      && P.Serving(v, k, x) && v.cur == w.cur && P.EndAt(v, k, x).sess == v.cur.At(x) && v.sessions[v.cur.At(x)].server == k
  {
  }

  /** Once the old run has ended and reports on an attached state, the connection that waited serves the session. */
  lemma SuccessorServes(x: P.Side, localIsLower: bool, j: Joint, c: Conn)
    requires Reached(x, localIsLower, j) && j.loop.successor == Some(c) && j.world.cur.At(x) != 0 && j.runs == {}
    ensures Enabled(x, j, Report(j.loop.connection)) && Serves(x, Apply(x, localIsLower, j, Report(j.loop.connection)), c)
  {
    hide Reached, I.Inv, P.Enabled, P.Apply;
    ReachedOk(x, localIsLower, j);
    SuccessorTakesOver(j.loop, j.loop.connection, true);
    HandlerKeeps(x, localIsLower, j, Report(j.loop.connection));
    AdoptServes(j.world, x, c.id);
  }

  /** A connection that arrives while none is held, and is wanted, serves the session at once. */
  lemma FirstServes(x: P.Side, localIsLower: bool, j: Joint, c: Conn, binding: Binding)
    requires Reached(x, localIsLower, j) && j.loop.connection.None? && j.world.cur.At(x) != 0 && binding != Rejected
    requires Enabled(x, j, Arrive(c, true, binding))
    ensures Serves(x, Apply(x, localIsLower, j, Arrive(c, true, binding)), c)
  {
    hide Reached, I.Inv, P.Enabled, P.Apply;
    ReachedOk(x, localIsLower, j);
    HandlerKeeps(x, localIsLower, j, Arrive(c, true, binding));
    CandidateIsKeptIff(j.loop, c, localIsLower, true, binding, true);
    AdoptServes(j.world, x, c.id);
  }

  /**
   * A restarted peer gets through: its connection waits whatever was held, and once the old run has ended and
   * reported on a state still attached, it serves the session.
   */
  lemma RestartedPeerIsServed(x: P.Side, localIsLower: bool, j: Joint, c: Conn)
    requires Reached(x, localIsLower, j) && j.loop.connection.Some? && !Holds(j.loop, c) && Enabled(x, j, Arrive(c, true, Restarted))
    ensures var a := Apply(x, localIsLower, j, Arrive(c, true, Restarted));
      && a.loop == Loop(j.loop.connection, Some(c)) && a.runs == j.runs && a.world == j.world
      && (a.runs == {} && a.world.cur.At(x) != 0 ==>
            Enabled(x, a, Report(a.loop.connection)) && Serves(x, Apply(x, localIsLower, a, Report(a.loop.connection)), c))
  {
    hide Reached;
    CandidateIsKeptIff(j.loop, c, localIsLower, true, Restarted, j.world.cur.At(x) != 0);
    var a := Apply(x, localIsLower, j, Arrive(c, true, Restarted));
    assert j.runs + {} == j.runs;
    assert a.loop == Loop(j.loop.connection, Some(c)) && a.runs == j.runs && a.world == j.world;
    if a.runs == {} && a.world.cur.At(x) != 0 {
      ReachedNext(x, localIsLower, j, Arrive(c, true, Restarted));
      SuccessorServes(x, localIsLower, a, c);
    }
  }

  lemma ReachedNext(x: P.Side, localIsLower: bool, j: Joint, st: Step)
    requires Reached(x, localIsLower, j) && Enabled(x, j, st)
    ensures Reached(x, localIsLower, Apply(x, localIsLower, j, st))
  {
    hide Enabled, Apply, Start;
    var window: nat, steps :| Runs(x, localIsLower, Start(window), steps) && Exec(x, localIsLower, Start(window), steps) == j;
    RunsOn(x, localIsLower, Start(window), steps, st);
  }

  lemma {:induction false} RunsOn(x: P.Side, localIsLower: bool, j: Joint, steps: seq<Step>, st: Step)
    requires Runs(x, localIsLower, j, steps) && Enabled(x, Exec(x, localIsLower, j, steps), st)
    ensures Runs(x, localIsLower, j, steps + [st])
    ensures Exec(x, localIsLower, j, steps + [st]) == Apply(x, localIsLower, Exec(x, localIsLower, j, steps), st)
    decreases |steps|
  {
    hide Enabled, Apply;
    var more := steps + [st];
    if steps == [] {
      var v := Apply(x, localIsLower, j, st);
      assert more == [st] && more[1..] == [];
      assert Runs(x, localIsLower, v, []) && Exec(x, localIsLower, v, []) == v;
    } else {
      assert more[0] == steps[0] && more[1..] == steps[1..] + [st];
      RunsOn(x, localIsLower, Apply(x, localIsLower, j, steps[0]), steps[1..], st);
    }
  }
}
