/**
 * What the steps of the end chain do: which sessions begin and end, what each one waits for, and that every
 * end is then signalled and every attached session can come to deliver (cluster/internode/session.go).
 */
module ChainEffects {
  import opened Options
  import opened SessionChain

  /** The session that the attached state holds. */
  predicate Current(c: Chain, i: nat) {
    c.attached.Some? && c.attached.value < |c.states| && c.states[c.attached.value].sess == i
  }

  /** The steps that end session `i`: its replacement, and the close of the detached state that holds it. */
  predicate Ends(c: Chain, st: Step, i: nat) {
    match st
    case Replace => Current(c, i)
    case CloseDetached(a) => a < |c.states| && c.states[a].sess == i
    case _ => false
  }

  predicate Begins(st: Step) {
    st.CreateState? || st.Replace? || st.Depart?
  }

  /** Session `i` waits for the one before it, unless all before it are settled. */
  ghost predicate Follows(c: Chain, i: nat)
    requires IsSess(c, i)
  {
    || (c.sessions[i].predecessor.Some? && c.sessions[i].predecessor.value + 1 == i)
    || (c.sessions[i].predecessor.None? && AllSettled(c, i))
  }

  /**
   * Sessions end by exactly these steps and never come back, and keep what they are otherwise. A session
   * that ends is to be signalled as soon as its reader is out.
   */
  lemma EndsExactly(steps: seq<Step>, st: Step, i: nat)
    requires Runs(EMPTY, steps) && Enabled(Exec(EMPTY, steps), st) && IsSess(Exec(EMPTY, steps), i)
    ensures var c, v := Exec(EMPTY, steps), Apply(Exec(EMPTY, steps), st);
      && IsSess(v, i) && v.sessions[i].owner == c.sessions[i].owner && v.sessions[i].predecessor == c.sessions[i].predecessor
      && (v.sessions[i].ended <==> c.sessions[i].ended || Ends(c, st, i))
      && (Ends(c, st, i) ==> !c.sessions[i].ended)
      && (v.sessions[i].settling <==> v.sessions[i].ended && !v.sessions[i].reading)
      && (v.sessions[i].reading <==> st == BeginRead(i) || (c.sessions[i].reading && st != EndRead(i)))
      && (v.sessions[i].hooked <==> c.sessions[i].hooked || st == Hook(i))
      && (v.sessions[i].settled <==> c.sessions[i].settled || st == CloseSettled(i))
  {
    hide Inv, Enabled, Apply, Runs, Exec;
    ReachedOk(steps);
    StepKeeps(Exec(EMPTY, steps), st);
    EndsAs(Exec(EMPTY, steps), st, i);
  }

  lemma EndsAs(c: Chain, st: Step, i: nat)
    requires Inv(c) && Enabled(c, st) && IsSess(c, i) && Inv(Apply(c, st))
    ensures var v := Apply(c, st);
      && IsSess(v, i) && v.sessions[i].owner == c.sessions[i].owner && v.sessions[i].predecessor == c.sessions[i].predecessor
      && (v.sessions[i].ended <==> c.sessions[i].ended || Ends(c, st, i))
      && (Ends(c, st, i) ==> !c.sessions[i].ended)
      && (v.sessions[i].settling <==> v.sessions[i].ended && !v.sessions[i].reading)
      && (v.sessions[i].reading <==> st == BeginRead(i) || (c.sessions[i].reading && st != EndRead(i)))
      && (v.sessions[i].hooked <==> c.sessions[i].hooked || st == Hook(i))
      && (v.sessions[i].settled <==> c.sessions[i].settled || st == CloseSettled(i))
  {
    hide AllSettled, Fenced, Signals, Released;
    assert SessOk(c, i) && SessOk(Apply(c, st), i);
    if c.attached.Some? { assert StateOk(c, c.attached.value); }
    if st.CloseDetached? { assert StateOk(c, st.state); }
  }

  /**
   * Exactly these steps begin a session, at the end of the chain. A new or a replaced state gets a live one
   * that it holds; the departure of a node without state gets one that is over and only to be signalled.
   */
  lemma BeginsExactly(steps: seq<Step>, st: Step)
    requires Runs(EMPTY, steps) && Enabled(Exec(EMPTY, steps), st)
    ensures var c, v := Exec(EMPTY, steps), Apply(Exec(EMPTY, steps), st);
      var n := |c.sessions|;
      && |v.sessions| == n + (if Begins(st) then 1 else 0)
      && (Begins(st) ==>
            && Follows(v, n) && !v.sessions[n].reading && !v.sessions[n].hooked && !v.sessions[n].settled
            && v.sessions[n].ended == v.sessions[n].settling == st.Depart?)
      && (st.CreateState? || st.Replace? ==> Current(v, n) && v.sessions[n].owner == v.attached)
      && (st.CreateState? ==> v.attached == Some(|c.states|) && |v.states| == |c.states| + 1)
      && (st.Replace? ==> v.attached == c.attached && |v.states| == |c.states|)
      && (st.Depart? ==> v.sessions[n].owner.None? && v.attached.None? && v.states == c.states)
      && (st.Detach? ==> v == c.(attached := None))
      && (!Begins(st) && !st.Detach? ==> v.attached == c.attached)
      && (v.stopped <==> c.stopped || st.StopSettling?)
      && (forall a: nat :: a < |c.states| ==> (v.states[a].closed <==> c.states[a].closed || st == CloseDetached(a)))
  {
    ReachedOk(steps);
    var c := Exec(EMPTY, steps);
    StepKeeps(c, st);
    var v, n := Apply(c, st), |c.sessions|;
    if Begins(st) {
      assert SessOk(v, n);
      hide AllSettled;
    }
    hide SessOk, StateOk, Fenced, Signals, Runs, Exec;
  }

  // ---------------------------------------------------------------- every end is signalled

  lemma EndedStays(c: Chain, st: Step, i: nat)
    requires Enabled(c, st) && IsSess(c, i) && c.sessions[i].ended
    ensures IsSess(Apply(c, st), i) && Apply(c, st).sessions[i].ended
  {
  }

  lemma {:induction false} EndedForever(c: Chain, steps: seq<Step>, i: nat)
    requires Runs(c, steps) && IsSess(c, i) && c.sessions[i].ended
    ensures IsSess(Exec(c, steps), i) && Exec(c, steps).sessions[i].ended
    decreases |steps|
  {
    if steps != [] {
      EndedStays(c, steps[0], i);
      hide Enabled, Apply;
      EndedForever(Apply(c, steps[0]), steps[1..], i);
    }
  }

  /** The signal of session `i` is in the log once more than `i` signals are. */
  lemma {:induction false} SignalIn(log: seq<Event>, n: nat, i: nat)
    requires Fenced(log) && n <= |log| && i < Signals(log[..n])
    ensures Signaled(i) in log
  {
    assert n > 0;
    assert log[..n][..n - 1] == log[..n - 1];
    if i < Signals(log[..n - 1]) {
      SignalIn(log, n - 1, i);
    } else {
      assert log[n - 1] == Signaled(i);
    }
  }

  lemma SettledWasSignalled(c: Chain, i: nat)
    requires Inv(c) && IsSess(c, i) && c.sessions[i].settled
    ensures Signaled(i) in c.log
  {
    assert SessOk(c, i);
    assert c.log[..|c.log|] == c.log;
    SignalIn(c.log, |c.log|, i);
  }

  /** Whenever a session has ended, settling steps alone lead to its signal. */
  lemma EndIsSignalled(steps: seq<Step>, i: nat) returns (more: seq<Step>)
    requires Runs(EMPTY, steps)
    requires var c := Exec(EMPTY, steps); !c.stopped && IsSess(c, i) && c.sessions[i].ended
    ensures Runs(Exec(EMPTY, steps), more) && forall k :: 0 <= k < |more| ==> Settling(more[k])
    ensures Signaled(i) in Exec(Exec(EMPTY, steps), more).log
  {
    var c := Exec(EMPTY, steps);
    ReachedOk(steps);
    more := ChainDrains(c);
    RunKeeps(c, more);
    EndedForever(c, more, i);
    hide Inv, Enabled, Apply, Runs, Exec;
    SettledWasSignalled(Exec(c, more), i);
  }

  // ---------------------------------------------------------------- the attached session delivers

  lemma {:induction false} RunsOn(c: Chain, steps: seq<Step>, st: Step)
    requires Runs(c, steps) && Enabled(Exec(c, steps), st)
    ensures Runs(c, steps + [st]) && Exec(c, steps + [st]) == Apply(Exec(c, steps), st)
    decreases |steps|
  {
    hide Enabled, Apply;
    var more := steps + [st];
    if steps == [] {
      assert more == [st] && more[1..] == [];
      assert Runs(Apply(c, st), []) && Exec(Apply(c, st), []) == Apply(c, st);
    } else {
      assert more[0] == steps[0] && more[1..] == steps[1..] + [st];
      RunsOn(Apply(c, steps[0]), steps[1..], st);
    }
  }

  lemma SettlingKeeps(c: Chain, st: Step)
    requires Enabled(c, st) && Settling(st)
    ensures Apply(c, st).attached == c.attached && |Apply(c, st).states| == |c.states| && |Apply(c, st).sessions| == |c.sessions|
    ensures forall a: nat :: a < |c.states| ==> Apply(c, st).states[a].sess == c.states[a].sess
  {
  }

  lemma {:induction false} SettlingRun(c: Chain, steps: seq<Step>)
    requires Runs(c, steps) && forall k :: 0 <= k < |steps| ==> Settling(steps[k])
    ensures var v := Exec(c, steps);
      v.attached == c.attached && |v.states| == |c.states| && |v.sessions| == |c.sessions| && forall a: nat :: a < |c.states| ==> v.states[a].sess == c.states[a].sess
    decreases |steps|
  {
    if steps != [] {
      SettlingKeeps(c, steps[0]);
      hide Enabled, Apply, Settling;
      SettlingRun(Apply(c, steps[0]), steps[1..]);
    }
  }

  /** In a drained chain the attached session's reader is in or may enter. */
  lemma DrainedReads(c: Chain, i: nat)
    requires Inv(c) && Drained(c) && Current(c, i)
    ensures IsSess(c, i) && (c.sessions[i].reading || Enabled(c, BeginRead(i)))
  {
    assert StateOk(c, c.attached.value) && SessOk(c, i);
    if c.sessions[i].predecessor.Some? { assert SessOk(c, i - 1); }
  }

  /** From every state before shutdown the session of the attached state can come to deliver, once the earlier ends are settled. */
  lemma AttachedCanDeliver(steps: seq<Step>, i: nat) returns (more: seq<Step>)
    requires Runs(EMPTY, steps) && !Exec(EMPTY, steps).stopped && Current(Exec(EMPTY, steps), i)
    ensures Runs(Exec(EMPTY, steps), more) && |more| > 0 && more[|more| - 1] == Deliver(i)
    ensures Delivered(i) in Exec(Exec(EMPTY, steps), more).log
  {
    var c := Exec(EMPTY, steps);
    ReachedOk(steps);
    more := ChainDrains(c);
    RunKeeps(c, more);
    SettlingRun(c, more);
    var v := Exec(c, more);
    DrainedReads(v, i);
    hide Inv, Runs, Exec, Settling, Drained, Fenced, Signals;
    if !v.sessions[i].reading {
      RunsOn(c, more, BeginRead(i));
      v := Apply(v, BeginRead(i));
      more := more + [BeginRead(i)];
    }
    RunsOn(c, more, Deliver(i));
    more := more + [Deliver(i)];
    assert Exec(c, more).log == v.log + [Delivered(i)];
  }
}
