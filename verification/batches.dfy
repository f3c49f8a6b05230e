/**
 * From buffers to protocol: a batch handed out by NodeState.DrainSession is a run of the protocol's
 * own drain steps, so everything proved of the protocol's runs holds of the concrete buffers.
 */
module Batches {
  import opened Frames
  import opened Links
  import opened Draining
  import opened Protocol

  lemma {:induction false} RunsAppend(w: World, a: seq<Step>, st: Step)
    requires Runs(w, a) && Enabled(Exec(w, a), st)
    ensures Runs(w, a + [st]) && Exec(w, a + [st]) == Apply(Exec(w, a), st)
    decreases |a|
  {
    hide Enabled, Apply;
    if a == [] {
      assert a + [st] == [st] && [st][1..] == [];
    } else {
      assert (a + [st])[0] == a[0] && (a + [st])[1..] == a[1..] + [st];
      RunsAppend(Apply(w, a[0]), a[1..], st);
    }
  }

  /** The world with one connection's outbox and its session's buffers moved on. */
  ghost predicate Drained(w: World, x: Side, k: nat, out: seq<Outbound>, link: Link, v: World)
    requires CanDrain(w, k, x)
  {
    && CanDrain(v, k, x) && v.window == w.window
    && EndAt(v, k, x) == EndAt(w, k, x).(outbox := EndAt(w, k, x).outbox + out)
    && v.sessions[EndAt(v, k, x).sess].link == link
  }

  lemma {:induction false} BatchIsRun(w: World, x: Side, k: nat, out: seq<Outbound>) returns (steps: seq<Step>)
    requires CanDrain(w, k, x)
    requires Replay(w.sessions[EndAt(w, k, x).sess].link, out, w.window).At?
    ensures |steps| == |out| && forall i :: 0 <= i < |steps| ==> steps[i] == DrainResend(x, k) || steps[i] == DrainTake(x, k, out[i].kind)
    ensures Runs(w, steps)
    ensures Drained(w, x, k, out, Replay(w.sessions[EndAt(w, k, x).sess].link, out, w.window).link, Exec(w, steps))
    decreases |out|
  {
    hide Enabled, Apply, DrainOne;
    var l := w.sessions[EndAt(w, k, x).sess].link;
    steps := [];
    if out == [] {
      assert EndAt(w, k, x).outbox + out == EndAt(w, k, x).outbox;
    } else {
      var front, f := out[..|out| - 1], out[|out| - 1];
      steps := BatchIsRun(w, x, k, front);
      var v := Exec(w, steps);
      hide Exec, Runs;
      var st := OneFrame(v, x, k, f);
      assert EndAt(w, k, x).outbox + out == (EndAt(w, k, x).outbox + front) + [f];
      RunsAppend(w, steps, st);
      steps := steps + [st];
    }
  }

  lemma OneFrame(v: World, x: Side, k: nat, f: Outbound) returns (st: Step)
    requires CanDrain(v, k, x) && DrainOne(v.sessions[EndAt(v, k, x).sess].link, f, v.window).At?
    ensures st == DrainResend(x, k) || st == DrainTake(x, k, f.kind)
    ensures Enabled(v, st)
    ensures Drained(v, x, k, [f], DrainOne(v.sessions[EndAt(v, k, x).sess].link, f, v.window).link, Apply(v, st))
  {
    st := if CanResend(v.sessions[EndAt(v, k, x).sess].link) then DrainResend(x, k) else DrainTake(x, k, f.kind);
  }

  /** Draining keeps the ring consecutive and within the window. */
  lemma {:induction false} ReplayOk(l: Link, out: seq<Outbound>, window: nat)
    requires LinkOk(l, window) && Replay(l, out, window).At?
    ensures LinkOk(Replay(l, out, window).link, window)
    ensures Replay(l, out, window).link.acked == l.acked
    decreases |out|
  {
    if out != [] {
      ReplayOk(l, out[..|out| - 1], window);
      var m := Replay(l, out[..|out| - 1], window).link;
      if !CanResend(m) {
        TakeOk(m, out[|out| - 1].kind, window);
      }
    }
  }

  /** Numbers of the sequenced frames of a batch. */
  function Numbers(out: seq<Outbound>): seq<nat> {
    if out == [] then []
    else Numbers(out[..|out| - 1]) + (if Sequenced(out[|out| - 1].kind) then [out[|out| - 1].num] else [])
  }

  /** Wire order equals sequence order: a batch numbers its sequenced frames without gap from the first unsent one. */
  lemma {:induction false} BatchNumbers(l: Link, out: seq<Outbound>, window: nat)
    requires LinkOk(l, window) && Replay(l, out, window).At?
    ensures forall i :: 0 <= i < |Numbers(out)| ==> Numbers(out)[i] == l.acked + l.sent + i
    ensures Replay(l, out, window).link.sent == l.sent + |Numbers(out)|
    decreases |out|
  {
    if out != [] {
      BatchNumbers(l, out[..|out| - 1], window);
      ReplayOk(l, out[..|out| - 1], window);
      hide Bytes;
    }
  }
}
