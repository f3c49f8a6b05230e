/**
 * What the session protocol guarantees over every run: any number of sockets, cuts, resumes,
 * session ends, removals and restarts, in any interleaving.
 */
module ProtocolTheorems {
  import opened Frames
  import opened Links
  import opened Protocol
  import opened ProtocolInvariant
  import opened ProtocolSteps
  import opened ProtocolOrder

  /** A world some run reaches from the start. */
  ghost predicate Reached(w: World) {
    exists window: nat, steps :: Runs(Init(window), steps) && w == Exec(Init(window), steps)
  }

  lemma InitOk(window: nat, rank: nat -> nat)
    ensures Inv(Init(window)) && OrdInv(rank, Init(window))
  {
  }

  lemma {:induction false} RunOk(w: World, steps: seq<Step>)
    requires Inv(w) && Runs(w, steps)
    ensures Inv(Exec(w, steps))
    decreases |steps|
  {
    hide Inv, Enabled, Apply;
    if steps != [] {
      StepKeeps(w, steps[0]);
      RunOk(Apply(w, steps[0]), steps[1..]);
    }
  }

  lemma ReachedOk(w: World)
    requires Reached(w)
    ensures Inv(w)
  {
    hide Inv, Exec;
    var window: nat, steps :| Runs(Init(window), steps) && w == Exec(Init(window), steps);
    InitOk(window, n => n);
    RunOk(Init(window), steps);
  }

  // ---------------------------------------------------------------- delivery

  /**
   * Exactly-once, in-order delivery: what a session handed to its handler is frames 1, 2, 3, ...
   * of the one peer session it is bound to, and its cursor counts them.
   */
  lemma ExactlyOnce(w: World, id: nat)
    requires Reached(w) && IsSess(w, id)
    ensures var s := w.sessions[id];
      && s.recvNext - 1 <= |s.delivered| <= s.recvNext
      && (s.peer == 0 ==> s.delivered == [])
      && (s.peer != 0 ==> IsSess(w, s.peer) && w.sessions[s.peer].side == Other(s.side) && s.delivered <= w.sessions[s.peer].log)
  {
    hide EndOk, LinkOk, Joined;
    ReachedOk(w);
    assert LocalOk(w.sessions[id], w.window) && BoundOk(w, id);
  }

  /** No frame reaches two sessions: whoever delivers from a session is the one it is bound to. */
  lemma NoMixing(w: World, id: nat, q: nat)
    requires Reached(w) && IsSess(w, id) && IsSess(w, q)
    requires w.sessions[id].peer == w.sessions[q].peer != 0
    requires w.sessions[id].delivered != [] && w.sessions[q].delivered != []
    ensures id == q
  {
    hide EndOk, LocalOk, Joined;
    ReachedOk(w);
    assert BoundOk(w, id) && BoundOk(w, q);
  }

  /**
   * Behind an agreed RESUME a reader meets only what it expects: the writer is bound to this very
   * session, every ack is in range, and every sequenced frame is the successor of the last one,
   * so neither the duplicate nor the gap branch is ever taken.
   */
  lemma NextIsExpected(w: World, x: Side, k: nat)
    requires Reached(w) && Enabled(w, Read(x, k))
    ensures var e, o := EndAt(w, k, x), EndAt(w, k, Other(x));
      && e.phase == Ready && IsSess(w, o.sess)
      && Expected(e, o, w.sessions[e.sess], w.sessions[o.sess], o.wire[e.read])
  {
    ReachedOk(w);
    hide Inv;
    ReadExpected(w, x, k);
  }

  /** The only step that hands frames over is a read of the serving connection, one frame at a time. */
  lemma HandedByReads(w: World, st: Step, id: nat)
    requires Reached(w) && Enabled(w, st) && IsSess(w, id)
    requires Apply(w, st).sessions[id].delivered != w.sessions[id].delivered
    ensures var s, t := w.sessions[id], Apply(w, st).sessions[id];
      && st.Read? && EndAt(w, st.k, st.x).sess == id && s.server == st.k
      && var f := EndAt(w, st.k, Other(st.x)).wire[EndAt(w, st.k, st.x).read];
         && f.DataFrame? && f.num == s.recvNext == |s.delivered| + 1 && !s.ended
         && t.delivered == s.delivered + [Msg(f.kind, f.data)]
  {
    OthersHandNothing(w, st, id);
    ReachedOk(w);
    hide Inv;
    ServingFacts(w, st.k, st.x);
    ReadExpected(w, st.x, st.k);
    var e, o := EndAt(w, st.k, st.x), EndAt(w, st.k, Other(st.x));
    ConsumeShape(w.sessions[id], e, o, w.sessions[o.sess], st.k, o.wire[e.read]);
  }

  lemma OthersHandNothing(w: World, st: Step, id: nat)
    requires Enabled(w, st) && IsSess(w, id)
    requires Apply(w, st).sessions[id].delivered != w.sessions[id].delivered
    ensures st.Read? && EndAt(w, st.k, st.x).sess == id
  {
    hide Acknowledge, Take, Resend, Discard, AckInRange, Consume;
  }

  /** The sequenced frames an end has put on a socket count up from the cursor the peer announced there. */
  lemma WireCountsFromCursor(w: World, x: Side, k: nat)
    requires Reached(w) && IsSock(w, k) && EndAt(w, k, x).sess != 0
    ensures Counting(Nums(EndAt(w, k, x).wire), EndAt(w, k, Other(x)).announce)
  {
    hide LocalOk, BoundOk, ReadOk, WireOk;
    ReachedOk(w);
    assert EndOk(w, k, x);
  }

  // ---------------------------------------------------------------- retransmission

  /** The ring of a live session holds exactly the frames acked..sendNext-1, numbered in order. */
  lemma RingIsUnacknowledged(w: World, id: nat)
    requires Reached(w) && IsSess(w, id) && !w.sessions[id].ended
    ensures var s := w.sessions[id];
      && 1 <= s.link.acked && s.link.sendNext == |s.log| + 1 == s.link.acked + |s.link.ring|
      && forall i :: 0 <= i < |s.link.ring| ==>
           var m := s.log[s.link.acked - 1 + i];
           s.link.ring[i] == Entry(s.link.acked + i, m.kind, m.data)
  {
    hide EndOk, BoundOk;
    ReachedOk(w);
    assert LocalOk(w.sessions[id], w.window);
  }

  /** No frame is trimmed before the peer's handler returned from it, and none beyond what was sent is acknowledged. */
  lemma AckedWasHandled(w: World, id: nat)
    requires Reached(w) && IsSess(w, id) && w.sessions[id].peer != 0
    ensures var s := w.sessions[id];
      && IsSess(w, s.peer)
      && var p := w.sessions[s.peer];
         && 1 <= s.link.acked <= p.recvNext && s.link.acked <= s.link.sendNext == |s.log| + 1
         && s.log[..s.link.acked - 1] <= p.delivered
         && (p.peer == id ==> p.recvNext <= s.link.sendNext)
  {
    hide EndOk, LinkOk, Joined;
    ReachedOk(w);
    var s := w.sessions[id];
    assert LocalOk(s, w.window) && BoundOk(w, id);
    var p := w.sessions[s.peer];
    assert LocalOk(p, w.window) && BoundOk(w, s.peer);
  }

  // ---------------------------------------------------------------- conservation

  /** The messages of ring entries. */
  function Messages(ring: seq<Entry>): seq<Msg> {
    seq(|ring|, i requires 0 <= i < |ring| => Msg(ring[i].kind, ring[i].data))
  }

  /**
   * Every sequenced payload a session accepted is acknowledged, in the resend ring or in its class
   * queue, in that order; at the session's end what was drained or dropped makes up the rest.
   */
  lemma Conservation(w: World, id: nat, c: Class)
    requires Reached(w) && IsSess(w, id) && Sequenced(c)
    ensures var s := w.sessions[id];
      && c in s.accepted && c in s.link.queues && c in s.dropped
      && 1 <= s.link.acked <= |s.log| + 1
      && s.accepted[c] ==
         if s.ended then ByClass(s.log, c) + s.dropped[c]
         else ByClass(s.log[..s.link.acked - 1], c) + ByClass(Messages(s.link.ring), c) + s.link.queues[c]
  {
    hide Inv, LocalOk, ByClass, Messages, Reached;
    ReachedOk(w);
    SessionOk(w, id);
    SessionConserves(w.sessions[id], w.window, c);
  }

  lemma SessionOk(w: World, id: nat)
    requires Inv(w) && IsSess(w, id)
    ensures LocalOk(w.sessions[id], w.window)
  {
    hide LocalOk;
  }

  lemma SessionConserves(s: Session, window: nat, c: Class)
    requires LocalOk(s, window) && Sequenced(c)
    ensures
      && c in s.accepted && c in s.link.queues && c in s.dropped
      && 1 <= s.link.acked <= |s.log| + 1
      && s.accepted[c] ==
         if s.ended then ByClass(s.log, c) + s.dropped[c]
         else ByClass(s.log[..s.link.acked - 1], c) + ByClass(Messages(s.link.ring), c) + s.link.queues[c]
  {
    hide Bytes, ByClass;
    if !s.ended {
      LogSplits(s, c);
      assert s.accepted[c] == ByClass(s.log, c) + s.link.queues[c];
    }
  }

  lemma LogSplits(s: Session, c: Class)
    requires 1 <= s.link.acked && |s.log| + 1 == s.link.acked + |s.link.ring|
    requires forall i :: 0 <= i < |s.link.ring| ==>
      s.link.ring[i] == Entry(s.link.acked + i, s.log[s.link.acked - 1 + i].kind, s.log[s.link.acked - 1 + i].data)
    ensures ByClass(s.log, c) == ByClass(s.log[..s.link.acked - 1], c) + ByClass(Messages(s.link.ring), c)
  {
    assert s.log == s.log[..s.link.acked - 1] + Messages(s.link.ring);
    ByClassConcat(s.log[..s.link.acked - 1], Messages(s.link.ring), c);
  }

  /**
   * Within a session each class is a FIFO across the wire: what the peer delivered of a class is a
   * prefix of what this session accepted for it, so nothing accepted elsewhere slips in.
   */
  lemma ClassFifo(w: World, id: nat, c: Class)
    requires Reached(w) && IsSess(w, id) && Sequenced(c) && w.sessions[id].peer != 0
    ensures IsSess(w, w.sessions[id].peer)
    ensures var p := w.sessions[w.sessions[id].peer];
      c in p.accepted && ByClass(w.sessions[id].delivered, c) <= p.accepted[c]
  {
    ExactlyOnce(w, id);
    var s := w.sessions[id];
    var p := w.sessions[s.peer];
    ReachedOk(w);
    assert LocalOk(p, w.window);
    hide Inv, ByClass;
    assert s.delivered == p.log[..|s.delivered|];
    ByClassPrefix(p.log, |s.delivered|, c);
    assert ByClass(p.log, c) <= p.accepted[c];
  }

  // ---------------------------------------------------------------- no errors

  /** Both ends serve the sockets in the order of their ranks throughout. */
  ghost predicate RunsInOrder(rank: nat -> nat, w: World, steps: seq<Step>)
    decreases |steps|
  {
    steps != [] ==> Enabled(w, steps[0]) && InOrder(rank, w, steps[0]) && RunsInOrder(rank, Apply(w, steps[0]), steps[1..])
  }

  lemma {:induction false} InOrderRuns(rank: nat -> nat, w: World, steps: seq<Step>)
    requires RunsInOrder(rank, w, steps)
    ensures Runs(w, steps)
    decreases |steps|
  {
    hide Enabled, Apply;
    if steps != [] {
      InOrderRuns(rank, Apply(w, steps[0]), steps[1..]);
    }
  }

  lemma {:induction false} OrderedOk(rank: nat -> nat, w: World, steps: seq<Step>)
    requires Ranks(rank) && Inv(w) && OrdInv(rank, w) && RunsInOrder(rank, w, steps)
    ensures Runs(w, steps) && OrdInv(rank, Exec(w, steps))
    decreases |steps|
  {
    InOrderRuns(rank, w, steps);
    hide Inv, OrdInv, Enabled, Apply;
    if steps != [] {
      StepKeeps(w, steps[0]);
      StepOrd(rank, w, steps[0]);
      OrderedOk(rank, Apply(w, steps[0]), steps[1..]);
    }
  }

  /**
   * If both ends serve the pair's sockets in the same order, no reader of either end ever meets a
   * protocol error: no sequence gap, no ack out of range, no foreign view, no stray frame.
   */
  lemma NoProtocolError(window: nat, steps: seq<Step>, rank: nat -> nat, x: Side, k: nat)
    requires Ranks(rank) && RunsInOrder(rank, Init(window), steps)
    ensures Runs(Init(window), steps)
    ensures IsSock(Exec(Init(window), steps), k) ==> EndAt(Exec(Init(window), steps), k, x).phase != Failed
  {
    InitOk(window, rank);
    OrderedOk(rank, Init(window), steps);
    var w := Exec(Init(window), steps);
    if IsSock(w, k) {
      NotFailed(rank, w, x, k);
    }
  }
}
