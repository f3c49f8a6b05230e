/**
 * What the protocol's steps bring about in every reached world: when a session ends and what follows it,
 * what a RESUME decides, and that what was accepted can be delivered.
 */
module ProtocolEffects {
  import opened Frames
  import opened Links
  import opened Protocol
  import opened ProtocolInvariant
  import opened ProtocolSteps
  import opened ProtocolTheorems

  // ---------------------------------------------------------------- session ends

  /** `t` is session `s` after its end: nothing waits to be sent, and what was queued is on record as dropped. */
  ghost predicate EndOf(s: Session, t: Session) {
    && t.ended && t.link.ring == [] && t.link.sent == 0
    && (forall c :: Sequenced(c) ==> c in t.link.queues && t.link.queues[c] == [])
    && (forall c :: Sequenced(c) ==> c in t.dropped && c in s.link.queues && t.dropped[c] == s.link.queues[c])
    && t.side == s.side && t.peer == s.peer && t.recvNext == s.recvNext && t.log == s.log && t.delivered == s.delivered && t.accepted == s.accepted
    && t.link.acked == s.link.acked && t.link.sendNext == s.link.sendNext
  }

  /** A session nothing has happened to, save gossip it may have inherited. */
  ghost predicate Unused(t: Session, x: Side) {
    && t.side == x && !t.ended && t.peer == 0 && t.server == 0
    && t.link.acked == 1 && t.link.sendNext == 1 && t.recvNext == 1 && t.link.ring == [] && t.link.sent == 0
    && (forall c :: Sequenced(c) ==> c in t.link.queues && t.link.queues[c] == [])
    && (forall c :: c in t.accepted && t.accepted[c] == [])
    && t.log == [] && t.delivered == []
  }

  /** Side `x`'s session has ended, and a fresh one that keeps its gossip, unless `all` goes, is current. */
  ghost predicate Succeeds(w: World, v: World, x: Side, all: bool) {
    var id := w.cur.At(x);
    && IsSess(w, id) && |v.sessions| == |w.sessions| + 1 && v.cur == w.cur.With(x, |w.sessions|)
    && EndOf(w.sessions[id], v.sessions[id])
    && Unused(v.sessions[|w.sessions|], x)
    && Gossip in w.sessions[id].link.queues && Gossip in v.sessions[|w.sessions|].link.queues
    && v.sessions[|w.sessions|].link.queues[Gossip] == (if all then [] else w.sessions[id].link.queues[Gossip])
    && (forall q: nat :: IsSess(w, q) && q != id ==> v.sessions[q] == w.sessions[q])
  }

  /** No session begins or ends. */
  ghost predicate SameLives(w: World, v: World) {
    && |v.sessions| == |w.sessions| && v.cur == w.cur
    && (forall q: nat :: IsSess(w, q) ==> v.sessions[q].ended == w.sessions[q].ended && v.sessions[q].dropped == w.sessions[q].dropped)
  }

  lemma SuccessorIs(w: World, x: Side, all: bool)
    requires IsSess(w, w.cur.At(x)) && Total(w.sessions[w.cur.At(x)].link.queues)
    ensures Succeeds(w, ReplaceSession(w, x, all), x, all)
  {
    NothingQueued();
  }

  lemma CurrentQueues(w: World, x: Side)
    requires Inv(w) && IsSess(w, w.cur.At(x))
    ensures Total(w.sessions[w.cur.At(x)].link.queues)
  {
    hide EndOk, BoundOk;
    assert LocalOk(w.sessions[w.cur.At(x)], w.window);
  }

  /** A RESUME at hand for end `k` of side `x`. */
  function Offer(w: World, x: Side, k: nat): WireFrame
    requires Enabled(w, ReadResume(x, k))
  {
    EndAt(w, k, Other(x)).wire[0]
  }

  /** The RESUME comes from another session than the one this current session is bound to. */
  predicate PeerReset(w: World, x: Side, k: nat)
    requires Enabled(w, ReadResume(x, k))
  {
    var id := EndAt(w, k, x).sess;
    Offer(w, x, k).Resume? && w.cur.At(x) == id && w.sessions[id].peer != 0 && Offer(w, x, k).id != w.sessions[id].peer
  }

  lemma OfferIsResume(w: World, x: Side, k: nat)
    requires Inv(w) && Enabled(w, ReadResume(x, k))
    ensures Offer(w, x, k).Resume? && Offer(w, x, k).id == EndAt(w, k, Other(x)).sess
  {
    hide EndOver, LocalOk, BoundOk;
    var o := EndAt(w, k, Other(x));
    assert EndOk(w, k, Other(x));
    OpensWithResume(k, o, EndAt(w, k, x), w.sessions[o.sess]);
  }

  /**
   * A RESUME from another peer session than the one bound ends the current session, discards what it had not
   * delivered, and makes a fresh session current; any other RESUME ends nothing.
   */
  lemma ResumeResets(w: World, x: Side, k: nat)
    requires Reached(w) && Enabled(w, ReadResume(x, k))
    ensures Offer(w, x, k).Resume?
    ensures var v := Apply(w, ReadResume(x, k));
      if PeerReset(w, x, k) then Succeeds(w, v, x, false) && IsSock(v, k) && EndAt(v, k, x).phase == Stopped else SameLives(w, v)
  {
    hide Reached, Inv;
    ReachedOk(w);
    OfferIsResume(w, x, k);
    if PeerReset(w, x, k) {
      CurrentQueues(w, x);
      var u := SetEnd(w, k, x, EndAt(w, k, x).(read := 1, phase := Stopped));
      SuccessorIs(u, x, false);
      SameSessions(w, u, x, false);
    } else {
      ResumeSpares(w, x, k);
    }
  }

  lemma ResumeSpares(w: World, x: Side, k: nat)
    requires Enabled(w, ReadResume(x, k)) && !PeerReset(w, x, k)
    ensures SameLives(w, Apply(w, ReadResume(x, k)))
  {
    hide Acknowledge, Rewind, AckInRange;
  }

  /** Succeeding does not look at sockets. */
  lemma SameSessions(w: World, u: World, x: Side, all: bool)
    requires u.sessions == w.sessions && u.cur == w.cur && IsSess(w, w.cur.At(x)) && Succeeds(u, ReplaceSession(u, x, all), x, all)
    ensures Succeeds(w, ReplaceSession(u, x, all), x, all)
  {
  }

  /** A protocol violation ends the session if it is still the current one, and nothing otherwise; the reader stops. */
  lemma FailureResets(w: World, x: Side, k: nat)
    requires Reached(w) && Enabled(w, FailSession(x, k))
    ensures var v := Apply(w, FailSession(x, k));
      && IsSock(v, k) && EndAt(v, k, x).phase == Stopped
      && if w.cur.At(x) == EndAt(w, k, x).sess then Succeeds(w, v, x, false) else SameLives(w, v)
  {
    hide Reached, Inv;
    ReachedOk(w);
    if w.cur.At(x) == EndAt(w, k, x).sess {
      CurrentQueues(w, x);
      var u := SetEnd(w, k, x, EndAt(w, k, x).(phase := Stopped));
      SuccessorIs(u, x, false);
      SameSessions(w, u, x, false);
    }
  }

  /** A peer restart ends the session with all its queues; a reset keeps the gossip. */
  lemma ReplacementResets(w: World, x: Side, all: bool)
    requires Reached(w) && Enabled(w, Replace(x, all))
    ensures Succeeds(w, Apply(w, Replace(x, all)), x, all)
  {
    hide Reached, Inv;
    ReachedOk(w);
    CurrentQueues(w, x);
    SuccessorIs(w, x, all);
  }

  /** A managed node begins with a fresh session, and its removal ends the one it had, with every queue. */
  lemma LivesBeginAndEnd(w: World, st: Step)
    requires Reached(w) && Enabled(w, st) && (st.CreateState? || st.Detach? || st.CloseDetached?)
    ensures var v := Apply(w, st);
      match st
      case CreateState(x) =>
        && |v.sessions| == |w.sessions| + 1 && v.cur == w.cur.With(x, |w.sessions|) && Unused(v.sessions[|w.sessions|], x)
        && v.sessions[..|w.sessions|] == w.sessions
      case Detach(x) => v.sessions == w.sessions && v.cur == w.cur.With(x, 0)
      case CloseDetached(id) =>
        && |v.sessions| == |w.sessions| && v.cur == w.cur && EndOf(w.sessions[id], v.sessions[id])
        && (forall c :: c in v.sessions[id].link.queues ==> v.sessions[id].link.queues[c] == [])
        && (forall q: nat :: IsSess(w, q) && q != id ==> v.sessions[q] == w.sessions[q])
      case _ => true
  {
    hide Reached, EndOk, BoundOk, LinkOk, ByClass;
    ReachedOk(w);
    NothingQueued();
    if st.CloseDetached? { assert LocalOk(w.sessions[st.id], w.window); }
    hide LocalOk;
  }

  /** Steps of other kinds begin and end no session. */
  lemma OthersEndNothing(w: World, st: Step)
    requires Enabled(w, st) && !st.CreateState? && !st.Detach? && !st.CloseDetached? && !st.Replace? && !st.FailSession? && !st.ReadResume?
    ensures SameLives(w, Apply(w, st))
  {
    hide Consume, Acknowledge, Take, Resend, Accept, TakeFrame, ResendFrame;
    if st.Read? {
      var e := EndAt(w, st.k, st.x);
      ConsumeLives(w.sessions[e.sess], e, st.k, EndAt(w, st.k, Other(st.x)).wire[e.read]);
    }
  }

  lemma ConsumeLives(s: Session, e: End, k: nat, f: WireFrame)
    ensures Consume(s, e, k, f).0.ended == s.ended && Consume(s, e, k, f).0.dropped == s.dropped
  {
    hide Acknowledge;
  }

  // ---------------------------------------------------------------- what a RESUME decides

  /** The RESUME is this session's to accept: from its peer, naming it or none, with an ack of what it sent. */
  predicate Acceptable(w: World, x: Side, k: nat)
    requires Enabled(w, ReadResume(x, k))
  {
    var id, f := EndAt(w, k, x).sess, Offer(w, x, k);
    f.Resume? && w.cur.At(x) == id && (f.view == 0 || f.view == id) && w.sessions[id].link.acked <= f.recv <= w.sessions[id].link.sendNext
  }

  /** The session after an accepted RESUME: bound to the peer, trimmed by its cursor, the rest to be sent again. */
  ghost predicate ResumedTo(s: Session, t: Session, f: WireFrame)
    requires f.Resume?
  {
    && t.peer == f.id && t.link.acked == f.recv && t.link.sent == 0
    && s.link.acked <= f.recv <= s.link.acked + |s.link.ring| && t.link.ring == s.link.ring[f.recv - s.link.acked..]
    && t.link.sendNext == s.link.sendNext && t.link.queues == s.link.queues
    && t.recvNext == s.recvNext && t.log == s.log && t.delivered == s.delivered && t.accepted == s.accepted
  }

  /** How the reader goes on after a RESUME it does not accept. */
  function Refusal(w: World, x: Side, k: nat): Phase
    requires Enabled(w, ReadResume(x, k)) && Offer(w, x, k).Resume?
  {
    var id, f := EndAt(w, k, x).sess, Offer(w, x, k);
    if w.cur.At(x) != id then Stopped
    else if f.view != 0 && f.view != id && w.sessions[id].peer == 0 then AwaitReset
    else Failed
  }

  /** Without a reset, an acceptable RESUME is accepted; any other leaves all sessions alone and says why. */
  lemma ResumeDecides(w: World, x: Side, k: nat)
    requires Reached(w) && Enabled(w, ReadResume(x, k)) && !PeerReset(w, x, k)
    ensures Offer(w, x, k).Resume?
    ensures var id, v := EndAt(w, k, x).sess, Apply(w, ReadResume(x, k));
      && IsSock(v, k) && IsSess(v, id)
      && EndAt(v, k, x).read == 1 && EndAt(v, k, x).resumed == Acceptable(w, x, k)
      && (if Acceptable(w, x, k) then EndAt(v, k, x).phase == Ready && ResumedTo(w.sessions[id], v.sessions[id], Offer(w, x, k))
          else EndAt(v, k, x).phase == Refusal(w, x, k) && v.sessions == w.sessions)
  {
    hide Reached, Inv, Apply, ResumedTo, Refusal;
    ReachedOk(w);
    OfferIsResume(w, x, k);
    NotResumedYet(w, x, k);
    if Acceptable(w, x, k) { Accepts(w, x, k); } else { Refuses(w, x, k); }
  }

  lemma Accepts(w: World, x: Side, k: nat)
    requires Inv(w) && Enabled(w, ReadResume(x, k)) && !PeerReset(w, x, k) && Acceptable(w, x, k)
    ensures var id, v := EndAt(w, k, x).sess, Apply(w, ReadResume(x, k));
      && IsSock(v, k) && IsSess(v, id) && EndAt(v, k, x) == EndAt(w, k, x).(read := 1, phase := Ready, resumed := true)
      && EndAt(v, k, Other(x)) == EndAt(w, k, Other(x)) && v.cur == w.cur && v.window == w.window && |v.sessions| == |w.sessions|
      && ResumedTo(w.sessions[id], v.sessions[id], Offer(w, x, k)) && !v.sessions[id].ended
      && (forall q: nat :: IsSess(w, q) && q != id ==> v.sessions[q] == w.sessions[q])
  {
    hide Inv, LinkOk, Acknowledge;
    var l, f := w.sessions[EndAt(w, k, x).sess].link, Offer(w, x, k);
    LiveCurrent(w, x);
    RingSpans(l, w.window);
    AcknowledgeOk(l, f.recv, w.window);
    AcknowledgeShape(l, f.recv);
  }

  lemma RingSpans(l: Link, window: nat)
    requires LinkOk(l, window)
    ensures l.sendNext == l.acked + |l.ring|
  {
  }

  lemma Refuses(w: World, x: Side, k: nat)
    requires Enabled(w, ReadResume(x, k)) && Offer(w, x, k).Resume? && !PeerReset(w, x, k) && !Acceptable(w, x, k)
    ensures var v := Apply(w, ReadResume(x, k));
      && IsSock(v, k) && v.sessions == w.sessions
      && EndAt(v, k, x) == EndAt(w, k, x).(read := 1, phase := Refusal(w, x, k))
  {
    hide Acknowledge, Rewind;
  }

  lemma NotResumedYet(w: World, x: Side, k: nat)
    requires Inv(w) && Enabled(w, ReadResume(x, k))
    ensures !EndAt(w, k, x).resumed
  {
    hide LocalOk, BoundOk, SendOk;
    assert EndOk(w, k, x);
  }

  lemma LiveCurrent(w: World, x: Side)
    requires Inv(w) && IsSess(w, w.cur.At(x))
    ensures !w.sessions[w.cur.At(x)].ended && LinkOk(w.sessions[w.cur.At(x)].link, w.window)
  {
    hide EndOk, BoundOk, LinkOk;
    assert LocalOk(w.sessions[w.cur.At(x)], w.window);
  }

  /** `t` is session `s` with payload `d` behind what it accepted and queued of class `c`. */
  ghost predicate Joins(s: Session, t: Session, c: Class, d: Data) {
    && Total(s.link.queues) && Total(s.accepted) && Total(t.link.queues) && Total(t.accepted)
    && t.link.queues[c] == s.link.queues[c] + [d] && t.accepted[c] == s.accepted[c] + [d]
    && (forall b :: b != c ==> t.link.queues[b] == s.link.queues[b] && t.accepted[b] == s.accepted[b])
    && t == s.(link := s.link.(queues := t.link.queues), accepted := t.accepted)
  }

  /** What an attached node accepts joins its session's queue for the class, and nothing else moves. */
  lemma EnqueueAccepts(w: World, x: Side, c: Class, d: Data)
    requires Reached(w) && w.cur.At(x) != 0
    ensures IsSess(w, w.cur.At(x)) && Enabled(w, Enqueue(x, c, d))
    ensures var id, v := w.cur.At(x), Apply(w, Enqueue(x, c, d));
      && |v.sessions| == |w.sessions| && v.cur == w.cur && v.socks == w.socks
      && Joins(w.sessions[id], v.sessions[id], c, d)
      && (forall q: nat :: IsSess(w, q) && q != id ==> v.sessions[q] == w.sessions[q])
  {
    hide Reached, Inv, Joins;
    ReachedOk(w);
    CurrentAccepts(w, x);
    AcceptJoins(w.sessions[w.cur.At(x)], c, d);
  }

  lemma CurrentAccepts(w: World, x: Side)
    requires Inv(w) && w.cur.At(x) != 0
    ensures IsSess(w, w.cur.At(x)) && Total(w.sessions[w.cur.At(x)].link.queues) && Total(w.sessions[w.cur.At(x)].accepted)
  {
    hide EndOk, BoundOk, LinkOk;
    assert CurOk(w, x);
    assert LocalOk(w.sessions[w.cur.At(x)], w.window);
  }

  lemma AcceptJoins(s: Session, c: Class, d: Data)
    requires Total(s.link.queues) && Total(s.accepted)
    ensures Joins(s, s.(link := Accept(s.link, c, d), accepted := s.accepted[c := s.accepted[c] + [d]]), c, d)
  {
  }

  // ---------------------------------------------------------------- what was accepted can be delivered

  /** Some run leads from `w` to `v`. */
  ghost predicate Leads(w: World, v: World) {
    exists steps :: Runs(w, steps) && Exec(w, steps) == v
  }

  lemma {:induction false} RunsOn(w: World, steps: seq<Step>, st: Step)
    requires Runs(w, steps) && Enabled(Exec(w, steps), st)
    ensures Runs(w, steps + [st]) && Exec(w, steps + [st]) == Apply(Exec(w, steps), st)
    decreases |steps|
  {
    hide Enabled, Apply;
    var more := steps + [st];
    if steps == [] {
      assert more == [st] && more[1..] == [];
      assert Runs(Apply(w, st), []) && Exec(Apply(w, st), []) == Apply(w, st);
    } else {
      assert more[0] == steps[0] && more[1..] == steps[1..] + [st];
      RunsOn(Apply(w, steps[0]), steps[1..], st);
    }
  }

  lemma LeadsSelf(w: World)
    ensures Leads(w, w)
  {
    assert Runs(w, []) && Exec(w, []) == w;
  }

  /** One more step, which keeps the invariant. */
  lemma Goes(w0: World, w: World, st: Step) returns (v: World)
    requires Leads(w0, w) && Inv(w) && Enabled(w, st)
    ensures Leads(w0, v) && Inv(v) && v == Apply(w, st)
  {
    hide Enabled, Apply, Inv;
    var steps :| Runs(w0, steps) && Exec(w0, steps) == w;
    RunsOn(w0, steps, st);
    StepKeeps(w, st);
    v := Apply(w, st);
  }

  /** This end of socket `k` serves a live session behind an agreed RESUME, uncut and between frames. */
  ghost predicate EndUp(w: World, k: nat, x: Side) {
    && Serving(w, k, x)
    && var e := EndAt(w, k, x);
       e.announce != 0 && e.resumed && !e.cut && e.phase == Ready && !w.sessions[e.sess].ended
  }

  ghost predicate Linked(w: World, k: nat) {
    EndUp(w, k, Left) && EndUp(w, k, Right)
  }

  lemma Ups(w: World, k: nat, x: Side)
    ensures Linked(w, k) <==> EndUp(w, k, x) && EndUp(w, k, Other(x))
  {
  }

  /** A session that read on: it sent nothing new, and delivered no less. */
  ghost predicate ReadOn(s: Session, t: Session) {
    && t.side == s.side && t.peer == s.peer && !t.ended && t.log == s.log && t.accepted == s.accepted && s.delivered <= t.delivered
    && t.link.queues == s.link.queues && t.link.sendNext == s.link.sendNext
  }

  /** Side `x` of socket `k` read on, and the other side stands still. */
  ghost predicate Heard(w: World, v: World, x: Side, k: nat)
    requires Linked(w, k)
  {
    var e, o := EndAt(w, k, x), EndAt(w, k, Other(x));
    && Linked(v, k) && |v.sessions| == |w.sessions| && v.window == w.window
    && EndAt(v, k, x) == e.(read := EndAt(v, k, x).read) && EndAt(v, k, Other(x)) == o
    && ReadOn(w.sessions[e.sess], v.sessions[e.sess]) && v.sessions[o.sess] == w.sessions[o.sess]
  }

  lemma TwoSessions(w: World, k: nat, x: Side)
    requires Inv(w) && Linked(w, k)
    ensures EndAt(w, k, x).sess != EndAt(w, k, Other(x)).sess
  {
    hide EndOver, LocalOk, BoundOk;
    assert EndOk(w, k, x) && EndOk(w, k, Other(x));
  }

  lemma TouchIs(w: World, k: nat, x: Side, f: End, t: Session)
    requires Serving(w, k, x)
    ensures var v := Touch(w, k, x, f, t);
      && IsSock(v, k) && EndAt(v, k, x) == f && EndAt(v, k, Other(x)) == EndAt(w, k, Other(x)) && |v.sessions| == |w.sessions| && v.window == w.window
      && v.sessions[EndAt(w, k, x).sess] == t
      && (forall q: nat :: IsSess(w, q) && q != EndAt(w, k, x).sess ==> v.sessions[q] == w.sessions[q])
  {
  }

  /** The next frame on the wire is read, and handled if it is handed over. */
  lemma HearsOne(w0: World, w: World, x: Side, k: nat) returns (v: World)
    requires Leads(w0, w) && Inv(w) && Linked(w, k) && EndAt(w, k, x).read < |EndAt(w, k, Other(x)).wire|
    ensures Leads(w0, v) && Inv(v) && Heard(w, v, x, k) && EndAt(v, k, x).read == EndAt(w, k, x).read + 1
  {
    hide Inv, Leads, Consume, Acknowledge;
    Ups(w, k, x);
    TwoSessions(w, k, x);
    ReadExpected(w, x, k);
    ServingFacts(w, k, x);
    var e, o := EndAt(w, k, x), EndAt(w, k, Other(x));
    var s, so, f := w.sessions[e.sess], w.sessions[o.sess], o.wire[e.read];
    ConsumeShape(s, e, o, so, k, f);
    AckedShape(s, k, AckOf(f));
    var (t, g) := Consume(s, e, k, f);
    v := Goes(w0, w, Read(x, k));
    assert v == Touch(w, k, x, g, t);
    TouchIs(w, k, x, g, t);
    if g.phase.Handling? {
      var u := v;
      assert Serving(u, k, x);
      v := Goes(w0, u, Finish(x, k));
      assert v == Touch(u, k, x, g.(phase := Ready), t.(recvNext := g.phase.num + 1));
      TouchIs(u, k, x, g.(phase := Ready), t.(recvNext := g.phase.num + 1));
    }
    Ups(v, k, x);
  }

  lemma AckedShape(s: Session, k: nat, ack: nat)
    ensures var t := Acked(s, k, ack);
      && t.side == s.side && t.peer == s.peer && t.ended == s.ended && t.log == s.log && t.accepted == s.accepted && t.delivered == s.delivered
      && t.link.queues == s.link.queues && t.link.sendNext == s.link.sendNext
  {
    AcknowledgeShape(s.link, ack);
    hide Acknowledge;
  }

  lemma ReadsOn(s: Session, t: Session, u: Session)
    requires ReadOn(s, t) && ReadOn(t, u)
    ensures ReadOn(s, u)
  {
  }

  /** Everything on the wire is read. */
  lemma {:induction false} HearsAll(w0: World, w: World, x: Side, k: nat) returns (v: World)
    requires Leads(w0, w) && Inv(w) && Linked(w, k)
    ensures Leads(w0, v) && Inv(v) && Heard(w, v, x, k) && EndAt(v, k, x).read == |EndAt(w, k, Other(x)).wire|
    decreases |EndAt(w, k, Other(x)).wire| - EndAt(w, k, x).read
  {
    hide Inv, Leads, ReadOn;
    Ups(w, k, x);
    ReadBound(w, k, x);
    if EndAt(w, k, x).read == |EndAt(w, k, Other(x)).wire| {
      v := w;
      SameReadOn(w, k, x);
    } else {
      var u := HearsOne(w0, w, x, k);
      Ups(u, k, x);
      v := HearsAll(w0, u, x, k);
      var id := EndAt(w, k, x).sess;
      ReadsOn(w.sessions[id], u.sessions[id], v.sessions[id]);
    }
  }

  lemma SameReadOn(w: World, k: nat, x: Side)
    requires Linked(w, k)
    ensures ReadOn(w.sessions[EndAt(w, k, x).sess], w.sessions[EndAt(w, k, x).sess])
  {
  }

  lemma ReadBound(w: World, k: nat, x: Side)
    requires Inv(w) && IsSock(w, k)
    ensures EndAt(w, k, x).read <= |EndAt(w, k, Other(x)).wire|
  {
    hide LocalOk, BoundOk, SendOk;
    assert EndOk(w, k, x);
  }

  /** Side `x` of socket `k` wrote what it had drained; no session and no other end moved. */
  ghost predicate Wrote(w: World, v: World, x: Side, k: nat)
    requires Linked(w, k)
  {
    && Linked(v, k) && v.sessions == w.sessions && v.window == w.window
    && EndAt(v, k, x) == EndAt(w, k, x).(outbox := [], wire := EndAt(v, k, x).wire) && EndAt(v, k, Other(x)) == EndAt(w, k, Other(x))
  }

  lemma {:induction false} WritesAll(w0: World, w: World, x: Side, k: nat) returns (v: World)
    requires Leads(w0, w) && Inv(w) && Linked(w, k)
    ensures Leads(w0, v) && Inv(v) && Wrote(w, v, x, k)
    decreases |EndAt(w, k, x).outbox|
  {
    hide Inv, Leads;
    Ups(w, k, x);
    if EndAt(w, k, x).outbox == [] {
      v := w;
    } else {
      var u := Goes(w0, w, Write(x, k));
      Ups(u, k, x);
      v := WritesAll(w0, u, x, k);
    }
  }

  /** All that side `x` sent on the socket is read, and nothing it drained waits to be written. */
  ghost predicate Flushed(w: World, x: Side, k: nat) {
    Linked(w, k) && EndAt(w, k, x).outbox == [] && EndAt(w, k, Other(x)).read == |EndAt(w, k, x).wire|
  }

  /** What side `x` has sent of its ring is what the peer has delivered. */
  lemma FlushedMeans(w: World, x: Side, k: nat)
    requires Inv(w) && Flushed(w, x, k)
    ensures var s, p := w.sessions[EndAt(w, k, x).sess], w.sessions[EndAt(w, k, Other(x)).sess];
      && |p.delivered| + 1 == s.link.acked + s.link.sent && s.link.sendNext == s.link.acked + |s.link.ring| == |s.log| + 1
      && p.recvNext == |p.delivered| + 1 && p.delivered <= s.log && s.link.sent <= |s.link.ring|
      && Total(s.link.queues) && s.peer == EndAt(w, k, Other(x)).sess && p.peer == EndAt(w, k, x).sess
      && (forall c :: Sequenced(c) ==> c in s.accepted && s.accepted[c] == ByClass(s.log, c) + s.link.queues[c])
  {
    hide BoundOk;
    Ups(w, k, x);
    var e, o := EndAt(w, k, x), EndAt(w, k, Other(x));
    assert EndOk(w, k, x) && EndOk(w, k, Other(x)) && LocalOk(w.sessions[e.sess], w.window);
    assert BoundOk(w, o.sess);
    hide Bytes, ByClass, WireOk, Counting, Joined, IsFrame;
    BoundHas(w, o.sess);
    assert e.wire[..|e.wire|] == e.wire;
    assert OutNums([]) == [];
  }

  lemma BoundHas(w: World, id: nat)
    requires IsSess(w, id) && BoundOk(w, id) && w.sessions[id].peer != 0
    ensures IsSess(w, w.sessions[id].peer) && w.sessions[id].delivered <= w.sessions[w.sessions[id].peer].log
  {
  }

  /** Everything drained so far reaches the peer. */
  lemma Flushes(w0: World, w: World, x: Side, k: nat) returns (v: World)
    requires Leads(w0, w) && Inv(w) && Linked(w, k)
    ensures Leads(w0, v) && Inv(v) && Flushed(v, x, k) && |v.sessions| == |w.sessions| && v.window == w.window
    ensures EndAt(v, k, x).sess == EndAt(w, k, x).sess && EndAt(v, k, Other(x)).sess == EndAt(w, k, Other(x)).sess
    ensures v.sessions[EndAt(w, k, x).sess] == w.sessions[EndAt(w, k, x).sess]
    ensures ReadOn(w.sessions[EndAt(w, k, Other(x)).sess], v.sessions[EndAt(w, k, Other(x)).sess])
  {
    hide Inv, Leads, ReadOn;
    Ups(w, k, x);
    var u := WritesAll(w0, w, x, k);
    Ups(u, k, x);
    v := HearsAll(w0, u, Other(x), k);
    Ups(v, k, x);
    assert Other(Other(x)) == x;
  }

  /** The peer's cumulative ack comes back: the sender's ring is empty once all it sent is delivered. */
  lemma Acknowledges(w0: World, w: World, x: Side, k: nat) returns (v: World)
    requires Leads(w0, w) && Inv(w) && Flushed(w, x, k) && w.sessions[EndAt(w, k, x).sess].link.sent == |w.sessions[EndAt(w, k, x).sess].link.ring|
    ensures Leads(w0, v) && Inv(v) && Flushed(v, x, k) && |v.sessions| == |w.sessions| && v.window == w.window
    ensures EndAt(v, k, x).sess == EndAt(w, k, x).sess && EndAt(v, k, Other(x)).sess == EndAt(w, k, Other(x)).sess
    ensures ReadOn(w.sessions[EndAt(w, k, x).sess], v.sessions[EndAt(w, k, x).sess])
    ensures v.sessions[EndAt(w, k, x).sess].link.ring == [] && v.sessions[EndAt(w, k, x).sess].link.sent == 0
    ensures v.sessions[EndAt(w, k, Other(x)).sess] == w.sessions[EndAt(w, k, Other(x)).sess]
  {
    hide Inv, Leads;
    Ups(w, k, x);
    FlushedMeans(w, x, k);
    var y := Other(x);
    assert Other(y) == x;
    var a := Goes(w0, w, LoadAck(y, k));
    Ups(a, k, x);
    var b := Goes(w0, a, WriteAck(y, k));
    Ups(b, k, x);
    v := HearsAll(w0, b, x, k);
    Ups(v, k, x);
    LastAck(v, x, k);
    assert EndAt(v, k, y).wire == EndAt(w, k, y).wire + [AckFrame(w.sessions[EndAt(w, k, y).sess].recvNext)];
    FlushedMeans(v, x, k);
  }

  /** A reader between frames knows the ack of the last one. */
  lemma LastAck(w: World, x: Side, k: nat)
    requires Inv(w) && Linked(w, k) && EndAt(w, k, x).read == |EndAt(w, k, Other(x)).wire|
    ensures EndAt(w, k, Other(x)).wire != []
    ensures w.sessions[EndAt(w, k, x).sess].link.acked == AckOf(EndAt(w, k, Other(x)).wire[|EndAt(w, k, Other(x)).wire| - 1])
  {
    hide LocalOk, BoundOk, SendOk, Shape;
    Ups(w, k, x);
    assert EndOk(w, k, x);
  }

  /** Sequenced payloads waiting in the queues. */
  function Waiting(q: Queues): nat {
    Length(q, RaftControl) + Length(q, RaftRPC) + Length(q, PGBroadcast) + Length(q, Surface)
  }

  function Length(q: Queues, c: Class): nat {
    if c in q then |q[c]| else 0
  }

  lemma SomeWaits(q: Queues) returns (c: Class)
    requires Total(q) && Waiting(q) > 0
    ensures Sequenced(c) && q[c] != []
  {
    c := if q[RaftControl] != [] then RaftControl else if q[RaftRPC] != [] then RaftRPC else if q[PGBroadcast] != [] then PGBroadcast else Surface;
  }

  lemma NoneWaits(q: Queues, c: Class)
    requires Total(q) && Waiting(q) == 0 && Sequenced(c)
    ensures q[c] == []
  {
  }

  lemma WaitsLess(q: Queues, c: Class)
    requires Total(q) && Sequenced(c) && q[c] != []
    ensures Waiting(q[c := q[c][1..]]) == Waiting(q) - 1
  {
  }

  /** What the sender of the linked socket has still to get across. */
  function ToSend(s: Session): int {
    |s.link.ring| - s.link.sent + Waiting(s.link.queues)
  }

  /** The session as it moves along: bound as it was, alive, with all it accepted. */
  ghost predicate Alike(s: Session, t: Session) {
    t.side == s.side && t.peer == s.peer && !t.ended && t.accepted == s.accepted
  }

  /** One frame more is drained: the oldest to be sent again, or else one that waits. */
  lemma DrainsOne(w0: World, w: World, x: Side, k: nat) returns (v: World)
    requires Leads(w0, w) && Inv(w) && Flushed(w, x, k) && ToSend(w.sessions[EndAt(w, k, x).sess]) > 0
    ensures Leads(w0, v) && Inv(v) && Linked(v, k)
    ensures EndAt(v, k, x).sess == EndAt(w, k, x).sess && EndAt(v, k, Other(x)).sess == EndAt(w, k, Other(x)).sess
    ensures Alike(w.sessions[EndAt(w, k, x).sess], v.sessions[EndAt(w, k, x).sess])
    ensures ToSend(v.sessions[EndAt(w, k, x).sess]) == ToSend(w.sessions[EndAt(w, k, x).sess]) - 1
  {
    hide Inv, Leads;
    Ups(w, k, x);
    FlushedMeans(w, x, k);
    var id := EndAt(w, k, x).sess;
    var s := w.sessions[id];
    if CanResend(s.link) {
      v := Goes(w0, w, DrainResend(x, k));
      assert v == Touch(w, k, x, EndAt(w, k, x).(outbox := EndAt(w, k, x).outbox + [ResendFrame(s.link)]), s.(link := Resend(s.link)));
      TouchIs(w, k, x, EndAt(w, k, x).(outbox := EndAt(w, k, x).outbox + [ResendFrame(s.link)]), s.(link := Resend(s.link)));
      TwoSessions(w, k, x);
      Ups(v, k, x);
    } else {
      var u := Acknowledges(w0, w, x, k);
      v := TakesOne(w0, u, x, k);
    }
  }

  lemma TakesOne(w0: World, w: World, x: Side, k: nat) returns (v: World)
    requires Leads(w0, w) && Inv(w) && Flushed(w, x, k) && w.sessions[EndAt(w, k, x).sess].link.ring == []
    requires w.sessions[EndAt(w, k, x).sess].link.sent == 0 && Waiting(w.sessions[EndAt(w, k, x).sess].link.queues) > 0
    ensures Leads(w0, v) && Inv(v) && Linked(v, k)
    ensures EndAt(v, k, x).sess == EndAt(w, k, x).sess && EndAt(v, k, Other(x)).sess == EndAt(w, k, Other(x)).sess
    ensures Alike(w.sessions[EndAt(w, k, x).sess], v.sessions[EndAt(w, k, x).sess])
    ensures ToSend(v.sessions[EndAt(w, k, x).sess]) == ToSend(w.sessions[EndAt(w, k, x).sess]) - 1
  {
    hide Inv, Leads, Waiting;
    Ups(w, k, x);
    FlushedMeans(w, x, k);
    TwoSessions(w, k, x);
    var e, s := EndAt(w, k, x), w.sessions[EndAt(w, k, x).sess];
    var c := SomeWaits(s.link.queues);
    WaitsLess(s.link.queues, c);
    var f := TakeFrame(s.link, c, w.window);
    var t := s.(link := Take(s.link, c, w.window), log := s.log + [Msg(c, f.data)]);
    v := Goes(w0, w, DrainTake(x, k, c));
    assert v == Touch(w, k, x, e.(outbox := e.outbox + [f]), t);
    TouchIs(w, k, x, e.(outbox := e.outbox + [f]), t);
    Ups(v, k, x);
  }

  /** All a side accepted reaches the peer's handler. */
  lemma {:induction false} SendsAll(w0: World, w: World, x: Side, k: nat) returns (v: World)
    requires Leads(w0, w) && Inv(w) && Flushed(w, x, k) && ToSend(w.sessions[EndAt(w, k, x).sess]) >= 0
    ensures Leads(w0, v) && Inv(v) && Flushed(v, x, k)
    ensures EndAt(v, k, x).sess == EndAt(w, k, x).sess && EndAt(v, k, Other(x)).sess == EndAt(w, k, Other(x)).sess
    ensures Alike(w.sessions[EndAt(w, k, x).sess], v.sessions[EndAt(w, k, x).sess])
    ensures ToSend(v.sessions[EndAt(w, k, x).sess]) == 0
    decreases ToSend(w.sessions[EndAt(w, k, x).sess])
  {
    hide Inv, Leads, ToSend;
    Ups(w, k, x);
    if ToSend(w.sessions[EndAt(w, k, x).sess]) == 0 {
      v := w;
    } else {
      var u := DrainsOne(w0, w, x, k);
      u := Flushes(w0, u, x, k);
      v := SendsAll(w0, u, x, k);
    }
  }

  /** Of what side `x`'s session accepted, everything sequenced is delivered to its peer, class by class in order. */
  ghost predicate Across(v: World, id: nat, accepted: Queues) {
    && IsSess(v, id) && IsSess(v, v.sessions[id].peer)
    && var p := v.sessions[v.sessions[id].peer];
       p.peer == id && p.delivered == v.sessions[id].log && forall c :: Sequenced(c) ==> c in accepted && ByClass(p.delivered, c) == accepted[c]
  }

  /**
   * While a socket links two live sessions, everything either of them has accepted can be delivered over it: some
   * run drains, writes, reads, handles and acknowledges until the peer has it all.
   */
  lemma AcceptedCanBeDelivered(w: World, k: nat, x: Side) returns (v: World)
    requires Reached(w) && Linked(w, k)
    ensures Leads(w, v) && Across(v, EndAt(w, k, x).sess, w.sessions[EndAt(w, k, x).sess].accepted)
  {
    hide Reached, Inv, Leads, ToSend, Waiting;
    ReachedOk(w);
    LeadsSelf(w);
    var id := EndAt(w, k, x).sess;
    var u := Flushes(w, w, x, k);
    SentInRing(u, x, k);
    v := SendsAll(w, u, x, k);
    Arrived(v, x, k);
  }

  lemma SentInRing(w: World, x: Side, k: nat)
    requires Inv(w) && Flushed(w, x, k)
    ensures ToSend(w.sessions[EndAt(w, k, x).sess]) >= 0
  {
    hide Inv;
    FlushedMeans(w, x, k);
  }

  lemma Arrived(v: World, x: Side, k: nat)
    requires Inv(v) && Flushed(v, x, k) && ToSend(v.sessions[EndAt(v, k, x).sess]) == 0
    ensures Across(v, EndAt(v, k, x).sess, v.sessions[EndAt(v, k, x).sess].accepted)
  {
    hide Inv, Waiting, ByClass;
    Ups(v, k, x);
    FlushedMeans(v, x, k);
    var s, p := v.sessions[EndAt(v, k, x).sess], v.sessions[EndAt(v, k, Other(x)).sess];
    assert p.delivered == s.log;
    forall c | Sequenced(c) ensures c in s.accepted && ByClass(p.delivered, c) == s.accepted[c] {
      NoneWaits(s.link.queues, c);
    }
  }

  // ---------------------------------------------------------------- sockets can link sessions

  /** A connection that has sent its RESUME for session `s`, numbered `id`, and read nothing. */
  function Announcing(id: nat, s: Session): End {
    UNUSED.(sess := id, running := true, announce := s.recvNext, view := s.peer, ackLoaded := s.recvNext, wire := [Resume(id, s.peer, s.recvNext)])
  }

  /** Both sides are managed, and no connection serves their sessions. */
  ghost predicate Idle(w: World, x: Side) {
    IsSess(w, w.cur.At(x)) && w.sessions[w.cur.At(x)].server == 0
  }

  /** Both ends of socket `k` have sent their RESUMEs, for the sessions current in `w`. */
  ghost predicate Met(w: World, v: World, k: nat, x: Side) {
    && IsSock(v, k) && |v.sessions| == |w.sessions| && v.cur == w.cur && v.window == w.window
    && IsSess(w, w.cur.At(x)) && EndAt(v, k, x) == Announcing(w.cur.At(x), w.sessions[w.cur.At(x)])
    && v.sessions[w.cur.At(x)] == w.sessions[w.cur.At(x)].(server := k)
  }

  lemma TwoCurrent(w: World)
    requires Inv(w) && IsSess(w, w.cur.left) && IsSess(w, w.cur.right)
    ensures w.cur.left != w.cur.right
  {
    hide EndOk, BoundOk, LocalOk;
    assert CurOk(w, Left) && CurOk(w, Right);
  }

  /** A new socket, adopted and announced by both sides. */
  lemma Meets(w0: World, w: World) returns (v: World, k: nat)
    requires Leads(w0, w) && Inv(w) && Idle(w, Left) && Idle(w, Right)
    ensures Leads(w0, v) && Inv(v) && Met(w, v, k, Left) && Met(w, v, k, Right) && k == |w.socks|
    ensures forall q: nat :: IsSess(w, q) && q != w.cur.left && q != w.cur.right ==> v.sessions[q] == w.sessions[q]
  {
    hide Inv, Leads;
    TwoCurrent(w);
    k := |w.socks|;
    v := Goes(w0, w, Connect);
    SockAfter(w, k);
    v := Goes(w0, v, Adopt(Left, k));
    v := Goes(w0, v, Adopt(Right, k));
    assert EndAt(v, k, Left) == UNUSED.(sess := w.cur.left, running := true) && EndAt(v, k, Right) == UNUSED.(sess := w.cur.right, running := true);
    v := Goes(w0, v, Announce(Left, k));
    v := Goes(w0, v, Announce(Right, k));
  }

  lemma SockAfter(w: World, k: nat)
    requires Inv(w) && k == |w.socks|
    ensures IsSock(Apply(w, Connect), k)
  {
  }

  /** The sessions of the two sides are bound to each other, or to nobody yet. */
  ghost predicate Matched(w: World, x: Side) {
    IsSess(w, w.cur.At(x)) && (w.sessions[w.cur.At(x)].peer == 0 || w.sessions[w.cur.At(x)].peer == w.cur.At(Other(x)))
  }

  /** A matched peer's cursor acknowledges what this session sent. */
  lemma CursorInRange(w: World, x: Side)
    requires Inv(w) && Matched(w, x) && Matched(w, Other(x))
    ensures var s, p := w.sessions[w.cur.At(x)], w.sessions[w.cur.At(Other(x))]; s.link.acked <= p.recvNext <= s.link.sendNext
  {
    hide EndOk, LinkOk, Joined, ByClass, ServerOk;
    var id, q := w.cur.At(x), w.cur.At(Other(x));
    assert LocalOk(w.sessions[id], w.window) && LocalOk(w.sessions[q], w.window) && BoundOk(w, id) && BoundOk(w, q);
    hide LocalOk, BoundOk;
    LocalCursors(w.sessions[id], w.window);
    LocalCursors(w.sessions[q], w.window);
    BoundCursors(w, id);
    BoundCursors(w, q);
  }

  lemma LocalCursors(s: Session, window: nat)
    requires LocalOk(s, window)
    ensures s.link.sendNext == |s.log| + 1 && 1 <= s.recvNext <= |s.delivered| + 1 && (s.peer == 0 ==> s.recvNext == 1 && s.link.acked == 1)
  {
  }

  lemma BoundCursors(w: World, id: nat)
    requires IsSess(w, id) && BoundOk(w, id)
    ensures var s := w.sessions[id]; s.peer != 0 ==> IsSess(w, s.peer) && s.delivered <= w.sessions[s.peer].log && s.link.acked <= w.sessions[s.peer].recvNext
  {
  }

  lemma CursorPositive(w: World, id: nat)
    requires Inv(w) && IsSess(w, id)
    ensures w.sessions[id].recvNext >= 1
  {
    hide EndOk, BoundOk, LinkOk, ByClass;
    assert LocalOk(w.sessions[id], w.window);
  }

  /** Side `x` reads the RESUME of a matched peer, and accepts it. */
  lemma Agrees(w0: World, w: World, u: World, x: Side, k: nat) returns (v: World)
    requires Leads(w0, u) && Inv(w) && Inv(u) && Matched(w, x) && Matched(w, Other(x)) && w.cur.At(x) != w.cur.At(Other(x))
    requires Met(w, u, k, x) && IsSock(u, k) && EndAt(u, k, Other(x)).wire == [Resume(w.cur.At(Other(x)), w.sessions[w.cur.At(Other(x))].peer, w.sessions[w.cur.At(Other(x))].recvNext)]
    ensures Leads(w0, v) && Inv(v) && EndUp(v, k, x) && EndAt(v, k, Other(x)) == EndAt(u, k, Other(x)) && v.cur == u.cur && v.window == u.window
    ensures |v.sessions| == |u.sessions| && EndAt(v, k, x).sess == w.cur.At(x) && EndAt(v, k, x).wire == EndAt(u, k, x).wire
    ensures forall q: nat :: IsSess(u, q) && q != w.cur.At(x) ==> v.sessions[q] == u.sessions[q]
    ensures v.sessions[w.cur.At(x)].accepted == w.sessions[w.cur.At(x)].accepted && v.sessions[w.cur.At(x)].peer == w.cur.At(Other(x))
  {
    hide Inv, Leads, Apply;
    CursorInRange(w, x);
    CursorPositive(w, w.cur.At(x));
    assert EndAt(u, k, Other(x)).wire[0].Resume?;
    assert !PeerReset(u, x, k) && Acceptable(u, x, k);
    Accepts(u, x, k);
    v := Goes(w0, u, ReadResume(x, k));
  }

  /** Two matched sessions that nobody serves can be linked by a new socket. */
  lemma MatchedCanLink(w0: World, w: World) returns (v: World, k: nat)
    requires Leads(w0, w) && Inv(w) && Idle(w, Left) && Idle(w, Right) && Matched(w, Left) && Matched(w, Right)
    ensures Leads(w0, v) && Inv(v) && Linked(v, k) && v.cur == w.cur && |v.sessions| == |w.sessions|
    ensures forall q: nat :: IsSess(w, q) && q != w.cur.left && q != w.cur.right ==> v.sessions[q] == w.sessions[q]
    ensures forall x: Side :: EndAt(v, k, x).sess == w.cur.At(x) && v.sessions[w.cur.At(x)].accepted == w.sessions[w.cur.At(x)].accepted
  {
    hide Inv, Leads;
    TwoCurrent(w);
    var u;
    u, k := Meets(w0, w);
    v := Agrees(w0, w, u, Left, k);
    v := Agrees(w0, w, v, Right, k);
  }

  /**
   * Two managed nodes whose sessions are bound to each other, or to nobody yet, and which no connection serves:
   * some run links them over a new socket and delivers to each side all that the other accepted.
   */
  lemma ReconnectDelivers(w: World, x: Side) returns (v: World)
    requires Reached(w) && Idle(w, Left) && Idle(w, Right) && Matched(w, Left) && Matched(w, Right)
    ensures Leads(w, v) && Across(v, w.cur.At(x), w.sessions[w.cur.At(x)].accepted)
  {
    hide Reached, Inv, Leads;
    ReachedOk(w);
    LeadsSelf(w);
    v := LinksAndDelivers(w, w, x);
  }

  lemma LinksAndDelivers(w0: World, w: World, x: Side) returns (v: World)
    requires Leads(w0, w) && Inv(w) && Idle(w, Left) && Idle(w, Right) && Matched(w, Left) && Matched(w, Right)
    ensures Leads(w0, v) && Across(v, w.cur.At(x), w.sessions[w.cur.At(x)].accepted)
  {
    hide Inv, Leads;
    var u, k := MatchedCanLink(w0, w);
    var a := Flushes(w0, u, x, k);
    SentInRing(a, x, k);
    v := SendsAll(w0, a, x, k);
    Arrived(v, x, k);
  }

  /**
   * Wherever a socket that links the two sides' sessions is cut, what was written behind the cut is gone from it,
   * and still some run ends both connections, links the sessions over a new socket and delivers all they accepted.
   */
  lemma CutLosesNothing(w: World, k: nat, y: Side, n: nat, x: Side) returns (v: World)
    requires Reached(w) && Linked(w, k) && Enabled(w, Cut(y, k, n))
    requires w.cur.At(Left) == EndAt(w, k, Left).sess && w.cur.At(Right) == EndAt(w, k, Right).sess
    ensures var u := Apply(w, Cut(y, k, n));
      && IsSock(u, k) && EndAt(u, k, y).cut && EndAt(u, k, y).wire == EndAt(w, k, y).wire[..n]
      && Leads(u, v) && Across(v, w.cur.At(x), w.sessions[w.cur.At(x)].accepted)
  {
    hide Reached, Inv, Leads;
    ReachedOk(w);
    TwoSessions(w, k, Left);
    LinkedPeers(w, k);
    StepKeeps(w, Cut(y, k, n));
    var u := Apply(w, Cut(y, k, n));
    LeadsSelf(u);
    var a := Stops(u, u, Left, k);
    hide Apply, Enabled;
    var b := Stops(u, a, Right, k);
    v := LinksAndDelivers(u, b, x);
  }

  // ---------------------------------------------------------------- after a peer's reset

  /** A side whose connection stopped on socket `k` can let it go. */
  lemma Stops(w0: World, w: World, x: Side, k: nat) returns (v: World)
    requires Leads(w0, w) && Inv(w) && Serving(w, k, x) && EndAt(w, k, x).phase != Failed && !EndAt(w, k, x).phase.Handling?
    ensures Leads(w0, v) && Inv(v) && v.cur == w.cur && |v.sessions| == |w.sessions| && IsSock(v, k) && EndAt(v, k, Other(x)) == EndAt(w, k, Other(x))
    ensures v.sessions[EndAt(w, k, x).sess] == w.sessions[EndAt(w, k, x).sess].(server := 0)
    ensures forall q: nat :: IsSess(w, q) && q != EndAt(w, k, x).sess ==> v.sessions[q] == w.sessions[q]
  {
    hide Inv, Leads;
    v := Goes(w0, w, Stop(x, k));
  }

  /** The peer's RESUME ends the session bound to another, and both connections stop. */
  lemma ResetEnds(w: World, x: Side) returns (v: World)
    requires Inv(w) && Idle(w, x) && Idle(w, Other(x))
    requires w.sessions[w.cur.At(x)].peer !in {0, w.cur.At(Other(x))} && w.sessions[w.cur.At(Other(x))].peer == 0
    ensures Leads(w, v) && Inv(v) && |v.sessions| == |w.sessions| + 1 && v.cur == w.cur.With(x, |w.sessions|)
    ensures EndOf(w.sessions[w.cur.At(x)], v.sessions[w.cur.At(x)]) && Unused(v.sessions[|w.sessions|], x)
    ensures v.sessions[w.cur.At(Other(x))] == w.sessions[w.cur.At(Other(x))]
  {
    hide Inv, Leads, EndOf, Unused;
    LeadsSelf(w);
    TwoCurrent(w);
    var y := Other(x);
    var u, j := Meets(w, w);
    assert Met(w, u, j, x) && Met(w, u, j, y);
    assert EndAt(u, j, y).wire[0] == Resume(w.cur.At(y), 0, w.sessions[w.cur.At(y)].recvNext);
    assert PeerReset(u, x, j);
    var a := Goes(w, u, ReadResume(x, j));
    Resets(u, x, j, a);
    hide Apply, Enabled;
    var b := Stops(w, a, x, j);
    v := Stops(w, b, y, j);
    EndStands(w.sessions[w.cur.At(x)], u.sessions[w.cur.At(x)], a.sessions[w.cur.At(x)], v.sessions[w.cur.At(x)]);
  }

  /** Who serves a session has no part in its end. */
  lemma EndStands(s: Session, s1: Session, t: Session, t1: Session)
    requires EndOf(s1, t) && s1 == s.(server := s1.server) && t1 == t.(server := t1.server)
    ensures EndOf(s, t1)
  {
  }

  /**
   * When side `x`'s session is bound to a peer session that is no longer the other side's, and the other side's is
   * bound to nobody, some run of theirs ends it on the peer's RESUME and links a fresh session with the peer's.
   */
  lemma ResetCanRelink(w: World, x: Side) returns (v: World, k: nat)
    requires Reached(w) && Idle(w, x) && Idle(w, Other(x))
    requires w.sessions[w.cur.At(x)].peer !in {0, w.cur.At(Other(x))} && w.sessions[w.cur.At(Other(x))].peer == 0
    ensures Leads(w, v) && Linked(v, k) && |v.sessions| == |w.sessions| + 1
    ensures EndAt(v, k, x).sess == |w.sessions| && EndAt(v, k, Other(x)).sess == w.cur.At(Other(x)) && EndAt(v, k, x).phase == Ready
    ensures EndOf(w.sessions[w.cur.At(x)], v.sessions[w.cur.At(x)])
  {
    hide Reached, Inv, Leads, EndOf;
    ReachedOk(w);
    TwoCurrent(w);
    var b := ResetEnds(w, x);
    v, k := MatchedCanLink(w, b);
    Ups(v, k, x);
  }

  lemma Resets(u: World, x: Side, k: nat, v: World)
    requires Inv(u) && Enabled(u, ReadResume(x, k)) && PeerReset(u, x, k) && v == Apply(u, ReadResume(x, k))
    ensures Succeeds(u, v, x, false) && IsSock(v, k) && EndAt(v, k, x) == EndAt(u, k, x).(read := 1, phase := Stopped) && EndAt(v, k, Other(x)) == EndAt(u, k, Other(x))
  {
    hide Inv;
    CurrentQueues(u, x);
    var m := SetEnd(u, k, x, EndAt(u, k, x).(read := 1, phase := Stopped));
    SuccessorIs(m, x, false);
    SameSessions(u, m, x, false);
  }

  // ---------------------------------------------------------------- such runs exist

  /** From the start: both nodes managed and linked. */
  lemma StartLinks(window: nat) returns (v: World, k: nat)
    ensures Leads(Init(window), v) && Inv(v) && Linked(v, k) && v.cur == Pair(1, 2) && |v.sessions| == 3
    ensures EndAt(v, k, Left).sess == 1 && EndAt(v, k, Right).sess == 2
  {
    var w := Init(window);
    InitOk(window, n => n);
    LeadsSelf(w);
    hide Inv, Leads;
    var u := Goes(w, w, CreateState(Left));
    u := Goes(w, u, CreateState(Right));
    assert u.cur == Pair(1, 2) && |u.sessions| == 3;
    v, k := MatchedCanLink(w, u);
  }

  lemma ReachedBy(window: nat, w: World)
    requires Leads(Init(window), w)
    ensures Reached(w)
  {
  }

  /**
   * A run from the start in which the right node's session is replaced, the left node's session, bound to the old
   * one, ends on its RESUME, and the left node's next session is ready with the new one.
   */
  lemma PeerResetHappens(window: nat) returns (w: World, v: World, k: nat)
    ensures Reached(w) && Leads(w, v) && |w.sessions| == 4 && w.cur == Pair(1, 3) && w.sessions[1].peer == 2 && !w.sessions[1].ended
    ensures |v.sessions| == 5 && v.sessions[1].ended && Linked(v, k)
    ensures EndAt(v, k, Left).sess == 4 && EndAt(v, k, Right).sess == 3 && v.sessions[4].peer == 3
  {
    var start := Init(window);
    hide Inv, Leads, Reached;
    var u, j := StartLinks(window);
    LinkedPeers(u, j);
    w := Goes(start, u, Replace(Right, false));
    w := Stops(start, w, Left, j);
    w := Stops(start, w, Right, j);
    ReachedBy(window, w);
    v, k := ResetCanRelink(w, Left);
    ReachedFurther(w, v);
    LinkedPeers(v, k);
  }

  lemma LinkedPeers(w: World, k: nat)
    requires Inv(w) && Linked(w, k)
    ensures w.sessions[EndAt(w, k, Left).sess].peer == EndAt(w, k, Right).sess && w.sessions[EndAt(w, k, Left).sess].server == k
    ensures w.sessions[EndAt(w, k, Right).sess].peer == EndAt(w, k, Left).sess && w.sessions[EndAt(w, k, Right).sess].server == k
  {
    hide LocalOk, BoundOk, ReadOk, SendOk;
    assert EndOk(w, k, Left) && EndOk(w, k, Right);
  }

  lemma ReachedFurther(w: World, v: World)
    requires Reached(w) && Leads(w, v)
    ensures Inv(v)
  {
    hide Inv;
    ReachedOk(w);
    var steps :| Runs(w, steps) && Exec(w, steps) == v;
    RunOk(w, steps);
  }
}
