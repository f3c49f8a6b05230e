/** Each step of the session protocol keeps the invariant. */
module ProtocolSteps {
  import opened Frames
  import opened Links
  import opened Protocol
  import opened ProtocolInvariant

  /** An end that has not agreed on the session has put nothing but its RESUME on the wire. */
  lemma QuietWire(k: nat, e: End, o: End, s: Session)
    requires EndOver(k, e, o, s) && !e.resumed
    ensures Nums(e.wire) == [] && OutNums(e.outbox) == []
    ensures forall n :: 0 <= n <= |e.wire| ==> Nums(e.wire[..n]) == []
  {
    if e.wire != [] {
      assert e.wire[..0] == [] && e.wire[..1] == e.wire;
    }
  }

  lemma AnnounceKeeps(w: World, x: Side, k: nat)
    requires Inv(w) && Enabled(w, Announce(x, k))
    ensures Inv(Apply(w, Announce(x, k)))
  {
    hide LocalOk, BoundOk, EndOver;
    var e, o := EndAt(w, k, x), EndAt(w, k, Other(x));
    assert EndOk(w, k, x) && EndOk(w, k, Other(x));
    var s := w.sessions[e.sess];
    var f := e.(announce := s.recvNext, view := s.peer, ackLoaded := s.recvNext, wire := [Resume(e.sess, s.peer, s.recvNext)]);
    assert LocalOk(s, w.window);
    AnnounceEnds(k, e, o, s, f, w.window);
    if o.sess != 0 {
      AnnouncedTo(k, e, o, w.sessions[o.sess], f);
    }
    TouchEndKeeps(w, k, x, f);
  }

  lemma AnnounceEnds(k: nat, e: End, o: End, s: Session, f: End, window: nat)
    requires LocalOk(s, window) && EndOver(k, e, o, s) && e.running && e.announce == 0
    requires f == e.(announce := s.recvNext, view := s.peer, ackLoaded := s.recvNext, wire := [Resume(e.sess, s.peer, s.recvNext)])
    ensures EndOver(k, f, o, s) && e.wire == [] && Ahead(e, f)
  {
    assert f.wire[..0] == [];
    assert Nums(f.wire) == Nums(f.wire[..0]);
  }

  lemma AnnouncedTo(k: nat, e: End, o: End, so: Session, f: End)
    requires EndOver(k, o, e, so) && e.announce == 0 && e.wire == []
    requires f == e.(announce := f.announce, view := f.view, ackLoaded := f.ackLoaded, wire := f.wire)
    ensures EndOver(k, o, f, so)
  {
    QuietWire(k, o, e, so);
    assert o.read == 0;
    assert f.wire[..0] == e.wire[..0];
  }

  /** The other end does not see the writer's stamp or outbox. */
  lemma Unseen(k: nat, e: End, o: End, so: Session, f: End)
    requires EndOver(k, o, e, so)
    requires f == e.(ackLoaded := f.ackLoaded, outbox := f.outbox, phase := f.phase, resumed := f.resumed, read := f.read, running := f.running)
    ensures EndOver(k, o, f, so)
  {
  }

  lemma LoadAckEnds(k: nat, e: End, o: End, s: Session, window: nat)
    requires LocalOk(s, window) && EndOver(k, e, o, s) && e.running && e.announce != 0
    ensures EndOver(k, e.(ackLoaded := s.recvNext), o, s)
  {
  }

  lemma LoadAckKeeps(w: World, x: Side, k: nat)
    requires Inv(w) && Enabled(w, LoadAck(x, k))
    ensures Inv(Apply(w, LoadAck(x, k)))
  {
    hide BoundOk, LocalOk, ReadOk, SendOk;
    var e, o := EndAt(w, k, x), EndAt(w, k, Other(x));
    assert EndOk(w, k, x) && EndOk(w, k, Other(x));
    var s := w.sessions[e.sess];
    assert LocalOk(s, w.window);
    var f := e.(ackLoaded := s.recvNext);
    LoadAckEnds(k, e, o, s, w.window);
    if o.sess != 0 {
      Unseen(k, e, o, w.sessions[o.sess], f);
    }
    TouchEndKeeps(w, k, x, f);
  }

  /** A longer wire looks the same behind the reader. */
  lemma Longer(k: nat, e: End, o: End, so: Session, f: End)
    requires EndOver(k, o, e, so)
    requires e.wire <= f.wire
    requires f == e.(wire := f.wire, outbox := f.outbox)
    ensures EndOver(k, o, f, so)
  {
    assert f.wire[..o.read] == e.wire[..o.read];
  }

  lemma WriteWire(e: End, log: seq<Msg>, f: End)
    requires WireOk(e, log) && e.outbox != [] && e.wire != []
    requires var out := e.outbox[0];
      f == e.(outbox := e.outbox[1..], wire := e.wire + [DataFrame(out.num, out.kind, out.data, e.ackLoaded)])
    ensures WireOk(f, log)
  {
  }

  lemma WriteEnds(k: nat, e: End, o: End, s: Session, f: End)
    requires EndOver(k, e, o, s) && !e.cut && e.outbox != []
    requires var out := e.outbox[0];
      f == e.(outbox := e.outbox[1..], wire := e.wire + [DataFrame(out.num, out.kind, out.data, e.ackLoaded)])
    ensures EndOver(k, f, o, s)
  {
    hide WireOk;
    var out := e.outbox[0];
    WriteWire(e, s.log, f);
    NumsAppend(e.wire, DataFrame(out.num, out.kind, out.data, e.ackLoaded));
    assert Nums(f.wire) + OutNums(f.outbox) == Nums(e.wire) + OutNums(e.outbox);
    assert forall i :: 0 <= i < |Nums(f.wire)| ==> Nums(f.wire)[i] == (Nums(f.wire) + OutNums(f.outbox))[i];
  }

  lemma WriteAckEnds(k: nat, e: End, o: End, s: Session, f: End)
    requires EndOver(k, e, o, s) && e.resumed && e.announce != 0 && !e.cut
    requires f == e.(wire := e.wire + [AckFrame(e.ackLoaded)])
    ensures EndOver(k, f, o, s)
  {
    NumsAppend(e.wire, AckFrame(e.ackLoaded));
    assert Nums(f.wire) == Nums(e.wire);
  }

  lemma WriteKeeps(w: World, x: Side, k: nat)
    requires Inv(w) && Enabled(w, Write(x, k))
    ensures Inv(Apply(w, Write(x, k)))
  {
    hide BoundOk, LocalOk, ReadOk, SendOk;
    var e, o := EndAt(w, k, x), EndAt(w, k, Other(x));
    assert EndOk(w, k, x) && EndOk(w, k, Other(x));
    var out := e.outbox[0];
    var f := e.(outbox := e.outbox[1..], wire := e.wire + [DataFrame(out.num, out.kind, out.data, e.ackLoaded)]);
    WriteEnds(k, e, o, w.sessions[e.sess], f);
    if o.sess != 0 {
      Longer(k, e, o, w.sessions[o.sess], f);
    }
    TouchEndKeeps(w, k, x, f);
  }

  lemma WriteAckKeeps(w: World, x: Side, k: nat)
    requires Inv(w) && Enabled(w, WriteAck(x, k))
    ensures Inv(Apply(w, WriteAck(x, k)))
  {
    hide BoundOk, LocalOk, ReadOk, SendOk;
    var e, o := EndAt(w, k, x), EndAt(w, k, Other(x));
    assert EndOk(w, k, x) && EndOk(w, k, Other(x));
    var f := e.(wire := e.wire + [AckFrame(e.ackLoaded)]);
    WriteAckEnds(k, e, o, w.sessions[e.sess], f);
    if o.sess != 0 {
      Longer(k, e, o, w.sessions[o.sess], f);
    }
    TouchEndKeeps(w, k, x, f);
  }

  lemma CutWire(e: End, log: seq<Msg>, n: nat)
    requires WireOk(e, log) && n <= |e.wire|
    ensures WireOk(e.(wire := e.wire[..n], cut := true), log)
  {
    hide IsFrame;
  }

  lemma CutReads(e: End, o: End, s: Session, n: nat)
    requires ReadOk(e, o, s) && n <= |e.wire|
    ensures ReadOk(e.(wire := e.wire[..n], cut := true), o, s)
  {
    hide Nums;
  }

  lemma CutEnds(k: nat, e: End, o: End, s: Session, n: nat)
    requires EndOver(k, e, o, s) && n <= |e.wire|
    ensures EndOver(k, e.(wire := e.wire[..n], cut := true), o, s)
  {
    hide ReadOk, WireOk, Nums, OutNums;
    NumsPrefix(e.wire, n);
    CutWire(e, s.log, n);
    CutReads(e, o, s, n);
  }

  lemma CutTo(k: nat, e: End, o: End, so: Session, n: nat)
    requires EndOver(k, o, e, so) && o.read <= n <= |e.wire|
    ensures EndOver(k, o, e.(wire := e.wire[..n], cut := true), so)
  {
    assert e.wire[..n][..o.read] == e.wire[..o.read];
  }

  /** Sessions stay in order when sockets only move ahead and no reader moves. */
  lemma SessionsKeep(w: World, v: World)
    requires Inv(w) && Onward(w, v) && v.sessions == w.sessions
    requires forall k: nat, x :: IsSock(w, k) ==>
      EndAt(v, k, x).running == EndAt(w, k, x).running && EndAt(v, k, x).phase == EndAt(w, k, x).phase
    ensures forall q: nat :: IsSess(v, q) ==> LocalOk(v.sessions[q], v.window)
    ensures forall q: nat :: IsSess(v, q) ==> BoundOk(v, q)
  {
    hide LocalOk, EndOver, Ahead, Grown;
    forall q: nat | IsSess(v, q) ensures LocalOk(v.sessions[q], v.window) && BoundOk(v, q) {
      assert LocalOk(w.sessions[q], w.window) && BoundOk(w, q);
      BoundKeeps(w, v, q);
    }
  }

  lemma CutSockets(w: World, x: Side, k: nat, n: nat, v: World)
    requires Inv(w) && IsSock(w, k) && EndAt(w, k, Other(x)).read <= n <= |EndAt(w, k, x).wire|
    requires v == SetEnd(w, k, x, EndAt(w, k, x).(wire := EndAt(w, k, x).wire[..n], cut := true))
    ensures forall j: nat, y :: IsSock(v, j) ==> EndOk(v, j, y)
  {
    hide LocalOk, EndOver, BoundOk;
    var e, o := EndAt(w, k, x), EndAt(w, k, Other(x));
    assert EndOk(w, k, x) && EndOk(w, k, Other(x));
    if e.sess != 0 { CutEnds(k, e, o, w.sessions[e.sess], n); }
    if o.sess != 0 { CutTo(k, e, o, w.sessions[o.sess], n); }
    forall j: nat, y | IsSock(v, j) ensures EndOk(v, j, y) {
      assert EndOk(w, j, y);
    }
  }

  lemma CutKeeps(w: World, x: Side, k: nat, n: nat, v: World)
    requires Inv(w) && IsSock(w, k) && EndAt(w, k, Other(x)).read <= n <= |EndAt(w, k, x).wire|
    requires v == SetEnd(w, k, x, EndAt(w, k, x).(wire := EndAt(w, k, x).wire[..n], cut := true))
    ensures Inv(v)
  {
    hide LocalOk, EndOk, BoundOk;
    CutSockets(w, x, k, n, v);
    SessionsKeep(w, v);
  }

  lemma ConnectKeeps(w: World)
    requires Inv(w)
    ensures Inv(w.(socks := w.socks + [Pair(UNUSED, UNUSED)]))
  {
    hide LocalOk, EndOver, BoundOk;
    var v := w.(socks := w.socks + [Pair(UNUSED, UNUSED)]);
    SessionsKeep(w, v);
    forall j: nat, y | IsSock(v, j) ensures EndOk(v, j, y) {
      if j < |w.socks| { assert EndOk(w, j, y); }
    }
  }

  /** Queueing and ending touch nothing a connection relies on. */
  lemma StreamKeeps(w: World, id: nat, t: Session)
    requires Inv(w) && IsSess(w, id) && SameStream(w.sessions[id], t) && LocalOk(t, w.window)
    requires t.ended ==> w.cur.At(t.side) != id
    ensures Inv(SetSess(w, id, t))
  {
    hide LocalOk, EndOver;
    var v := SetSess(w, id, t);
    forall q: nat | IsSess(v, q) ensures LocalOk(v.sessions[q], v.window) && BoundOk(v, q) {
      assert LocalOk(w.sessions[q], w.window) && BoundOk(w, q);
      if q != id {
        BoundKeeps(w, v, q);
      } else if t.peer != 0 {
        assert BoundOk(w, id);
        JoinedKeeps(w, v, id, t.bindSock);
        JoinedKeeps(w, v, id, t.ackSock);
      }
    }
    forall j: nat, y | IsSock(v, j) ensures EndOk(v, j, y) {
      assert EndOk(w, j, y);
      if EndAt(w, j, y).sess == id {
        UnnoticedEnd(j, EndAt(w, j, y), EndAt(w, j, Other(y)), w.sessions[id], t);
      }
    }
  }

  lemma DetachKeeps(w: World, x: Side)
    requires Inv(w)
    ensures Inv(w.(cur := w.cur.With(x, 0)))
  {
    hide LocalOk, EndOver, BoundOk;
    var v := w.(cur := w.cur.With(x, 0));
    SessionsKeep(w, v);
    forall j: nat, y | IsSock(v, j) ensures EndOk(v, j, y) {
      assert EndOk(w, j, y);
    }
  }

  /** A fresh session: nothing accepted, sent or delivered, only queued gossip carried over. */
  lemma NewLocal(x: Side, queues: Queues, window: nat)
    requires Total(queues) && forall c :: Sequenced(c) ==> queues[c] == []
    ensures LocalOk(NewSession(x, queues), window)
  {
    NothingQueued();
  }

  lemma OpenKeeps(w: World, x: Side, queues: Queues)
    requires Inv(w) && Total(queues) && forall c :: Sequenced(c) ==> queues[c] == []
    ensures Inv(w.(sessions := w.sessions + [NewSession(x, queues)], cur := w.cur.With(x, |w.sessions|)))
  {
    hide EndOver, LocalOk;
    var v := w.(sessions := w.sessions + [NewSession(x, queues)], cur := w.cur.With(x, |w.sessions|));
    NewLocal(x, queues, w.window);
    forall q: nat | IsSess(v, q) ensures LocalOk(v.sessions[q], v.window) && BoundOk(v, q) {
      if q < |w.sessions| {
        assert LocalOk(w.sessions[q], w.window) && BoundOk(w, q);
        BoundKeeps(w, v, q);
      }
    }
    forall j: nat, y | IsSock(v, j) ensures EndOk(v, j, y) {
      assert EndOk(w, j, y);
    }
  }

  lemma EndKeeps(w: World, id: nat, all: bool)
    requires Inv(w) && IsSess(w, id) && !w.sessions[id].ended && w.cur.At(w.sessions[id].side) != id
    ensures Inv(SetSess(w, id, Ended(w.sessions[id], all)))
  {
    hide EndOver, BoundOk;
    assert LocalOk(w.sessions[id], w.window);
    StreamKeeps(w, id, Ended(w.sessions[id], all));
  }

  lemma ReplaceKeeps(w: World, x: Side, all: bool)
    requires Inv(w) && IsSess(w, w.cur.At(x))
    ensures Inv(ReplaceSession(w, x, all))
  {
    hide EndOver, BoundOk;
    var id := w.cur.At(x);
    assert LocalOk(w.sessions[id], w.window);
    hide LocalOk;
    DetachKeeps(w, x);
    var w1 := w.(cur := w.cur.With(x, 0));
    EndKeeps(w1, id, all);
    var w2 := SetSess(w1, id, Ended(w1.sessions[id], all));
    var queues := w2.sessions[id].link.queues;
    OpenKeeps(w2, x, queues);
    assert ReplaceSession(w, x, all) == w2.(sessions := w2.sessions + [NewSession(x, queues)], cur := w2.cur.With(x, |w2.sessions|));
  }

  lemma EnqueueLocal(s: Session, c: Class, d: Data, window: nat)
    requires LocalOk(s, window) && !s.ended
    ensures LocalOk(s.(link := Accept(s.link, c, d), accepted := s.accepted[c := s.accepted[c] + [d]]), window)
  {
    var t := s.(link := Accept(s.link, c, d), accepted := s.accepted[c := s.accepted[c] + [d]]);
    AcceptOk(s.link, c, d, window);
    hide LinkOk, ByClass, IsFrame;
    forall b | Sequenced(b) ensures t.accepted[b] == ByClass(t.log, b) + t.link.queues[b] {
      assert s.accepted[b] == ByClass(s.log, b) + s.link.queues[b];
      assert ByClass(s.log, b) + (s.link.queues[b] + [d]) == (ByClass(s.log, b) + s.link.queues[b]) + [d];
    }
  }

  lemma AcceptOk(l: Link, c: Class, d: Data, window: nat)
    requires c in l.queues
    ensures LinkOk(l, window) ==> LinkOk(Accept(l, c, d), window)
    ensures Accept(l, c, d).ring == l.ring && Accept(l, c, d).sendNext == l.sendNext && Accept(l, c, d).acked == l.acked
  {
    hide Bytes;
  }

  lemma EnqueueKeeps(w: World, x: Side, c: Class, d: Data)
    requires Inv(w) && Enabled(w, Enqueue(x, c, d))
    ensures Inv(Apply(w, Enqueue(x, c, d)))
  {
    hide EndOver, BoundOk, LocalOk;
    var id := w.cur.At(x);
    var s := w.sessions[id];
    assert LocalOk(s, w.window);
    EnqueueLocal(s, c, d, w.window);
    StreamKeeps(w, id, s.(link := Accept(s.link, c, d), accepted := s.accepted[c := s.accepted[c] + [d]]));
  }

  lemma ServedLocal(s: Session, k: nat, window: nat)
    requires LocalOk(s, window)
    ensures LocalOk(s.(server := k), window)
  {
  }

  lemma AdoptEnds(k: nat, o: End, s: Session, id: nat, cut: bool, window: nat)
    requires LocalOk(s, window) && |s.delivered| != s.recvNext
    ensures EndOver(k, UNUSED.(sess := id, running := true, cut := cut), o, s.(server := k))
  {
    assert o.wire[..0] == [];
  }

  lemma AdoptedBy(k: nat, e: End, o: End, so: Session, f: End)
    requires EndOver(k, o, e, so) && e == UNUSED.(cut := e.cut)
    requires f == e.(sess := f.sess, running := f.running)
    ensures EndOver(k, o, f, so)
  {
  }

  /** A session nobody serves has no running connection. */
  lemma IdleNow(w: World, id: nat, j: nat, y: Side)
    requires Inv(w) && IsSess(w, id) && w.sessions[id].server == 0
    requires IsSock(w, j) && EndAt(w, j, y).sess == id
    ensures !EndAt(w, j, y).running
  {
    assert EndOk(w, j, y);
  }

  /** `v` is `w` after side `x` adopted socket `k`. */
  ghost predicate Adopts(w: World, x: Side, k: nat, v: World) {
    && IsSock(w, k) && EndAt(w, k, x).sess == 0
    && IsSess(w, w.cur.At(x)) && w.sessions[w.cur.At(x)].server == 0
    && var id := w.cur.At(x);
       v == SetSess(SetEnd(w, k, x, EndAt(w, k, x).(sess := id, running := true)), id, w.sessions[id].(server := k))
  }

  lemma AdoptSessions(w: World, x: Side, k: nat, v: World)
    requires Inv(w) && Adopts(w, x, k, v)
    ensures forall q: nat :: IsSess(v, q) ==> LocalOk(v.sessions[q], v.window)
    ensures forall q: nat :: IsSess(v, q) ==> BoundOk(v, q)
  {
    hide EndOver, LocalOk, Joined;
    var id := w.cur.At(x);
    assert EndOk(w, k, x) && LocalOk(w.sessions[id], w.window);
    ServedLocal(w.sessions[id], k, w.window);
    forall q: nat | IsSess(v, q) ensures LocalOk(v.sessions[q], v.window) && BoundOk(v, q) {
      assert LocalOk(w.sessions[q], w.window) && BoundOk(w, q);
      if q != id { BoundKeeps(w, v, q); } else { BoundMoved(w, v, q); }
    }
  }

  lemma AdoptSockets(w: World, x: Side, k: nat, v: World)
    requires Inv(w) && Adopts(w, x, k, v)
    ensures forall j: nat, y :: IsSock(v, j) ==> EndOk(v, j, y)
  {
    hide EndOver, LocalOk, Joined;
    var id := w.cur.At(x);
    var e, o, f := EndAt(w, k, x), EndAt(w, k, Other(x)), EndAt(v, k, x);
    assert EndOk(w, k, x) && EndOk(w, k, Other(x)) && BoundOk(w, id) && LocalOk(w.sessions[id], w.window);
    AdoptEnds(k, o, w.sessions[id], id, e.cut, w.window);
    hide BoundOk;
    if o.sess != 0 { AdoptedBy(k, e, o, w.sessions[o.sess], f); }
    forall j: nat, y | IsSock(v, j) ensures EndOk(v, j, y) {
      assert EndOk(w, j, y);
      if j != k && EndAt(w, j, y).sess == id {
        IdleNow(w, id, j, y);
        IdleEnd(j, EndAt(w, j, y), EndAt(w, j, Other(y)), w.sessions[id], v.sessions[id]);
      }
    }
  }

  lemma AdoptKeeps(w: World, x: Side, k: nat, v: World)
    requires Inv(w) && Adopts(w, x, k, v)
    ensures Inv(v)
  {
    hide LocalOk, EndOk, BoundOk;
    AdoptSessions(w, x, k, v);
    AdoptSockets(w, x, k, v);
  }

  lemma ServingFacts(w: World, k: nat, x: Side)
    requires Inv(w) && Serving(w, k, x)
    ensures w.sessions[EndAt(w, k, x).sess].server == k && w.sessions[EndAt(w, k, x).sess].side == x
    ensures !EndAt(w, k, x).phase.Handling? ==>
      |w.sessions[EndAt(w, k, x).sess].delivered| + 1 == w.sessions[EndAt(w, k, x).sess].recvNext
  {
    hide SendOk, LocalOk, BoundOk;
    assert EndOk(w, k, x);
  }

  lemma StopEnds(k: nat, e: End, o: End, s: Session)
    requires EndOver(k, e, o, s)
    ensures EndOver(k, e.(phase := Stopped, running := false), o, s.(server := 0))
  {
  }

  lemma StopBound(w: World, x: Side, k: nat, v: World)
    requires Inv(w) && Serving(w, k, x) && !EndAt(w, k, x).phase.Handling?
    requires v == Touch(w, k, x, EndAt(w, k, x).(phase := Stopped, running := false), w.sessions[EndAt(w, k, x).sess].(server := 0))
    ensures IsSess(v, EndAt(w, k, x).sess) && BoundOk(v, EndAt(w, k, x).sess)
  {
    hide EndOver, LocalOk, Joined;
    var e := EndAt(w, k, x);
    ServingFacts(w, k, x);
    TouchOnward(w, k, x, e.(phase := Stopped, running := false), w.sessions[e.sess].(server := 0));
    BoundMoved(w, v, e.sess);
  }

  lemma StopKeeps(w: World, x: Side, k: nat)
    requires Inv(w) && Serving(w, k, x) && !EndAt(w, k, x).phase.Handling?
    ensures Inv(Touch(w, k, x, EndAt(w, k, x).(phase := Stopped, running := false), w.sessions[EndAt(w, k, x).sess].(server := 0)))
  {
    hide EndOver, LocalOk, BoundOk;
    var e, o := EndAt(w, k, x), EndAt(w, k, Other(x));
    assert EndOk(w, k, x) && EndOk(w, k, Other(x));
    var s := w.sessions[e.sess];
    var f, t := e.(phase := Stopped, running := false), s.(server := 0);
    assert LocalOk(s, w.window);
    ServedLocal(s, 0, w.window);
    StopEnds(k, e, o, s);
    if o.sess != 0 { Unseen(k, e, o, w.sessions[o.sess], f); }
    StopBound(w, x, k, Touch(w, k, x, f, t));
    TouchKeeps(w, k, x, f, t);
  }

  // ---------------------------------------------------------------- draining

  /** What one drained frame does to the session: it is the next of the consecutive numbers. */
  ghost predicate Drains(s: Session, t: Session, out: Outbound) {
    && t == s.(link := t.link, log := t.log) && s.log <= t.log
    && t.link.acked == s.link.acked
    && if Sequenced(out.kind) then
         && out.num == s.link.acked + s.link.sent && t.link.sent == s.link.sent + 1
         && IsFrame(t.log, out.num, out.kind, out.data)
       else
         out.num == 0 && t.link.sent == s.link.sent
  }

  lemma DrainWire(e: End, s: Session, t: Session, out: Outbound)
    requires WireOk(e, s.log) && Drains(s, t, out)
    ensures WireOk(e.(outbox := e.outbox + [out]), t.log)
  {
  }

  lemma DrainEnds(k: nat, e: End, o: End, s: Session, t: Session, out: Outbound)
    requires EndOver(k, e, o, s) && e.resumed && e.running && e.announce != 0 && !s.ended
    requires Drains(s, t, out)
    ensures EndOver(k, e.(outbox := e.outbox + [out]), o, t)
  {
    hide WireOk;
    DrainWire(e, s, t, out);
    OutNumsAppend(e.outbox, out);
    var f := e.(outbox := e.outbox + [out]);
    assert Nums(f.wire) + OutNums(f.outbox) == (Nums(e.wire) + OutNums(e.outbox)) + (if Sequenced(out.kind) then [out.num] else []);
  }

  lemma DrainKeeps(w: World, x: Side, k: nat, t: Session, out: Outbound)
    requires Inv(w) && CanDrain(w, k, x)
    requires var s := w.sessions[EndAt(w, k, x).sess]; !s.ended && Drains(s, t, out) && LocalOk(t, w.window)
    ensures Inv(Touch(w, k, x, EndAt(w, k, x).(outbox := EndAt(w, k, x).outbox + [out]), t))
  {
    hide EndOver, LocalOk, BoundOk, IsFrame;
    var e, o := EndAt(w, k, x), EndAt(w, k, Other(x));
    assert EndOk(w, k, x) && EndOk(w, k, Other(x));
    var f := e.(outbox := e.outbox + [out]);
    DrainEnds(k, e, o, w.sessions[e.sess], t, out);
    if o.sess != 0 { Unseen(k, e, o, w.sessions[o.sess], f); }
    DrainBound(w, x, k, f, t, Touch(w, k, x, f, t));
    TouchKeeps(w, k, x, f, t);
  }

  /** A touch that moves neither ack, deliveries nor the reader keeps the session bound. */
  lemma DrainBound(w: World, x: Side, k: nat, f: End, t: Session, v: World)
    requires Inv(w) && Serving(w, k, x) && v == Touch(w, k, x, f, t)
    requires var e := EndAt(w, k, x); var s := w.sessions[e.sess];
      && Grown(s, t) && Ahead(e, f) && f.sess == e.sess && f.running && f.phase == e.phase
      && t == s.(link := t.link, log := t.log) && t.link.acked == s.link.acked
    ensures IsSess(v, EndAt(w, k, x).sess) && BoundOk(v, EndAt(w, k, x).sess)
  {
    hide EndOver, LocalOk, Joined;
    ServingFacts(w, k, x);
    TouchOnward(w, k, x, f, t);
    assert BoundOk(w, EndAt(w, k, x).sess);
    BoundMoved(w, v, EndAt(w, k, x).sess);
  }

  lemma ResendLocal(s: Session, window: nat)
    requires LocalOk(s, window) && !s.ended && CanResend(s.link)
    ensures LocalOk(s.(link := Resend(s.link)), window)
    ensures Drains(s, s.(link := Resend(s.link)), ResendFrame(s.link))
  {
  }

  lemma TakeAccepted(s: Session, c: Class, m: Msg, t: Session)
    requires Total(s.accepted) && Total(s.link.queues) && Sequenced(c) && s.link.queues[c] != []
    requires m == Msg(c, s.link.queues[c][0])
    requires forall b :: Sequenced(b) ==> s.accepted[b] == ByClass(s.log, b) + s.link.queues[b]
    requires t.accepted == s.accepted && t.log == s.log + [m] && t.link.queues == s.link.queues[c := s.link.queues[c][1..]]
    ensures forall b :: Sequenced(b) ==> t.accepted[b] == ByClass(t.log, b) + t.link.queues[b]
  {
    assert t.log[..|s.log|] == s.log;
    forall b | Sequenced(b) ensures t.accepted[b] == ByClass(t.log, b) + t.link.queues[b] {
      assert s.accepted[b] == ByClass(s.log, b) + s.link.queues[b];
    }
  }

  lemma TakeLocal(s: Session, c: Class, window: nat)
    requires LocalOk(s, window) && !s.ended && CanTake(s.link, c, window)
    ensures var t := s.(link := Take(s.link, c, window),
                        log := if Sequenced(c) then s.log + [Msg(c, TakeFrame(s.link, c, window).data)] else s.log);
      LocalOk(t, window) && Drains(s, t, TakeFrame(s.link, c, window))
  {
    TakeOk(s.link, c, window);
    hide Bytes, ByClass;
    if Sequenced(c) {
      var m := Msg(c, s.link.queues[c][0]);
      TakeAccepted(s, c, m, s.(link := Take(s.link, c, window), log := s.log + [m]));
    }
  }

  // ---------------------------------------------------------------- reading

  /** A reader that refuses the peer's RESUME leaves the session as it was. */
  lemma RefuseEnds(k: nat, e: End, o: End, s: Session, phase: Phase)
    requires EndOver(k, e, o, s) && e.running && e.phase == AwaitResume && o.wire != []
    requires phase == Stopped || phase == Failed || (phase == AwaitReset && o.view != 0 && o.view != e.sess)
    requires Nums(o.wire[..1]) == []
    ensures EndOver(k, e.(read := 1, phase := phase), o, s)
  {
    assert o.wire[..0] == [];
  }

  lemma OpensWithResume(k: nat, o: End, e: End, so: Session)
    requires EndOver(k, o, e, so) && o.wire != []
    ensures o.wire[0] == Resume(o.sess, o.view, o.announce) && o.announce != 0
    ensures Nums(o.wire[..1]) == []
  {
    assert o.wire[..1] == [o.wire[0]];
    assert [o.wire[0]][..0] == [];
  }

  lemma RefuseKeeps(w: World, x: Side, k: nat, phase: Phase)
    requires Inv(w) && Enabled(w, ReadResume(x, k))
    requires var e, o := EndAt(w, k, x), EndAt(w, k, Other(x));
      phase == Stopped || phase == Failed || (phase == AwaitReset && o.view != 0 && o.view != e.sess)
    ensures Inv(SetEnd(w, k, x, EndAt(w, k, x).(read := 1, phase := phase)))
  {
    hide EndOver, LocalOk, BoundOk;
    var e, o := EndAt(w, k, x), EndAt(w, k, Other(x));
    assert EndOk(w, k, x) && EndOk(w, k, Other(x));
    OpensWithResume(k, o, e, w.sessions[o.sess]);
    RefuseEnds(k, e, o, w.sessions[e.sess], phase);
    var f := e.(read := 1, phase := phase);
    Unseen(k, e, o, w.sessions[o.sess], f);
    TouchEndKeeps(w, k, x, f);
  }

  /** The session and the end after an accepted RESUME of the other end `o`. */
  function Resumed(s: Session, o: End, k: nat): Session {
    s.(peer := o.sess, link := Rewind(Acknowledge(s.link, o.announce)),
       bindSock := if s.peer == 0 then k else s.bindSock, ackSock := k)
  }

  /** A live session whose link lost acknowledged frames and nothing else. */
  lemma Relinked(s: Session, t: Session, n: nat, window: nat)
    requires LocalOk(s, window) && !s.ended && n <= |s.link.ring|
    requires t == s.(link := t.link, peer := t.peer, bindSock := t.bindSock, ackSock := t.ackSock) && t.peer != 0
    requires LinkOk(t.link, window) && t.link.ring == s.link.ring[n..]
    requires t.link.sendNext == s.link.sendNext && t.link.queues == s.link.queues && 1 <= t.link.acked <= t.link.sendNext
    ensures LocalOk(t, window)
  {
    hide LinkOk, ByClass, IsFrame;
  }

  lemma ResumeLocal(s: Session, o: End, k: nat, window: nat)
    requires LocalOk(s, window) && !s.ended && AckInRange(s.link, o.announce) && o.sess != 0
    ensures LocalOk(Resumed(s, o, k), window)
    ensures Resumed(s, o, k).link.acked == o.announce && Resumed(s, o, k).link.sent == 0
  {
    hide LocalOk, LinkOk, Acknowledge, Rewind;
    LiveLink(s, window);
    AcknowledgeOk(s.link, o.announce, window);
    AcknowledgeShape(s.link, o.announce);
    RewindOk(Acknowledge(s.link, o.announce), window);
    LinkedRange(s.link, o.announce, window);
    Relinked(s, Resumed(s, o, k), o.announce - s.link.acked, window);
  }

  lemma LiveLink(s: Session, window: nat)
    requires LocalOk(s, window) && !s.ended
    ensures LinkOk(s.link, window)
  {
    hide LinkOk, ByClass, IsFrame;
  }

  lemma LinkedRange(l: Link, ack: nat, window: nat)
    requires LinkOk(l, window) && AckInRange(l, ack)
    ensures 1 <= ack && 0 <= ack - l.acked <= |l.ring|
  {
    hide Bytes;
  }

  lemma ResumeEnds(k: nat, e: End, o: End, s: Session, t: Session)
    requires EndOver(k, e, o, s) && e.running && e.phase == AwaitResume && o.wire != [] && o.sess != 0
    requires o.wire[0] == Resume(o.sess, o.view, o.announce) && o.announce != 0 && Nums(o.wire[..1]) == []
    requires t == s.(peer := o.sess, link := t.link, bindSock := t.bindSock, ackSock := t.ackSock)
    requires s.peer == 0 || s.peer == o.sess
    requires t.link.acked == o.announce && t.link.sent == 0
    ensures EndOver(k, e.(read := 1, phase := Ready, resumed := true), o, t)
  {
    QuietWire(k, e, o, s);
    assert o.wire[..0] == [];
  }

  lemma ResumeBound(w: World, x: Side, k: nat, v: World)
    requires Inv(w) && Enabled(w, ReadResume(x, k))
    requires var e, o := EndAt(w, k, x), EndAt(w, k, Other(x)); var s := w.sessions[e.sess];
      && o.sess != 0 && o.announce != 0
      && (s.peer == 0 || s.peer == o.sess) && (o.view == 0 || o.view == e.sess)
      && Resumed(s, o, k).link.acked == o.announce
      && v == Touch(w, k, x, e.(read := 1, phase := Ready, resumed := true), Resumed(s, o, k))
    ensures IsSess(v, EndAt(w, k, x).sess) && BoundOk(v, EndAt(w, k, x).sess)
  {
    hide ReadOk, SendOk, LinkOk, ByClass, IsFrame;
    var e, o := EndAt(w, k, x), EndAt(w, k, Other(x));
    var s := w.sessions[e.sess];
    assert EndOk(w, k, Other(x)) && BoundOk(w, e.sess) && LocalOk(s, w.window);
    ServingFacts(w, k, x);
    hide LocalOk, Inv, EndOk;
    if s.peer != 0 {
      TouchOnward(w, k, x, EndAt(v, k, x), v.sessions[e.sess]);
      JoinedKeeps(w, v, e.sess, s.bindSock);
    }
    assert Joined(v, e.sess, k);
  }

  lemma ResumeKeeps(w: World, x: Side, k: nat)
    requires Inv(w) && Enabled(w, ReadResume(x, k))
    requires var e, o := EndAt(w, k, x), EndAt(w, k, Other(x)); var s := w.sessions[e.sess];
      && !s.ended
      && (s.peer == 0 || s.peer == o.sess) && (o.view == 0 || o.view == e.sess)
      && AckInRange(s.link, o.announce)
    ensures var e, o := EndAt(w, k, x), EndAt(w, k, Other(x));
      Inv(Touch(w, k, x, e.(read := 1, phase := Ready, resumed := true), Resumed(w.sessions[e.sess], o, k)))
  {
    hide EndOver, LocalOk, BoundOk;
    var e, o := EndAt(w, k, x), EndAt(w, k, Other(x));
    assert EndOk(w, k, x) && EndOk(w, k, Other(x));
    var s := w.sessions[e.sess];
    assert LocalOk(s, w.window);
    OpensWithResume(k, o, e, w.sessions[o.sess]);
    ResumeLocal(s, o, k, w.window);
    var f, t := e.(read := 1, phase := Ready, resumed := true), Resumed(s, o, k);
    ResumeEnds(k, e, o, s, t);
    Unseen(k, e, o, w.sessions[o.sess], f);
    ResumeBound(w, x, k, Touch(w, k, x, f, t));
    TouchKeeps(w, k, x, f, t);
  }

  /**
   * What any frame behind the RESUME proves: the writer agreed on this very session, its ack
   * lies in range, and a sequenced frame is exactly the one the reader expects next.
   */
  ghost predicate Expected(e: End, o: End, s: Session, so: Session, f: WireFrame) {
    && o.resumed && so.peer == e.sess && e.announce != 0
    && !f.Resume?
    && s.link.acked <= AckOf(f) <= o.ackLoaded <= so.recvNext
    && AckInRange(s.link, AckOf(f))
    && (s.ended || AckOf(f) <= s.link.acked + s.link.sent)
    && (f.DataFrame? && Sequenced(f.kind) ==> f.num == s.recvNext && IsFrame(so.log, f.num, f.kind, f.data))
  }

  lemma ExpectedNext(k: nat, e: End, o: End, s: Session, so: Session, window: nat)
    requires EndOver(k, e, o, s) && EndOver(k, o, e, so) && LocalOk(s, window) && LocalOk(so, window)
    requires so.peer == e.sess ==> so.delivered <= s.log
    requires e.phase == Ready && e.read < |o.wire|
    ensures Expected(e, o, s, so, o.wire[e.read])
  {
    hide ByClass, LinkOk;
    var f := o.wire[e.read];
    assert AckOf(o.wire[e.read - 1]) <= AckOf(f);
    NumsPrefix(e.wire, o.read);
    if f.DataFrame? && Sequenced(f.kind) {
      NumAt(o.wire, e.read, e.announce);
    }
  }

  lemma AckedLocal(s: Session, k: nat, ack: nat, window: nat)
    requires LocalOk(s, window) && AckInRange(s.link, ack) && s.peer != 0
    ensures LocalOk(Acked(s, k, ack), window)
    ensures Acked(s, k, ack).link.acked == ack
    ensures s.ended || ack <= s.link.acked + s.link.sent ==>
      s.ended || Acked(s, k, ack).link.sent == s.link.acked + s.link.sent - ack
  {
    hide LocalOk, LinkOk, Acknowledge;
    AcknowledgeShape(s.link, ack);
    if s.ended {
      AckedEnded(s, Acked(s, k, ack), window);
    } else {
      LiveLink(s, window);
      AcknowledgeOk(s.link, ack, window);
      LinkedRange(s.link, ack, window);
      if ack != s.link.acked { Relinked(s, Acked(s, k, ack), ack - s.link.acked, window); }
    }
  }

  lemma AckedEnded(s: Session, t: Session, window: nat)
    requires LocalOk(s, window) && s.ended && s.peer != 0 && AckInRange(s.link, t.link.acked)
    requires t == s.(link := t.link, ackSock := t.ackSock)
    requires t.link.sendNext == s.link.sendNext && t.link.queues == s.link.queues && (s.link.ring == [] ==> t.link.ring == [])
    ensures LocalOk(t, window)
  {
    hide LinkOk, ByClass, IsFrame;
  }

  /** What the reader has taken, one frame later. */
  lemma ConsumeRead(e: End, o: End, s: Session, t: Session, f: WireFrame, phase: Phase)
    requires ReadOk(e, o, s) && e.phase == Ready && e.read < |o.wire| && f == o.wire[e.read]
    requires t.recvNext == s.recvNext && t.link.acked == AckOf(f)
    requires
      || (phase == Ready && t.delivered == s.delivered && !(f.DataFrame? && Sequenced(f.kind)))
      || (phase == Stopped && t.delivered == s.delivered)
      || (f.DataFrame? && Sequenced(f.kind) && phase == Handling(s.recvNext) && e.running && |t.delivered| == |s.delivered| + 1)
    ensures ReadOk(e.(read := e.read + 1, phase := phase), o, t)
  {
    assert o.wire[..e.read + 1] == o.wire[..e.read] + [f];
    NumsAppend(o.wire[..e.read], f);
    hide Nums;
  }

  /** The reader's end after one frame. */
  lemma ConsumeEnds(k: nat, e: End, o: End, s: Session, t: Session, f: WireFrame, phase: Phase)
    requires EndOver(k, e, o, s) && e.phase == Ready && e.read < |o.wire| && f == o.wire[e.read]
    requires t == s.(link := t.link, ackSock := t.ackSock, delivered := t.delivered)
    requires t.link.acked == AckOf(f) && (s.ended || t.link.acked + t.link.sent == s.link.acked + s.link.sent)
    requires
      || (phase == Ready && t.delivered == s.delivered && !(f.DataFrame? && Sequenced(f.kind)))
      || (phase == Stopped && t.delivered == s.delivered)
      || (f.DataFrame? && Sequenced(f.kind) && phase == Handling(s.recvNext) && |t.delivered| == |s.delivered| + 1)
    ensures EndOver(k, e.(read := e.read + 1, phase := phase), o, t)
  {
    hide ReadOk, Nums, OutNums, Counting;
    ConsumeRead(e, o, s, t, f, phase);
  }

  lemma ConsumeBound(w: World, x: Side, k: nat, f: End, t: Session, v: World)
    requires Inv(w) && Serving(w, k, x) && v == Touch(w, k, x, f, t)
    requires var e, o := EndAt(w, k, x), EndAt(w, k, Other(x)); var s := w.sessions[e.sess];
      && e.phase == Ready && o.sess != 0 && s.peer == o.sess && IsSess(w, o.sess)
      && var so := w.sessions[o.sess];
      && o.resumed && so.peer == e.sess && so.side == Other(x) && (o.view == 0 || o.view == e.sess)
      && f == e.(read := f.read, phase := f.phase)
      && t == s.(link := t.link, ackSock := t.ackSock, delivered := t.delivered)
      && (t.ackSock == k || (t.ackSock == s.ackSock && t.link.acked == s.link.acked))
      && e.resumed
      && t.link.acked <= o.ackLoaded <= so.recvNext
      && t.delivered <= so.log
      && (|t.delivered| == t.recvNext ==> f.phase.Handling?)
    ensures IsSess(v, EndAt(w, k, x).sess) && BoundOk(v, EndAt(w, k, x).sess)
  {
    hide EndOver, LocalOk;
    var id := EndAt(w, k, x).sess;
    var s := w.sessions[id];
    assert BoundOk(w, id);
    ServingFacts(w, k, x);
    TouchOnward(w, k, x, f, t);
    JoinedKeeps(w, v, id, s.bindSock);
    if t.ackSock != k {
      JoinedKeeps(w, v, id, s.ackSock);
    }
  }

  /** A reader waiting for the peer to reset never sees a frame: the peer cannot agree on its session. */
  lemma NoFrameBeforeReset(k: nat, e: End, o: End, s: Session, so: Session)
    requires EndOver(k, e, o, s) && EndOver(k, o, e, so)
    requires e.phase == AwaitReset
    ensures e.read == |o.wire|
  {
  }

  /** The reader meets no error behind an agreed RESUME: Consume goes one of three ways. */
  lemma ConsumeShape(s: Session, e: End, o: End, so: Session, k: nat, f: WireFrame)
    requires e.phase == Ready && Expected(e, o, s, so, f) && |s.delivered| + 1 == s.recvNext
    ensures var (t, g) := Consume(s, e, k, f);
      && t == Acked(s, k, AckOf(f)).(delivered := t.delivered)
      && g == e.(read := e.read + 1, phase := g.phase)
      && ( || (g.phase == Ready && t.delivered == s.delivered && !(f.DataFrame? && Sequenced(f.kind)))
           || (g.phase == Stopped && t.delivered == s.delivered && s.ended)
           || (f.DataFrame? && Sequenced(f.kind) && g.phase == Handling(s.recvNext)
               && t.delivered == s.delivered + [Msg(f.kind, f.data)]))
  {
  }

  lemma ReadLocal(s: Session, t: Session, so: Session, k: nat, f: WireFrame, window: nat)
    requires LocalOk(s, window) && AckInRange(s.link, AckOf(f)) && s.peer != 0 && |s.delivered| + 1 == s.recvNext
    requires t == Acked(s, k, AckOf(f)).(delivered := t.delivered)
    requires t.delivered == s.delivered
      || (f.DataFrame? && t.delivered == s.delivered + [Msg(f.kind, f.data)] && IsFrame(so.log, s.recvNext, f.kind, f.data))
    requires s.delivered <= so.log
    ensures LocalOk(t, window) && t.delivered <= so.log
  {
    hide LocalOk, Acknowledge, AckInRange;
    AckedLocal(s, k, AckOf(f), window);
    AckedElse(s, k, AckOf(f));
    DeliveredLocal(Acked(s, k, AckOf(f)), t.delivered, window);
  }

  lemma AckedElse(s: Session, k: nat, ack: nat)
    ensures Acked(s, k, ack).peer == s.peer && Acked(s, k, ack).recvNext == s.recvNext && Acked(s, k, ack).delivered == s.delivered
  {
    hide Acknowledge;
  }

  lemma DeliveredLocal(s: Session, delivered: seq<Msg>, window: nat)
    requires LocalOk(s, window) && s.peer != 0 && s.recvNext <= |delivered| + 1 <= s.recvNext + 1
    ensures LocalOk(s.(delivered := delivered), window)
  {
    hide LinkOk, ByClass;
  }

  lemma ReadExpected(w: World, x: Side, k: nat)
    requires Inv(w) && Enabled(w, Read(x, k))
    ensures var e, o := EndAt(w, k, x), EndAt(w, k, Other(x));
      && e.phase == Ready && IsSess(w, o.sess)
      && Expected(e, o, w.sessions[e.sess], w.sessions[o.sess], o.wire[e.read])
  {
    hide EndOver, LocalOk, BoundOk;
    var e, o := EndAt(w, k, x), EndAt(w, k, Other(x));
    assert EndOk(w, k, x) && EndOk(w, k, Other(x));
    var s, so := w.sessions[e.sess], w.sessions[o.sess];
    assert LocalOk(s, w.window) && LocalOk(so, w.window);
    if e.phase == AwaitReset {
      NoFrameBeforeReset(k, e, o, s, so);
    }
    ReadFacts(w, x, k);
    ExpectedNext(k, e, o, s, so, w.window);
  }

  /** The session and the reader's end after one expected frame. */
  ghost predicate ReadOff(k: nat, e: End, o: End, s: Session, so: Session, f: WireFrame, window: nat, t: Session, g: End) {
    && g.phase != Failed && g == e.(read := e.read + 1, phase := g.phase)
    && t == s.(link := t.link, ackSock := t.ackSock, delivered := t.delivered)
    && LocalOk(t, window) && t.delivered <= so.log && t.link.acked == AckOf(f)
    && EndOver(k, g, o, t) && EndOver(k, o, g, so)
    && (t.ackSock == k || (t.ackSock == s.ackSock && t.link.acked == s.link.acked))
    && (|t.delivered| == t.recvNext ==> g.phase.Handling?)
  }

  lemma ReadValues(k: nat, e: End, o: End, s: Session, so: Session, f: WireFrame, window: nat)
    requires EndOver(k, e, o, s) && EndOver(k, o, e, so) && LocalOk(s, window) && e.read < |o.wire| && f == o.wire[e.read]
    requires e.phase == Ready && Expected(e, o, s, so, f) && |s.delivered| + 1 == s.recvNext && s.delivered <= so.log && s.peer != 0
    ensures ReadOff(k, e, o, s, so, f, window, Consume(s, e, k, f).0, Consume(s, e, k, f).1)
  {
    hide EndOver, LocalOk, Consume, Acknowledge;
    ConsumeShape(s, e, o, so, k, f);
    var (t, g) := Consume(s, e, k, f);
    ReadLocal(s, t, so, k, f, window);
    AckedLocal(s, k, AckOf(f), window);
    ConsumeEnds(k, e, o, s, t, f, g.phase);
    Unseen(k, e, o, so, g);
  }

  lemma ReadKeeps(w: World, x: Side, k: nat)
    requires Inv(w) && Enabled(w, Read(x, k))
    ensures var e := EndAt(w, k, x); var o := EndAt(w, k, Other(x));
      var (t, f) := Consume(w.sessions[e.sess], e, k, o.wire[e.read]);
      f.phase != Failed && Inv(Touch(w, k, x, f, t))
  {
    hide EndOver, LocalOk, BoundOk, Consume;
    var e, o := EndAt(w, k, x), EndAt(w, k, Other(x));
    assert EndOk(w, k, x) && EndOk(w, k, Other(x));
    ReadExpected(w, x, k);
    var s, so := w.sessions[e.sess], w.sessions[o.sess];
    assert LocalOk(s, w.window);
    ServingFacts(w, k, x);
    ReadFacts(w, x, k);
    var g := o.wire[e.read];
    ReadValues(k, e, o, s, so, g, w.window);
    var (t, f) := Consume(s, e, k, g);
    hide Inv, EndOk;
    ConsumeBound(w, x, k, f, t, Touch(w, k, x, f, t));
    TouchKeeps(w, k, x, f, t);
  }

  lemma ReadFacts(w: World, x: Side, k: nat)
    requires Inv(w) && Serving(w, k, x) && EndAt(w, k, x).phase == Ready
    ensures var e, o := EndAt(w, k, x), EndAt(w, k, Other(x));
      && IsSess(w, o.sess) && w.sessions[e.sess].peer == o.sess && e.resumed
      && w.sessions[o.sess].side == Other(x)
      && (o.view != 0 ==> o.view == w.sessions[o.sess].peer)
      && w.sessions[e.sess].delivered <= w.sessions[o.sess].log
      && (w.sessions[o.sess].peer == e.sess ==> w.sessions[o.sess].delivered <= w.sessions[e.sess].log)
  {
    hide SendOk, LocalOk;
    var e, o := EndAt(w, k, x), EndAt(w, k, Other(x));
    assert EndOk(w, k, x) && EndOk(w, k, Other(x)) && BoundOk(w, e.sess);
    assert BoundOk(w, o.sess);
  }

  lemma FinishEnds(k: nat, e: End, o: End, s: Session, so: Session)
    requires EndOver(k, e, o, s) && EndOver(k, o, e, so) && e.phase.Handling?
    ensures EndOver(k, e.(phase := Ready), o, s.(recvNext := e.phase.num + 1))
  {
    if !o.resumed {
      QuietWire(k, o, e, so);
    }
  }

  lemma FinishLocal(s: Session, window: nat)
    requires LocalOk(s, window) && |s.delivered| == s.recvNext && s.peer != 0
    ensures LocalOk(s.(recvNext := s.recvNext + 1), window)
  {
    hide LinkOk, ByClass;
  }

  lemma FinishBound(w: World, x: Side, k: nat, f: End, t: Session, v: World)
    requires Inv(w) && Serving(w, k, x) && v == Touch(w, k, x, f, t)
    requires var e := EndAt(w, k, x); var s := w.sessions[e.sess];
      && f == e.(phase := Ready) && t == s.(recvNext := s.recvNext + 1) && |s.delivered| == s.recvNext
    ensures IsSess(v, EndAt(w, k, x).sess) && BoundOk(v, EndAt(w, k, x).sess)
  {
    hide EndOver, LocalOk, Joined;
    ServingFacts(w, k, x);
    TouchOnward(w, k, x, f, t);
    BoundMoved(w, v, EndAt(w, k, x).sess);
  }

  lemma HandlingFacts(w: World, k: nat, x: Side)
    requires Inv(w) && Serving(w, k, x) && EndAt(w, k, x).phase.Handling?
    ensures var e := EndAt(w, k, x); var s := w.sessions[e.sess];
      && e.phase.num == s.recvNext == |s.delivered| && s.peer != 0 && EndAt(w, k, Other(x)).sess == s.peer
  {
    hide SendOk, LocalOk, BoundOk;
    assert EndOk(w, k, x);
  }

  lemma FinishKeeps(w: World, x: Side, k: nat)
    requires Inv(w) && Serving(w, k, x) && EndAt(w, k, x).phase.Handling?
    ensures var e := EndAt(w, k, x);
      Inv(Touch(w, k, x, e.(phase := Ready), w.sessions[e.sess].(recvNext := e.phase.num + 1)))
  {
    hide EndOver, LocalOk, BoundOk;
    var e, o := EndAt(w, k, x), EndAt(w, k, Other(x));
    assert EndOk(w, k, x) && EndOk(w, k, Other(x));
    HandlingFacts(w, k, x);
    var s := w.sessions[e.sess];
    assert LocalOk(s, w.window);
    var f, t := e.(phase := Ready), s.(recvNext := e.phase.num + 1);
    FinishEnds(k, e, o, s, w.sessions[o.sess]);
    FinishLocal(s, w.window);
    Unseen(k, e, o, w.sessions[o.sess], f);
    FinishBound(w, x, k, f, t, Touch(w, k, x, f, t));
    TouchKeeps(w, k, x, f, t);
  }

  // ---------------------------------------------------------------- all steps

  lemma ReconcileKeeps(w: World, x: Side, k: nat)
    requires Inv(w) && Enabled(w, ReadResume(x, k))
    ensures Inv(Reconcile(w, x, k))
  {
    hide EndOver, LocalOk, BoundOk;
    var e, o := EndAt(w, k, x), EndAt(w, k, Other(x));
    assert EndOk(w, k, x) && EndOk(w, k, Other(x));
    OpensWithResume(k, o, e, w.sessions[o.sess]);
    var s := w.sessions[e.sess];
    if w.cur.At(x) != e.sess {
      RefuseKeeps(w, x, k, Stopped);
    } else if s.peer != 0 && o.sess != s.peer {
      RefuseKeeps(w, x, k, Stopped);
      ReplaceKeeps(SetEnd(w, k, x, e.(read := 1, phase := Stopped)), x, false);
    } else if o.view != 0 && o.view != e.sess {
      RefuseKeeps(w, x, k, if s.peer == 0 then AwaitReset else Failed);
    } else if !AckInRange(s.link, o.announce) {
      RefuseKeeps(w, x, k, Failed);
    } else {
      ResumeKeeps(w, x, k);
    }
  }

  lemma FailKeeps(w: World, x: Side, k: nat)
    requires Inv(w) && Enabled(w, FailSession(x, k))
    ensures Inv(SetEnd(w, k, x, EndAt(w, k, x).(phase := Stopped)))
  {
    hide EndOver, LocalOk, BoundOk;
    var e, o := EndAt(w, k, x), EndAt(w, k, Other(x));
    assert EndOk(w, k, x) && EndOk(w, k, Other(x));
    var f := e.(phase := Stopped);
    FailEnds(k, e, o, w.sessions[e.sess]);
    if o.sess != 0 { Unseen(k, e, o, w.sessions[o.sess], f); }
    TouchEndKeeps(w, k, x, f);
  }

  lemma FailEnds(k: nat, e: End, o: End, s: Session)
    requires EndOver(k, e, o, s) && e.phase == Failed
    ensures EndOver(k, e.(phase := Stopped), o, s)
  {
  }

  lemma StepKeeps(w: World, st: Step)
    requires Inv(w) && Enabled(w, st)
    ensures Inv(Apply(w, st))
  {
    hide Inv, EndOver, LocalOk, BoundOk;
    match st {
      case CreateState(x) => NothingQueued(); OpenKeeps(w, x, EMPTY_QUEUES);
      case Detach(x) => DetachKeeps(w, x);
      case CloseDetached(id) => EndKeeps(w, id, true);
      case Replace(x, all) => ReplaceKeeps(w, x, all);
      case Enqueue(x, c, d) => EnqueueKeeps(w, x, c, d);
      case Connect => ConnectKeeps(w);
      case Cut(x, k, n) => CutKeeps(w, x, k, n, Apply(w, st));
      case Adopt(x, k) => AdoptKeeps(w, x, k, Apply(w, st));
      case Announce(x, k) => AnnounceKeeps(w, x, k);
      case ReadResume(x, k) => ReconcileKeeps(w, x, k);
      case LoadAck(x, k) => LoadAckKeeps(w, x, k);
      case DrainResend(x, k) => ResendKeeps(w, x, k);
      case DrainTake(x, k, c) => TakeKeeps(w, x, k, c);
      case Write(x, k) => WriteKeeps(w, x, k);
      case WriteAck(x, k) => WriteAckKeeps(w, x, k);
      case Read(x, k) => ReadKeeps(w, x, k);
      case Finish(x, k) => FinishKeeps(w, x, k);
      case FailSession(x, k) =>
        FailKeeps(w, x, k);
        if w.cur.At(x) == EndAt(w, k, x).sess {
          ReplaceKeeps(SetEnd(w, k, x, EndAt(w, k, x).(phase := Stopped)), x, false);
        }
      case Stop(x, k) => StopKeeps(w, x, k);
    }
  }

  lemma ResendKeeps(w: World, x: Side, k: nat)
    requires Inv(w) && Enabled(w, DrainResend(x, k))
    ensures Inv(Apply(w, DrainResend(x, k)))
  {
    hide EndOver, LocalOk, BoundOk;
    var s := w.sessions[EndAt(w, k, x).sess];
    assert LocalOk(s, w.window);
    ResendLocal(s, w.window);
    DrainKeeps(w, x, k, s.(link := Resend(s.link)), ResendFrame(s.link));
  }

  lemma TakeKeeps(w: World, x: Side, k: nat, c: Class)
    requires Inv(w) && Enabled(w, DrainTake(x, k, c))
    ensures Inv(Apply(w, DrainTake(x, k, c)))
  {
    hide EndOver, LocalOk, BoundOk;
    var s := w.sessions[EndAt(w, k, x).sess];
    assert LocalOk(s, w.window);
    TakeLocal(s, c, w.window);
    var f := TakeFrame(s.link, c, w.window);
    DrainKeeps(w, x, k, s.(link := Take(s.link, c, w.window), log := if Sequenced(c) then s.log + [Msg(c, f.data)] else s.log), f);
  }
}
