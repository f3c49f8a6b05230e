/** The invariant of the session protocol and its preservation by every step. */
module ProtocolInvariant {
  import opened Frames
  import opened Links
  import opened Protocol

  /** Sequence numbers of the sequenced frames on a wire, in order. */
  function Nums(wire: seq<WireFrame>): seq<nat> {
    if wire == [] then []
    else
      var f := wire[|wire| - 1];
      Nums(wire[..|wire| - 1]) + (if f.DataFrame? && Sequenced(f.kind) then [f.num] else [])
  }

  function OutNums(outbox: seq<Outbound>): seq<nat> {
    if outbox == [] then []
    else (if Sequenced(outbox[0].kind) then [outbox[0].num] else []) + OutNums(outbox[1..])
  }

  ghost predicate Counting(ns: seq<nat>, start: nat) {
    forall i :: 0 <= i < |ns| ==> ns[i] == start + i
  }

  /** Frame `num` of a session with history `log` carries this payload. */
  ghost predicate IsFrame(log: seq<Msg>, num: nat, kind: Class, data: Data) {
    1 <= num <= |log| && log[num - 1] == Msg(kind, data)
  }

  ghost predicate WireOk(e: End, log: seq<Msg>) {
    && (e.wire != [] ==> e.wire[0] == Resume(e.sess, e.view, e.announce))
    && (forall i :: 1 <= i < |e.wire| ==> !e.wire[i].Resume?)
    && (forall i :: 0 <= i < |e.wire| && e.wire[i].DataFrame? ==>
          var f := e.wire[i];
          if Sequenced(f.kind) then IsFrame(log, f.num, f.kind, f.data) else f.num == 0)
    && (forall i, j :: 0 <= i <= j < |e.wire| ==> AckOf(e.wire[i]) <= AckOf(e.wire[j]))
    && (forall i :: 0 <= i < |e.wire| ==> AckOf(e.wire[i]) <= e.ackLoaded)
    && (forall i :: 0 <= i < |e.outbox| ==>
          var f := e.outbox[i];
          if Sequenced(f.kind) then IsFrame(log, f.num, f.kind, f.data) else f.num == 0)
  }

  /** Adoption, announcement and agreement of one end; `o` is the socket's other end. */
  ghost predicate Shape(k: nat, e: End, o: End, s: Session) {
    && (e.announce == 0 ==> e.wire == [] && e.view == 0 && e.outbox == [] && e.ackLoaded == 0)
    && (e.announce != 0 ==> e.announce <= e.ackLoaded <= s.recvNext)
    && (e.announce != 0 && !e.cut ==> e.wire != [])
    && (e.view != 0 ==> e.view == s.peer)
    && (e.announce != 0 && e.view == 0 ==> e.announce == 1)
    && (e.resumed ==> o.sess != 0 && s.peer == o.sess && o.announce != 0 && 1 <= e.read)
    && (!e.resumed ==> |e.wire| <= 1 && e.outbox == [])
    && (e.running ==> s.server == k)
    && (e.phase != Stopped ==> e.running)
  }

  /** The receive cursor the reader of `e` started from. */
  ghost function Start(e: End, s: Session): nat {
    if e.announce != 0 then e.announce else s.recvNext
  }

  /** What the reader of `e` has taken from the other end's wire. */
  ghost predicate ReadOk(e: End, o: End, s: Session) {
    && e.read <= |o.wire|
    && (e.phase == AwaitResume ==> e.read == 0 && !e.resumed)
    && (e.phase == AwaitReset ==> e.read == 1 && !e.resumed && o.view != 0 && o.view != e.sess)
    && (e.phase == Failed ==> e.read == 1 && !e.resumed)
    && (e.phase == Ready || e.phase.Handling? ==>
          e.resumed && 1 <= e.read && s.link.acked == AckOf(o.wire[e.read - 1]))
    && (e.running ==> |s.delivered| + 1 <= Start(e, s) + |Nums(o.wire[..e.read])|)
    && (e.running && e.phase != Stopped ==> |s.delivered| + 1 == Start(e, s) + |Nums(o.wire[..e.read])|)
    && (e.announce != 0 ==> e.ackLoaded <= e.announce + |Nums(o.wire[..e.read])|)
    && (e.running && !e.phase.Handling? ==> |s.delivered| + 1 == s.recvNext)
    && (e.phase.Handling? ==> e.phase.num == s.recvNext == |s.delivered|)
  }

  /** What the writer of `e` sends: consecutive numbers from the peer's announced cursor on. */
  ghost predicate SendOk(e: End, o: End, s: Session) {
    && WireOk(e, s.log)
    && Counting(Nums(e.wire), o.announce)
    && (!e.cut ==> Counting(Nums(e.wire) + OutNums(e.outbox), o.announce))
    && (e.resumed && e.running && !s.ended ==>
          && s.link.acked + s.link.sent >= o.announce + |Nums(e.wire)|
          && (!e.cut ==> s.link.acked + s.link.sent == o.announce + |Nums(e.wire)| + |OutNums(e.outbox)|))
  }

  ghost predicate EndOver(k: nat, e: End, o: End, s: Session) {
    Shape(k, e, o, s) && ReadOk(e, o, s) && SendOk(e, o, s)
  }

  ghost predicate EndOk(w: World, k: nat, x: Side)
    requires IsSock(w, k)
  {
    var e, o := EndAt(w, k, x), EndAt(w, k, Other(x));
    if e.sess == 0 then
      e == UNUSED.(cut := e.cut)
    else
      && IsSess(w, e.sess)
      && w.sessions[e.sess].side == x
      && EndOver(k, e, o, w.sessions[e.sess])
  }

  /** Cursors, ring and queues of one session. */
  ghost predicate LocalOk(s: Session, window: nat) {
    && s.link.sendNext == |s.log| + 1
    && 1 <= s.link.acked <= s.link.sendNext
    && Total(s.link.queues) && Total(s.accepted) && Total(s.dropped)
    && s.recvNext <= |s.delivered| + 1 <= s.recvNext + 1
    && 1 <= s.recvNext
    && (s.peer == 0 ==> s.recvNext == 1 && s.link.acked == 1 && s.delivered == [] && s.bindSock == 0 && s.ackSock == 0)
    && (!s.ended ==>
          && LinkOk(s.link, window)
          && (forall i :: 0 <= i < |s.link.ring| ==> IsFrame(s.log, s.link.ring[i].num, s.link.ring[i].kind, s.link.ring[i].data))
          && (forall c :: Sequenced(c) ==> s.accepted[c] == ByClass(s.log, c) + s.link.queues[c]))
    && (s.ended ==> s.link.ring == [] && forall c :: Sequenced(c) ==> s.accepted[c] == ByClass(s.log, c) + s.dropped[c])
  }

  /** Socket `j` carried session `id` against its bound peer. */
  ghost predicate Joined(w: World, id: nat, j: nat)
    requires IsSess(w, id)
  {
    var s := w.sessions[id];
    && IsSock(w, j)
    && EndAt(w, j, s.side).sess == id
    && EndAt(w, j, Other(s.side)).sess == s.peer
    && EndAt(w, j, s.side).resumed
    && (EndAt(w, j, Other(s.side)).view == 0 || EndAt(w, j, Other(s.side)).view == id)
  }

  /** The serving end of session `id`, and the handler it may be in. */
  ghost predicate ServerOk(w: World, id: nat)
    requires IsSess(w, id)
  {
    var s := w.sessions[id];
    && (s.server != 0 ==> IsSock(w, s.server) && EndAt(w, s.server, s.side).sess == id && EndAt(w, s.server, s.side).running)
    && (|s.delivered| == s.recvNext ==> s.server != 0 && EndAt(w, s.server, s.side).phase.Handling?)
  }

  /** A session against its bound peer session. */
  ghost predicate BoundOk(w: World, id: nat)
    requires IsSess(w, id)
  {
    var s := w.sessions[id];
    && (s.peer != 0 ==>
          && IsSess(w, s.peer)
          && var p := w.sessions[s.peer];
             && p.side == Other(s.side)
             && s.delivered <= p.log
             && s.link.acked <= p.recvNext
             && (s.link.acked > 1 || s.delivered != [] ==> p.peer == id)
             && Joined(w, id, s.bindSock)
             && Joined(w, id, s.ackSock)
             && s.link.acked <= EndAt(w, s.ackSock, Other(s.side)).ackLoaded)
    && ServerOk(w, id)
  }

  ghost predicate CurOk(w: World, x: Side) {
    w.cur.At(x) != 0 ==>
      && IsSess(w, w.cur.At(x))
      && w.sessions[w.cur.At(x)].side == x
      && !w.sessions[w.cur.At(x)].ended
  }

  ghost predicate Inv(w: World) {
    && |w.sessions| >= 1 && |w.socks| >= 1
    && CurOk(w, Left) && CurOk(w, Right)
    && (forall id: nat :: IsSess(w, id) ==> LocalOk(w.sessions[id], w.window))
    && (forall id: nat :: IsSess(w, id) ==> BoundOk(w, id))
    && (forall k: nat, x :: IsSock(w, k) ==> EndOk(w, k, x))
  }

  // ---------------------------------------------------------------- wires

  lemma NumsAppend(wire: seq<WireFrame>, f: WireFrame)
    ensures Nums(wire + [f]) == Nums(wire) + (if f.DataFrame? && Sequenced(f.kind) then [f.num] else [])
  {
    assert (wire + [f])[..|wire|] == wire;
  }

  lemma {:induction false} NumsPrefix(wire: seq<WireFrame>, n: nat)
    requires n <= |wire|
    ensures Nums(wire[..n]) <= Nums(wire)
    ensures |Nums(wire[..n])| <= |Nums(wire)|
  {
    if n == |wire| {
      assert wire[..n] == wire;
    } else {
      NumsPrefix(wire[..|wire| - 1], n);
      assert wire[..|wire| - 1][..n] == wire[..n];
    }
  }

  lemma {:induction false} OutNumsAppend(outbox: seq<Outbound>, f: Outbound)
    ensures OutNums(outbox + [f]) == OutNums(outbox) + (if Sequenced(f.kind) then [f.num] else [])
  {
    if outbox == [] {
      assert outbox + [f] == [f];
    } else {
      OutNumsAppend(outbox[1..], f);
      assert (outbox + [f])[1..] == outbox[1..] + [f];
    }
  }

  /** The sequenced frame a reader meets at `i` is the one its count says. */
  lemma NumAt(wire: seq<WireFrame>, i: nat, start: nat)
    requires i < |wire| && Counting(Nums(wire), start)
    requires wire[i].DataFrame? && Sequenced(wire[i].kind)
    ensures wire[i].num == start + |Nums(wire[..i])|
  {
    NumsPrefix(wire, i + 1);
    assert wire[..i + 1] == wire[..i] + [wire[i]];
    NumsAppend(wire[..i], wire[i]);
    assert Nums(wire[..i + 1])[|Nums(wire[..i])|] == wire[i].num;
  }

  // ---------------------------------------------------------------- framing

  /** How a session may change under the eyes of connections that no longer run. */
  ghost predicate Grown(s: Session, t: Session) {
    && t.side == s.side
    && s.log <= t.log
    && s.recvNext <= t.recvNext
    && (s.peer != 0 ==> t.peer == s.peer)
  }

  lemma IdleEnd(k: nat, e: End, o: End, s: Session, t: Session)
    requires EndOver(k, e, o, s) && !e.running && Grown(s, t)
    ensures EndOver(k, e, o, t)
  {
  }

  /** A change a running connection does not notice either: queues, ring contents, the end flag. */
  ghost predicate SameStream(s: Session, t: Session) {
    && t == s.(link := t.link, accepted := t.accepted, dropped := t.dropped, ended := t.ended)
    && t.link.acked == s.link.acked
    && (t.ended || (t.link.sent == s.link.sent && !s.ended))
  }

  lemma UnnoticedEnd(k: nat, e: End, o: End, s: Session, t: Session)
    requires EndOver(k, e, o, s) && SameStream(s, t)
    ensures EndOver(k, e, o, t)
  {
  }

  /** What a session expects of an end it is joined to: ends only move this way. */
  ghost predicate Ahead(e: End, f: End) {
    && (e.sess != 0 ==> f.sess == e.sess)
    && e.ackLoaded <= f.ackLoaded
    && (e.resumed ==> f.resumed)
    && (e.announce != 0 ==> f.view == e.view)
  }

  /** Joined sockets stay joined: both ends had announced. */
  lemma JoinedKeeps(w: World, v: World, id: nat, j: nat)
    requires Inv(w) && IsSess(w, id) && IsSess(v, id)
    requires v.sessions[id].side == w.sessions[id].side && v.sessions[id].peer == w.sessions[id].peer != 0
    requires Joined(w, id, j)
    requires IsSock(v, j) && Ahead(EndAt(w, j, Left), EndAt(v, j, Left)) && Ahead(EndAt(w, j, Right), EndAt(v, j, Right))
    ensures Joined(v, id, j)
  {
    assert EndOk(w, j, w.sessions[id].side);
  }

  /** The whole world moves `Ahead`, and sessions other than `id` keep everything but their place. */
  ghost predicate Onward(w: World, v: World) {
    && |w.sessions| <= |v.sessions| && |w.socks| <= |v.socks|
    && v.window == w.window
    && (forall i: nat :: IsSess(w, i) ==> Grown(w.sessions[i], v.sessions[i]))
    && (forall k: nat :: IsSock(w, k) ==>
          Ahead(EndAt(w, k, Left), EndAt(v, k, Left)) && Ahead(EndAt(w, k, Right), EndAt(v, k, Right)))
  }

  /** A session stays bound to its peer as long as its ack and its deliveries do not move. */
  lemma BoundMoved(w: World, v: World, id: nat)
    requires Inv(w) && Onward(w, v) && IsSess(w, id)
    requires var s, t := w.sessions[id], v.sessions[id];
      && t.peer == s.peer && t.delivered == s.delivered && t.link.acked == s.link.acked
      && t.bindSock == s.bindSock && t.ackSock == s.ackSock
    requires ServerOk(v, id)
    ensures BoundOk(v, id)
  {
    hide LocalOk, EndOver;
    var s := w.sessions[id];
    assert BoundOk(w, id);
    if s.peer != 0 {
      JoinedKeeps(w, v, id, s.bindSock);
      JoinedKeeps(w, v, id, s.ackSock);
      assert Grown(w.sessions[s.peer], v.sessions[s.peer]);
    }
  }

  /** In particular one nobody touched, while its serving end stays. */
  lemma BoundKeeps(w: World, v: World, q: nat)
    requires Inv(w) && Onward(w, v) && IsSess(w, q)
    requires v.sessions[q] == w.sessions[q]
    requires var s := w.sessions[q];
      s.server != 0 ==> EndAt(v, s.server, s.side).running && EndAt(v, s.server, s.side).phase == EndAt(w, s.server, s.side).phase
    ensures BoundOk(v, q)
  {
    hide LocalOk, EndOver;
    assert BoundOk(w, q);
    BoundMoved(w, v, q);
  }

  function Touch(w: World, k: nat, x: Side, f: End, t: Session): World
    requires Serving(w, k, x)
  {
    SetSess(SetEnd(w, k, x, f), EndAt(w, k, x).sess, t)
  }

  /** What a step of the connection serving socket `k` must establish about itself. */
  ghost predicate TouchOk(w: World, k: nat, x: Side, f: End, t: Session)
    requires Serving(w, k, x)
  {
    var e, o := EndAt(w, k, x), EndAt(w, k, Other(x));
    var s := w.sessions[e.sess];
    && Grown(s, t) && t.ended == s.ended
    && Ahead(e, f) && f.sess == e.sess
    && LocalOk(t, w.window)
    && EndOver(k, f, o, t)
    && (o.sess != 0 ==> IsSess(w, o.sess) && EndOver(k, o, f, w.sessions[o.sess]))
  }

  lemma TouchOnward(w: World, k: nat, x: Side, f: End, t: Session)
    requires Serving(w, k, x)
    requires Grown(w.sessions[EndAt(w, k, x).sess], t) && Ahead(EndAt(w, k, x), f)
    ensures Onward(w, Touch(w, k, x, f, t))
  {
    var v := Touch(w, k, x, f, t);
    forall j: nat | IsSock(w, j)
      ensures Ahead(EndAt(w, j, Left), EndAt(v, j, Left)) && Ahead(EndAt(w, j, Right), EndAt(v, j, Right))
    {
    }
  }

  lemma TouchEnd(w: World, k: nat, x: Side, f: End, t: Session, j: nat, y: Side)
    requires Inv(w) && Serving(w, k, x) && TouchOk(w, k, x, f, t)
    requires IsSock(w, j)
    ensures EndOk(Touch(w, k, x, f, t), j, y)
  {
    hide LocalOk, BoundOk, ReadOk, SendOk;
    var v := Touch(w, k, x, f, t);
    assert EndOk(w, j, y) && EndOk(w, k, x) && EndOk(w, k, Other(x));
    var e := EndAt(w, j, y);
    if j != k && e.sess == EndAt(w, k, x).sess && e.sess != 0 {
      IdleEnd(j, e, EndAt(w, j, Other(y)), w.sessions[e.sess], t);
    }
  }

  lemma TouchKeeps(w: World, k: nat, x: Side, f: End, t: Session)
    requires Inv(w) && Serving(w, k, x) && TouchOk(w, k, x, f, t)
    requires BoundOk(Touch(w, k, x, f, t), EndAt(w, k, x).sess)
    ensures Inv(Touch(w, k, x, f, t))
  {
    hide LocalOk, EndOver, Ahead;
    var v := Touch(w, k, x, f, t);
    var id := EndAt(w, k, x).sess;
    TouchOnward(w, k, x, f, t);
    assert EndOk(w, k, x);
    forall q: nat | IsSess(v, q) ensures LocalOk(v.sessions[q], v.window) && BoundOk(v, q) {
      assert LocalOk(w.sessions[q], w.window);
      if q != id {
        assert BoundOk(w, q);
        BoundKeeps(w, v, q);
      }
    }
    forall j: nat, y | IsSock(v, j) ensures EndOk(v, j, y) {
      TouchEnd(w, k, x, f, t, j, y);
    }
  }

  /** The same for a step that leaves the session alone and the reader where it is or stopped. */
  lemma TouchEndKeeps(w: World, k: nat, x: Side, f: End)
    requires Inv(w) && Serving(w, k, x)
    requires var e, o := EndAt(w, k, x), EndAt(w, k, Other(x));
      && Ahead(e, f) && f.sess == e.sess && f.running && (f.phase == e.phase || !e.phase.Handling?)
      && EndOver(k, f, o, w.sessions[e.sess])
      && (o.sess != 0 ==> IsSess(w, o.sess) && EndOver(k, o, f, w.sessions[o.sess]))
    ensures Inv(SetEnd(w, k, x, f))
  {
    hide LocalOk, ReadOk, SendOk;
    var id := EndAt(w, k, x).sess;
    var s := w.sessions[id];
    assert SetEnd(w, k, x, f) == Touch(w, k, x, f, s);
    TouchOnward(w, k, x, f, s);
    assert LocalOk(s, w.window) && BoundOk(w, id) && EndOk(w, k, x);
    if s.peer != 0 {
      JoinedKeeps(w, Touch(w, k, x, f, s), id, s.bindSock);
      JoinedKeeps(w, Touch(w, k, x, f, s), id, s.ackSock);
    }
    TouchKeeps(w, k, x, f, s);
  }
}
