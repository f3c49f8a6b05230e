/**
 * Runs in which both ends serve the pair's sockets in the same order: some ranking of the sockets
 * grows from each socket a side adopts to the next, on both sides. In such runs no reader ever
 * meets a protocol error.
 */
module ProtocolOrder {
  import opened Links
  import opened Protocol
  import opened ProtocolInvariant
  import opened ProtocolSteps

  ghost predicate InOrder(rank: nat -> nat, w: World, st: Step) {
    st.Adopt? ==> forall j: nat :: IsSock(w, j) && EndAt(w, j, st.x).sess != 0 ==> rank(j) < rank(st.k)
  }

  /** Different sockets rank differently. */
  ghost predicate Ranks(rank: nat -> nat) {
    forall j: nat, k: nat :: rank(j) == rank(k) ==> j == k
  }

  /** Two sockets the same side adopted, one after the other. */
  ghost predicate PairOk(rank: nat -> nat, w: World, x: Side, j: nat, k: nat)
    requires IsSock(w, j) && IsSock(w, k)
  {
    var e, f := EndAt(w, j, x), EndAt(w, k, x);
    rank(j) < rank(k) && e.sess != 0 && f.sess != 0 ==>
      && e.sess <= f.sess
      && (e.sess == f.sess ==> !e.running && (f.announce != 0 ==> e.ackLoaded <= f.announce))
  }

  /** What a RESUME names as the peer tells when the session was bound. */
  ghost predicate ViewOk(rank: nat -> nat, w: World, x: Side, k: nat)
    requires IsSock(w, k)
  {
    var e := EndAt(w, k, x);
    && e.phase != Failed
    && (e.sess != 0 ==>
          && IsSess(w, e.sess)
          && var s := w.sessions[e.sess];
             && (e.announce != 0 && s.bindSock != 0 && rank(s.bindSock) < rank(k) ==> e.view == s.peer)
             && (e.view != 0 ==> s.bindSock != 0 && rank(s.bindSock) <= rank(k)))
  }

  ghost predicate NewestCur(w: World) {
    forall id: nat :: IsSess(w, id) && w.cur.At(w.sessions[id].side) != 0 ==> id <= w.cur.At(w.sessions[id].side)
  }

  ghost predicate OrdInv(rank: nat -> nat, w: World) {
    && NewestCur(w)
    && (forall x, j: nat, k: nat :: IsSock(w, j) && IsSock(w, k) ==> PairOk(rank, w, x, j, k))
    && (forall x, k: nat :: IsSock(w, k) ==> ViewOk(rank, w, x, k))
  }

  /** How one end moves in a step that adopts nothing; `s` is its session before the step. */
  ghost predicate EndMoves(e: End, f: End, s: Session) {
    && f.sess == e.sess
    && (f.running ==> e.running)
    && (!e.running ==> f.ackLoaded == e.ackLoaded && f.announce == e.announce)
    && (e.announce != 0 ==> f.announce == e.announce && f.view == e.view)
    && (e.announce == 0 && f.announce != 0 ==> f.announce == s.recvNext && f.view == s.peer)
    && (f.announce == 0 ==> f.view == e.view)
  }

  /** How one session moves: its peer is bound at most once, by the connection then serving it. */
  ghost predicate SessMoves(s: Session, t: Session, id: nat, w: World) {
    && (s.peer != 0 ==> t.peer == s.peer)
    && (t.bindSock == s.bindSock || (s.bindSock == 0 && s.peer == 0 && IsSock(w, t.bindSock)
          && exists x :: EndAt(w, t.bindSock, x).sess == id && EndAt(w, t.bindSock, x).running && s.side == x))
    && (t.bindSock == s.bindSock ==> t.peer == s.peer)
    && t.side == s.side
  }

  ghost predicate Moves(w: World, v: World) {
    && |w.sessions| <= |v.sessions| && |w.socks| <= |v.socks|
    && (forall id: nat :: IsSess(w, id) ==> SessMoves(w.sessions[id], v.sessions[id], id, w))
    && (forall x, k: nat :: IsSock(w, k) && EndAt(w, k, x).sess != 0 ==>
          IsSess(w, EndAt(w, k, x).sess) && EndMoves(EndAt(w, k, x), EndAt(v, k, x), w.sessions[EndAt(w, k, x).sess]))
    && (forall x, k: nat :: IsSock(w, k) && EndAt(w, k, x).sess == 0 ==>
          EndAt(v, k, x) == EndAt(w, k, x).(wire := EndAt(v, k, x).wire, cut := EndAt(v, k, x).cut))
    && (forall k: nat :: IsSock(v, k) && !IsSock(w, k) ==> v.socks[k] == Pair(UNUSED, UNUSED))
  }

  lemma MovePair(rank: nat -> nat, w: World, v: World, x: Side, j: nat, k: nat)
    requires Inv(w) && OrdInv(rank, w) && Moves(w, v) && IsSock(w, j) && IsSock(w, k)
    ensures PairOk(rank, v, x, j, k)
  {
    hide LocalOk, BoundOk, ReadOk, SendOk, SessMoves;
    assert PairOk(rank, w, x, j, k) && EndOk(w, j, x) && EndOk(w, k, x);
  }

  /** Two sockets of one session: only the later may still run. */
  lemma LaterRuns(rank: nat -> nat, w: World, x: Side, j: nat, k: nat)
    requires OrdInv(rank, w) && IsSock(w, j) && IsSock(w, k)
    requires EndAt(w, j, x).sess == EndAt(w, k, x).sess != 0 && EndAt(w, k, x).running
    ensures rank(j) <= rank(k)
  {
    assert PairOk(rank, w, x, k, j);
  }

  lemma MoveView(rank: nat -> nat, w: World, v: World, x: Side, k: nat)
    requires Inv(w) && OrdInv(rank, w) && Moves(w, v) && IsSock(w, k)
    requires EndAt(v, k, x).phase != Failed
    ensures ViewOk(rank, v, x, k)
  {
    hide LocalOk, ReadOk, SendOk;
    var e, f := EndAt(w, k, x), EndAt(v, k, x);
    assert ViewOk(rank, w, x, k) && EndOk(w, k, x);
    if e.sess != 0 {
      var s, t := w.sessions[e.sess], v.sessions[e.sess];
      assert SessMoves(s, t, e.sess, w) && BoundOk(w, e.sess);
      if t.bindSock != s.bindSock {
        LaterRuns(rank, w, x, k, t.bindSock);
      } else if e.announce == 0 && f.announce != 0 && s.peer != 0 {
        LaterRuns(rank, w, x, s.bindSock, k);
      }
    }
  }

  lemma MoveOrd(rank: nat -> nat, w: World, v: World)
    requires Inv(w) && OrdInv(rank, w) && Moves(w, v) && NewestCur(v)
    requires forall x, k: nat :: IsSock(v, k) ==> EndAt(v, k, x).phase != Failed
    ensures OrdInv(rank, v)
  {
    hide Inv, Moves, PairOk, ViewOk;
    assert |w.socks| <= |v.socks| && (forall k: nat :: IsSock(v, k) && !IsSock(w, k) ==> v.socks[k] == Pair(UNUSED, UNUSED)) by {
      MovesNew(w, v);
    }
    forall x, j: nat, k: nat | IsSock(v, j) && IsSock(v, k) ensures PairOk(rank, v, x, j, k) {
      if IsSock(w, j) && IsSock(w, k) { MovePair(rank, w, v, x, j, k); } else { UnusedPair(rank, v, x, j, k); }
    }
    forall x, k: nat | IsSock(v, k) ensures ViewOk(rank, v, x, k) {
      if IsSock(w, k) { MoveView(rank, w, v, x, k); } else { UnusedPair(rank, v, x, k, k); }
    }
  }

  lemma MovesNew(w: World, v: World)
    requires Moves(w, v)
    ensures |w.socks| <= |v.socks|
    ensures forall k: nat :: IsSock(v, k) && !IsSock(w, k) ==> v.socks[k] == Pair(UNUSED, UNUSED)
  {
  }

  lemma UnusedPair(rank: nat -> nat, v: World, x: Side, j: nat, k: nat)
    requires IsSock(v, j) && IsSock(v, k) && (v.socks[j] == Pair(UNUSED, UNUSED) || v.socks[k] == Pair(UNUSED, UNUSED))
    ensures PairOk(rank, v, x, j, k)
    ensures v.socks[k] == Pair(UNUSED, UNUSED) ==> ViewOk(rank, v, x, k)
  {
  }

  /** Every end stands still. */
  lemma StillEnds(w: World, x: Side, k: nat)
    requires Inv(w) && IsSock(w, k) && EndAt(w, k, x).sess != 0
    ensures IsSess(w, EndAt(w, k, x).sess)
    ensures EndMoves(EndAt(w, k, x), EndAt(w, k, x), w.sessions[EndAt(w, k, x).sess])
  {
    assert EndOk(w, k, x);
  }

  lemma MovesBy(w: World, k: nat, x: Side, f: End, v: World)
    requires Inv(w) && IsSock(w, k) && v.socks == w.socks[k := w.socks[k].With(x, f)] && |w.sessions| <= |v.sessions|
    requires forall id: nat :: IsSess(w, id) ==> SessMoves(w.sessions[id], v.sessions[id], id, w)
    requires var e := EndAt(w, k, x);
      e.sess != 0 && IsSess(w, e.sess) && EndMoves(e, f, w.sessions[e.sess])
    ensures Moves(w, v)
  {
    hide Inv, EndMoves, SessMoves;
    forall y, j: nat | IsSock(w, j) && EndAt(w, j, y).sess != 0
      ensures IsSess(w, EndAt(w, j, y).sess) && EndMoves(EndAt(w, j, y), EndAt(v, j, y), w.sessions[EndAt(w, j, y).sess])
    {
      StillEnds(w, y, j);
    }
  }

  lemma TouchMoves(w: World, k: nat, x: Side, f: End, t: Session)
    requires Inv(w) && Serving(w, k, x)
    requires var e := EndAt(w, k, x); var s := w.sessions[e.sess];
      EndMoves(e, f, s) && SessMoves(s, t, e.sess, w)
    ensures Moves(w, Touch(w, k, x, f, t))
  {
    hide Inv, EndMoves, SessMoves;
    var v := Touch(w, k, x, f, t);
    forall id: nat | IsSess(w, id) ensures SessMoves(w.sessions[id], v.sessions[id], id, w) {
      if id != EndAt(w, k, x).sess { StillSession(w, id); }
    }
    MovesBy(w, k, x, f, v);
  }

  lemma StillSession(w: World, id: nat)
    requires IsSess(w, id)
    ensures SessMoves(w.sessions[id], w.sessions[id], id, w)
  {
  }

  /** Sessions may end, be opened or be queued to without any end moving. */
  lemma SessionMoves(w: World, v: World)
    requires Inv(w) && v.socks == w.socks && |w.sessions| <= |v.sessions|
    requires forall id: nat :: IsSess(w, id) ==> SessMoves(w.sessions[id], v.sessions[id], id, w)
    ensures Moves(w, v)
  {
    hide Inv, EndMoves, SessMoves;
    forall y, j: nat | IsSock(w, j) && EndAt(w, j, y).sess != 0
      ensures IsSess(w, EndAt(w, j, y).sess) && EndMoves(EndAt(w, j, y), EndAt(v, j, y), w.sessions[EndAt(w, j, y).sess])
    {
      StillEnds(w, y, j);
    }
  }

  // ---------------------------------------------------------------- no reader fails

  /** The socket that bound `id`, or taught it its ack, came before the one now waiting for RESUME. */
  lemma JoinedBefore(rank: nat -> nat, w: World, x: Side, k: nat, j: nat)
    requires Ranks(rank) && Inv(w) && OrdInv(rank, w) && Serving(w, k, x) && EndAt(w, k, x).phase == AwaitResume
    requires Joined(w, EndAt(w, k, x).sess, j) && w.sessions[EndAt(w, k, x).sess].side == x
    ensures rank(j) < rank(k)
  {
    hide LocalOk, BoundOk, SendOk;
    assert EndOk(w, k, x);
    LaterRuns(rank, w, x, j, k);
  }

  /** The RESUME of a bound peer names this session or none: a foreign view would be an older bond. */
  lemma ViewAgrees(rank: nat -> nat, w: World, x: Side, k: nat)
    requires Ranks(rank) && Inv(w) && OrdInv(rank, w) && Enabled(w, ReadResume(x, k))
    requires var e, o := EndAt(w, k, x), EndAt(w, k, Other(x)); w.sessions[e.sess].peer == o.sess != 0
    ensures var e, o := EndAt(w, k, x), EndAt(w, k, Other(x)); o.view == 0 || o.view == e.sess
  {
    hide LocalOk, ReadOk, SendOk;
    var e, o := EndAt(w, k, x), EndAt(w, k, Other(x));
    assert EndOk(w, k, x) && EndOk(w, k, Other(x));
    var t, s := w.sessions[e.sess], w.sessions[o.sess];
    assert BoundOk(w, e.sess) && BoundOk(w, o.sess);
    var j := t.bindSock;
    JoinedBefore(rank, w, x, k, j);
    if o.view != 0 && o.view != e.sess {
      var i := s.bindSock;
      assert s.peer == o.view && Joined(w, o.sess, i);
      assert ViewOk(rank, w, Other(x), k) && rank(i) <= rank(k);
      assert EndAt(w, i, x).sess == o.view && i != j && i != k;
      if rank(i) < rank(j) {
        BoundBefore(rank, w, x, k, i, j);
      } else {
        SessionBetween(rank, w, x, j, i, k);
      }
    }
  }

  /** A side's sessions only advance from socket to socket. */
  lemma SessionBetween(rank: nat -> nat, w: World, x: Side, j: nat, i: nat, k: nat)
    requires OrdInv(rank, w) && IsSock(w, j) && IsSock(w, i) && IsSock(w, k)
    requires EndAt(w, j, x).sess == EndAt(w, k, x).sess != 0 && EndAt(w, i, x).sess != 0
    ensures rank(j) < rank(i) < rank(k) ==> EndAt(w, i, x).sess == EndAt(w, j, x).sess
  {
    assert PairOk(rank, w, x, j, i) && PairOk(rank, w, x, i, k);
  }

  lemma BoundBefore(rank: nat -> nat, w: World, x: Side, k: nat, i: nat, j: nat)
    requires Ranks(rank) && Inv(w) && OrdInv(rank, w) && Enabled(w, ReadResume(x, k))
    requires var e, o := EndAt(w, k, x), EndAt(w, k, Other(x));
      && IsSess(w, o.sess) && i == w.sessions[o.sess].bindSock != 0 && rank(i) < rank(j)
      && Joined(w, e.sess, j) && w.sessions[e.sess].peer == o.sess && w.sessions[e.sess].side == x
      && w.sessions[o.sess].peer != 0
    ensures w.sessions[EndAt(w, k, Other(x)).sess].peer == EndAt(w, k, x).sess
  {
    hide LocalOk, BoundOk, ReadOk, SendOk;
    assert EndOk(w, j, x) && ViewOk(rank, w, Other(x), j);
  }

  /** Acks only grow from socket to socket: the cursor a RESUME carries is not below the ack known. */
  lemma AckNotBelow(rank: nat -> nat, w: World, x: Side, k: nat)
    requires Ranks(rank) && Inv(w) && OrdInv(rank, w) && Enabled(w, ReadResume(x, k))
    requires var e, o := EndAt(w, k, x), EndAt(w, k, Other(x));
      && o.sess != 0 && o.announce != 0 && (w.sessions[e.sess].peer == 0 || w.sessions[e.sess].peer == o.sess)
    ensures w.sessions[EndAt(w, k, x).sess].link.acked <= EndAt(w, k, Other(x)).announce
  {
    hide EndOver, LinkOk;
    var e, o := EndAt(w, k, x), EndAt(w, k, Other(x));
    assert EndOk(w, k, x) && EndOk(w, k, Other(x));
    var t := w.sessions[e.sess];
    assert BoundOk(w, e.sess) && LocalOk(t, w.window);
    hide LocalOk;
    if t.peer != 0 {
      JoinedBefore(rank, w, x, k, t.ackSock);
      assert PairOk(rank, w, Other(x), t.ackSock, k);
    }
  }

  /** It is not beyond what was sent either: a receiver counts only frames this session numbered. */
  lemma AckNotBeyond(w: World, x: Side, k: nat)
    requires Inv(w) && Enabled(w, ReadResume(x, k))
    requires var e, o := EndAt(w, k, x), EndAt(w, k, Other(x)); o.sess != 0 && (o.view == 0 || o.view == e.sess)
    ensures EndAt(w, k, Other(x)).announce <= w.sessions[EndAt(w, k, x).sess].link.sendNext
  {
    hide ReadOk, SendOk, LinkOk, Joined;
    var e, o := EndAt(w, k, x), EndAt(w, k, Other(x));
    assert EndOk(w, k, Other(x)) && BoundOk(w, o.sess);
    assert LocalOk(w.sessions[e.sess], w.window) && LocalOk(w.sessions[o.sess], w.window);
  }

  lemma NobodyFails(rank: nat -> nat, w: World, x: Side, k: nat, v: World)
    requires Ranks(rank) && Inv(w) && OrdInv(rank, w) && Enabled(w, ReadResume(x, k)) && v == Reconcile(w, x, k)
    ensures IsSock(v, k) && EndAt(v, k, x).phase != Failed
  {
    hide EndOver, LocalOk, BoundOk, OrdInv;
    var e, o := EndAt(w, k, x), EndAt(w, k, Other(x));
    assert EndOk(w, k, x) && EndOk(w, k, Other(x));
    OpensWithResume(k, o, e, w.sessions[o.sess]);
    if w.sessions[e.sess].peer == o.sess {
      ViewAgrees(rank, w, x, k);
    }
    if (w.sessions[e.sess].peer == 0 || w.sessions[e.sess].peer == o.sess) && (o.view == 0 || o.view == e.sess) {
      AckNotBelow(rank, w, x, k);
      AckNotBeyond(w, x, k);
    }
  }

  // ---------------------------------------------------------------- all steps

  lemma AdoptOrd(rank: nat -> nat, w: World, x: Side, k: nat, v: World)
    requires Inv(w) && OrdInv(rank, w) && Adopts(w, x, k, v) && InOrder(rank, w, Adopt(x, k))
    ensures OrdInv(rank, v)
  {
    hide LocalOk, ReadOk, SendOk, BoundOk;
    assert EndOk(w, k, x);
    forall y, j: nat, i: nat | IsSock(v, j) && IsSock(v, i) ensures PairOk(rank, v, y, j, i) {
      assert PairOk(rank, w, y, j, i) && EndOk(w, j, y);
      if y == x && i == k && rank(j) < rank(k) && EndAt(w, j, x).sess != 0 {
        assert EndAt(w, j, x).sess <= w.cur.At(x);
        if EndAt(w, j, x).sess == w.cur.At(x) { IdleNow(w, w.cur.At(x), j, x); }
        assert EndAt(v, k, x).announce == 0;
      } else if y == x && j == k && rank(k) < rank(i) {
        assert EndAt(w, i, x).sess == 0;
      }
    }
    forall y, j: nat | IsSock(v, j) ensures ViewOk(rank, v, y, j) {
      assert ViewOk(rank, w, y, j);
    }
  }

  /** An end that stops reading while its session is replaced. */
  lemma ReplaceMoves(w: World, x: Side, k: nat, f: End)
    requires Inv(w) && Serving(w, k, x) && IsSess(w, w.cur.At(x))
    requires f == EndAt(w, k, x).(read := f.read, phase := f.phase)
    ensures Moves(w, ReplaceSession(SetEnd(w, k, x, f), x, false))
  {
    var v := ReplaceSession(SetEnd(w, k, x, f), x, false);
    forall id: nat | IsSess(w, id) ensures SessMoves(w.sessions[id], v.sessions[id], id, w) {
      SameBond(w, id, v.sessions[id]);
    }
    StillEnds(w, x, k);
    hide Inv, SessMoves;
    MovesBy(w, k, x, f, v);
  }

  lemma RefuseMoves(w: World, x: Side, k: nat, f: End)
    requires Inv(w) && Serving(w, k, x) && f == EndAt(w, k, x).(read := f.read, phase := f.phase)
    ensures Moves(w, SetEnd(w, k, x, f))
  {
    hide SessMoves;
    forall id: nat | IsSess(w, id) ensures SessMoves(w.sessions[id], w.sessions[id], id, w) {
      StillSession(w, id);
    }
    StillEnds(w, x, k);
    hide Inv;
    MovesBy(w, k, x, f, SetEnd(w, k, x, f));
  }

  lemma BindMoves(w: World, x: Side, k: nat, f: End, t: Session)
    requires Inv(w) && Serving(w, k, x) && f == EndAt(w, k, x).(read := f.read, phase := f.phase, resumed := f.resumed)
    requires var s := w.sessions[EndAt(w, k, x).sess];
      && (s.peer == 0 || t.peer == s.peer) && t.side == s.side
      && t.bindSock == (if s.peer == 0 then k else s.bindSock)
    ensures Moves(w, Touch(w, k, x, f, t))
  {
    BindFacts(w, x, k);
    StillEnds(w, x, k);
    hide Inv;
    var e := EndAt(w, k, x);
    assert e.sess == EndAt(w, k, w.sessions[e.sess].side).sess;
    TouchMoves(w, k, x, f, t);
  }

  lemma ReconcileMoves(w: World, x: Side, k: nat)
    requires Inv(w) && Enabled(w, ReadResume(x, k))
    ensures Moves(w, Reconcile(w, x, k))
  {
    hide EndOver, LocalOk, BoundOk;
    var e, o := EndAt(w, k, x), EndAt(w, k, Other(x));
    assert EndOk(w, k, x) && EndOk(w, k, Other(x));
    OpensWithResume(k, o, e, w.sessions[o.sess]);
    hide Inv, Moves, Acknowledge;
    var s := w.sessions[e.sess];
    var e1 := e.(read := 1);
    if w.cur.At(x) != e.sess {
      RefuseMoves(w, x, k, e1.(phase := Stopped));
    } else if s.peer != 0 && o.sess != s.peer {
      ReplaceMoves(w, x, k, e1.(phase := Stopped));
    } else if o.view != 0 && o.view != e.sess {
      RefuseMoves(w, x, k, e1.(phase := if s.peer == 0 then AwaitReset else Failed));
    } else if !AckInRange(s.link, o.announce) {
      RefuseMoves(w, x, k, e1.(phase := Failed));
    } else {
      BindMoves(w, x, k, e1.(phase := Ready, resumed := true), Resumed(s, o, k));
    }
  }

  lemma BindFacts(w: World, x: Side, k: nat)
    requires Inv(w) && Serving(w, k, x)
    ensures var s := w.sessions[EndAt(w, k, x).sess]; s.side == x && (s.peer == 0 ==> s.bindSock == 0)
  {
    hide ReadOk, SendOk, BoundOk;
    assert EndOk(w, k, x) && LocalOk(w.sessions[EndAt(w, k, x).sess], w.window);
  }

  lemma CutMoves(w: World, x: Side, k: nat, n: nat)
    requires Inv(w) && Enabled(w, Cut(x, k, n))
    ensures Moves(w, Apply(w, Cut(x, k, n)))
  {
    hide EndOver, LocalOk, BoundOk;
    assert EndOk(w, k, x);
    var v := Apply(w, Cut(x, k, n));
    forall y, j: nat | IsSock(w, j) && EndAt(w, j, y).sess != 0
      ensures IsSess(w, EndAt(w, j, y).sess) && EndMoves(EndAt(w, j, y), EndAt(v, j, y), w.sessions[EndAt(w, j, y).sess])
    {
      StillEnds(w, y, j);
    }
  }

  lemma ConnectMoves(w: World, v: World)
    requires Inv(w) && v == w.(socks := w.socks + [Pair(UNUSED, UNUSED)])
    ensures Moves(w, v)
  {
    hide EndOver, LocalOk, BoundOk;
    forall y, j: nat | IsSock(w, j) && EndAt(w, j, y).sess != 0
      ensures IsSess(w, EndAt(w, j, y).sess) && EndMoves(EndAt(w, j, y), EndAt(v, j, y), w.sessions[EndAt(w, j, y).sess])
    {
      StillEnds(w, y, j);
    }
  }

  /** A connection step moves its end and its session as `Moves` allows. */
  lemma ConnectionMoves(w: World, st: Step)
    requires Inv(w) && Enabled(w, st) && OnConnection(st)
    ensures Moves(w, Apply(w, st))
  {
    hide Inv, Moves, Acknowledge, Take, Resend, SessMoves, EndMoves;
    var e := EndAt(w, st.k, st.x);
    var v := Apply(w, st);
    var f, t := EndAt(v, st.k, st.x), v.sessions[e.sess];
    ConnectionTouches(w, st);
    ConnectionBond(w, st);
    ReceivesSomething(w, e.sess);
    ConnectionEnd(w, st);
    SameBond(w, e.sess, t);
    TouchMoves(w, st.k, st.x, f, t);
  }

  predicate OnConnection(st: Step) {
    st.Announce? || st.LoadAck? || st.DrainResend? || st.DrainTake? || st.Write? || st.WriteAck? || st.Read? || st.Finish? || st.Stop?
  }

  lemma ConnectionTouches(w: World, st: Step)
    requires Enabled(w, st) && OnConnection(st)
    ensures var e, v := EndAt(w, st.k, st.x), Apply(w, st);
      && IsSock(v, st.k) && IsSess(w, e.sess) && IsSess(v, e.sess)
      && v == Touch(w, st.k, st.x, EndAt(v, st.k, st.x), v.sessions[e.sess])
  {
    hide Acknowledge, Take, Resend, Consume;
  }

  lemma ConnectionBond(w: World, st: Step)
    requires Enabled(w, st) && OnConnection(st)
    ensures var e, v := EndAt(w, st.k, st.x), Apply(w, st);
      && IsSess(w, e.sess) && IsSess(v, e.sess)
      && var s, t := w.sessions[e.sess], v.sessions[e.sess];
         t.peer == s.peer && t.bindSock == s.bindSock && t.side == s.side
  {
    hide Acknowledge, Take, Resend;
  }

  lemma ConnectionEnd(w: World, st: Step)
    requires Enabled(w, st) && OnConnection(st) && 1 <= w.sessions[EndAt(w, st.k, st.x).sess].recvNext
    ensures IsSock(Apply(w, st), st.k)
    ensures EndMoves(EndAt(w, st.k, st.x), EndAt(Apply(w, st), st.k, st.x), w.sessions[EndAt(w, st.k, st.x).sess])
  {
    hide Acknowledge, Take, Resend;
  }

  lemma ReceivesSomething(w: World, id: nat)
    requires Inv(w) && IsSess(w, id)
    ensures 1 <= w.sessions[id].recvNext
  {
    assert LocalOk(w.sessions[id], w.window);
  }

  lemma SameBond(w: World, id: nat, t: Session)
    requires IsSess(w, id)
    ensures t.peer == w.sessions[id].peer && t.bindSock == w.sessions[id].bindSock && t.side == w.sessions[id].side ==>
      SessMoves(w.sessions[id], t, id, w)
  {
  }

  lemma StepNewest(w: World, st: Step)
    requires Inv(w) && NewestCur(w) && Enabled(w, st)
    ensures NewestCur(Apply(w, st))
  {
    hide Inv, Acknowledge, Take, Resend, Discard, AckInRange;
    var v := Apply(w, st);
    forall id: nat | IsSess(v, id) && v.cur.At(v.sessions[id].side) != 0 ensures id <= v.cur.At(v.sessions[id].side) {
      SameSide(w, st, id);
    }
  }

  /** Sessions keep their side; a new current session is the newest of all. */
  lemma SameSide(w: World, st: Step, id: nat)
    requires Enabled(w, st) && IsSess(Apply(w, st), id)
    ensures IsSess(w, id) ==> Apply(w, st).sessions[id].side == w.sessions[id].side
    ensures !IsSess(w, id) ==> id == |w.sessions| == Apply(w, st).cur.At(Apply(w, st).sessions[id].side)
    ensures forall x :: Apply(w, st).cur.At(x) == w.cur.At(x) || Apply(w, st).cur.At(x) == 0
                        || (Apply(w, st).cur.At(x) == |w.sessions| && |Apply(w, st).sessions| == |w.sessions| + 1)
  {
    hide Acknowledge, Take, Resend, Discard, AckInRange;
    if OnConnection(st) {
      ConnectionTouches(w, st);
      ConnectionBond(w, st);
      hide Apply, Enabled;
    }
  }

  lemma NotFailed(rank: nat -> nat, w: World, x: Side, k: nat)
    requires OrdInv(rank, w) && IsSock(w, k)
    ensures EndAt(w, k, x).phase != Failed
  {
    assert ViewOk(rank, w, x, k);
  }

  /** A RESUME is read by one end. */
  lemma ReconcileElse(w: World, y: Side, j: nat, x: Side, k: nat)
    requires Enabled(w, ReadResume(y, j)) && IsSock(w, k) && (j != k || y != x)
    ensures IsSock(Reconcile(w, y, j), k) && EndAt(Reconcile(w, y, j), k, x) == EndAt(w, k, x)
  {
    hide Acknowledge, Rewind, Ended, NewSession, AckInRange;
  }

  /** A step touches at most one end. */
  lemma OneEnd(w: World, st: Step, x: Side, k: nat, v: World)
    requires Enabled(w, st) && IsSock(w, k) && v == Apply(w, st) && IsSock(v, k)
    requires (st.Read? || st.ReadResume?) ==> st.k != k || st.x != x
    ensures EndAt(v, k, x).phase == EndAt(w, k, x).phase || EndAt(v, k, x).phase != Failed
  {
    hide Acknowledge, Take, Resend, Ended, NewSession, AckInRange, Consume, Reconcile, Accept, TakeFrame, ResendFrame;
    if st.ReadResume? { ReconcileElse(w, st.x, st.k, x, k); }
  }

  lemma StepNoFailure(rank: nat -> nat, w: World, st: Step, x: Side, k: nat)
    requires Ranks(rank) && Inv(w) && OrdInv(rank, w) && Enabled(w, st) && IsSock(Apply(w, st), k)
    ensures EndAt(Apply(w, st), k, x).phase != Failed
  {
    hide Inv, OrdInv, Consume, Reconcile;
    if IsSock(w, k) { NotFailed(rank, w, x, k); }
    if st.Read? && st.k == k && st.x == x {
      ReadKeeps(w, x, k);
    } else if st.ReadResume? && st.k == k && st.x == x {
      NobodyFails(rank, w, x, k, Apply(w, st));
    } else if IsSock(w, k) {
      OneEnd(w, st, x, k, Apply(w, st));
    } else {
      NewIsUnused(w, st, k);
    }
  }

  lemma NewIsUnused(w: World, st: Step, k: nat)
    requires Enabled(w, st) && IsSock(Apply(w, st), k) && !IsSock(w, k)
    ensures Apply(w, st).socks[k] == Pair(UNUSED, UNUSED)
  {
    hide Acknowledge, Take, Resend, Ended, NewSession, AckInRange, Consume, Accept, TakeFrame, ResendFrame, Rewind;
  }

  lemma StepMoves(w: World, st: Step)
    requires Inv(w) && Enabled(w, st) && !st.Adopt?
    requires st.FailSession? ==> EndAt(w, st.k, st.x).phase != Failed
    ensures Moves(w, Apply(w, st))
  {
    hide Inv, Moves, Acknowledge, Take, Resend, Discard;
    match st {
      case Cut(x, k, n) => CutMoves(w, x, k, n);
      case Connect => ConnectMoves(w, Apply(w, st));
      case ReadResume(x, k) => ReconcileMoves(w, x, k);
      case CreateState(_) => OwnSessions(w, st);
      case Detach(_) => OwnSessions(w, st);
      case CloseDetached(_) => OwnSessions(w, st);
      case Replace(_, _) => OwnSessions(w, st);
      case Enqueue(_, _, _) => OwnSessions(w, st);
      case FailSession(_, _) => assert false;
      case _ => ConnectionMoves(w, st);
    }
  }

  lemma OwnSessions(w: World, st: Step)
    requires Inv(w) && Enabled(w, st)
    requires st.CreateState? || st.Detach? || st.CloseDetached? || st.Replace? || st.Enqueue?
    ensures Moves(w, Apply(w, st))
  {
    hide Inv, Moves, SessMoves, Discard;
    var v := Apply(w, st);
    forall id: nat | IsSess(w, id) ensures SessMoves(w.sessions[id], v.sessions[id], id, w) {
      SameBond(w, id, v.sessions[id]);
    }
    SessionMoves(w, v);
  }

  lemma StepOrd(rank: nat -> nat, w: World, st: Step)
    requires Ranks(rank) && Inv(w) && OrdInv(rank, w) && Enabled(w, st) && InOrder(rank, w, st)
    ensures OrdInv(rank, Apply(w, st))
  {
    StepNewest(w, st);
    hide Inv, OrdInv, Moves;
    if st.Adopt? {
      AdoptOrd(rank, w, st.x, st.k, Apply(w, st));
    } else {
      forall x, k: nat | IsSock(Apply(w, st), k) ensures EndAt(Apply(w, st), k, x).phase != Failed {
        StepNoFailure(rank, w, st, x, k);
      }
      if st.FailSession? { NotFailed(rank, w, st.x, st.k); }
      StepMoves(w, st);
      MoveOrd(rank, w, Apply(w, st));
    }
  }
}
