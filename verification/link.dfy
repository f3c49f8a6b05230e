/**
 * The sending half of a peer session as plain sequences: what the resend ring,
 * the class queues and the cursors of one session amount to. The concrete
 * buffers (ResendRings, ClassQueues, NodeStates) refine these operations and
 * the two-endpoint protocol (Protocol) is built from them.
 */
module Links {
  import opened Frames

  /** A sequenced frame waiting for the peer's cumulative ack. */
  datatype Entry = Entry(num: nat, kind: Class, data: Data)

  /** A frame handed to a writer; `num` is zero for gossip. */
  datatype Outbound = Outbound(num: nat, kind: Class, data: Data)

  type Queues = map<Class, seq<Data>>

  datatype Link = Link(
    ring: seq<Entry>,   // unacknowledged frames, oldest first
    sent: nat,          // how many of them the current connection has taken
    sendNext: nat,
    acked: nat,
    queues: Queues)

  ghost predicate Total(q: Queues) {
    forall c: Class :: c in q
  }

  const EMPTY_QUEUES: Queues :=
    map[RaftControl := [], Gossip := [], PGBroadcast := [], RaftRPC := [], Surface := []]

  lemma NothingQueued()
    ensures Total(EMPTY_QUEUES) && forall c :: EMPTY_QUEUES[c] == []
  {
    forall c: Class ensures c in EMPTY_QUEUES && EMPTY_QUEUES[c] == [] {
      match c { case RaftControl => case Gossip => case PGBroadcast => case RaftRPC => case Surface => }
    }
  }

  const FRESH: Link := Link([], 0, 1, 1, EMPTY_QUEUES)

  function Bytes(ring: seq<Entry>): nat {
    if ring == [] then 0 else Bytes(ring[..|ring| - 1]) + |ring[|ring| - 1].data|
  }

  lemma {:induction false} BytesConcat(a: seq<Entry>, b: seq<Entry>)
    ensures Bytes(a + b) == Bytes(a) + Bytes(b)
  {
    if b == [] {
      assert a + b == a;
    } else {
      BytesConcat(a, b[..|b| - 1]);
      assert (a + b)[..|a + b| - 1] == a + b[..|b| - 1];
    }
  }

  /** Leading entries below `ack`: what a trim drops. */
  function Trimmed(ring: seq<Entry>, ack: nat): (n: nat)
    ensures n <= |ring|
  {
    if ring != [] && ring[0].num < ack then 1 + Trimmed(ring[1..], ack) else 0
  }

  /**
   * What holds of the link of every session that has not ended: the ring holds exactly
   * the frames acked..sendNext-1, and its bytes fit the window unless a single frame is
   * larger than the window.
   */
  ghost predicate LinkOk(l: Link, window: nat) {
    && Total(l.queues)
    && 1 <= l.acked
    && l.sendNext == l.acked + |l.ring|
    && l.sent <= |l.ring|
    && (forall i :: 0 <= i < |l.ring| ==> l.ring[i].num == l.acked + i && Sequenced(l.ring[i].kind))
    && (|l.ring| <= 1 || Bytes(l.ring) <= window)
  }

  /** resendRing.admits */
  predicate Admits(ring: seq<Entry>, size: nat, window: nat) {
    ring == [] || Bytes(ring) + size <= window
  }

  function Accept(l: Link, c: Class, d: Data): Link
    requires c in l.queues
  {
    l.(queues := l.queues[c := l.queues[c] + [d]])
  }

  predicate CanResend(l: Link) {
    l.sent < |l.ring|
  }

  function ResendFrame(l: Link): Outbound
    requires CanResend(l)
  {
    var e := l.ring[l.sent];
    Outbound(e.num, e.kind, e.data)
  }

  function Resend(l: Link): Link {
    l.(sent := l.sent + 1)
  }

  /** A queued frame leaves only when nothing waits for retransmission. */
  predicate CanTake(l: Link, c: Class, window: nat) {
    && c in l.queues
    && l.queues[c] != []
    && l.sent == |l.ring|
    && (Sequenced(c) ==> Admits(l.ring, |l.queues[c][0]|, window))
  }

  function TakeFrame(l: Link, c: Class, window: nat): Outbound
    requires CanTake(l, c, window)
  {
    Outbound(if Sequenced(c) then l.sendNext else 0, c, l.queues[c][0])
  }

  function Take(l: Link, c: Class, window: nat): Link
    requires CanTake(l, c, window)
  {
    var d := l.queues[c][0];
    var popped := l.(queues := l.queues[c := l.queues[c][1..]]);
    if Sequenced(c) then
      popped.(ring := l.ring + [Entry(l.sendNext, c, d)], sent := l.sent + 1, sendNext := l.sendNext + 1)
    else
      popped
  }

  predicate AckInRange(l: Link, ack: nat) {
    l.acked <= ack <= l.sendNext
  }

  function Acknowledge(l: Link, ack: nat): Link {
    var n := Trimmed(l.ring, ack);
    l.(ring := l.ring[n..], sent := if l.sent >= n then l.sent - n else 0, acked := ack)
  }

  function Rewind(l: Link): Link {
    l.(sent := 0)
  }

  /** What endSessionLocked leaves of the ended session's buffers. */
  function Discard(l: Link, allQueues: bool): Link {
    l.(ring := [], sent := 0,
       queues := map c: Class | c in l.queues :: if allQueues || Sequenced(c) then [] else l.queues[c])
  }

  /** Under LinkOk a trim in range drops exactly the frames acked..ack-1. */
  lemma {:induction false} TrimmedExact(ring: seq<Entry>, acked: nat, ack: nat)
    requires forall i :: 0 <= i < |ring| ==> ring[i].num == acked + i
    requires acked <= ack <= acked + |ring|
    ensures Trimmed(ring, ack) == ack - acked
  {
    if acked < ack {
      TrimmedExact(ring[1..], acked + 1, ack);
    }
  }

  lemma BytesSuffix(ring: seq<Entry>, n: nat)
    requires n <= |ring|
    ensures Bytes(ring[n..]) <= Bytes(ring)
  {
    BytesConcat(ring[..n], ring[n..]);
    assert ring[..n] + ring[n..] == ring;
  }

  /** The window bound survives trimming: a suffix of the ring is no larger. */
  lemma AcknowledgeOk(l: Link, ack: nat, window: nat)
    requires LinkOk(l, window) && AckInRange(l, ack)
    ensures LinkOk(Acknowledge(l, ack), window)
    ensures Acknowledge(l, ack).ring == l.ring[ack - l.acked..]
    ensures Acknowledge(l, ack).sent == if l.sent >= ack - l.acked then l.sent - (ack - l.acked) else 0
  {
    TrimmedExact(l.ring, l.acked, ack);
    BytesSuffix(l.ring, ack - l.acked);
  }

  /** An acknowledgement touches nothing but the ring's front, the sent mark and the ack. */
  lemma AcknowledgeShape(l: Link, ack: nat)
    ensures var m := Acknowledge(l, ack);
      m.acked == ack && m.sendNext == l.sendNext && m.queues == l.queues && (l.ring == [] ==> m.ring == [])
    ensures var m := Rewind(Acknowledge(l, ack));
      m.acked == ack && m.sendNext == l.sendNext && m.queues == l.queues && m.sent == 0 && m.ring == Acknowledge(l, ack).ring
  {
    hide Trimmed;
  }

  /** Replaying from the start keeps the ring in order. */
  lemma RewindOk(l: Link, window: nat)
    requires LinkOk(l, window)
    ensures LinkOk(Rewind(l), window)
  {
    hide Bytes;
  }

  /**
   * The window bound survives every admission: a frame enters a non-empty ring only
   * when the whole ring then fits the window.
   */
  lemma TakeOk(l: Link, c: Class, window: nat)
    requires LinkOk(l, window) && CanTake(l, c, window)
    ensures LinkOk(Take(l, c, window), window)
  {
    if Sequenced(c) {
      var e := Entry(l.sendNext, c, l.queues[c][0]);
      assert (l.ring + [e])[..|l.ring|] == l.ring;
    }
  }
}
