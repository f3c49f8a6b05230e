/** The per-peer state whose queues, ring and cursors every lock-held operation updates. */
module NodeStates {
  import opened Frames
  import opened Links
  import opened ResendRings
  import opened ClassQueues
  import opened Draining

  datatype Admission = Queued | QueueFull | TooLarge

  class NodeState {
    const queues: map<Class, ClassQueue>
    const ring: ResendRing
    const window: nat
    var sendNext: nat
    var acked: nat
    var surfaceTurn: bool

    ghost predicate Valid()
      reads ring, queues.Values
    {
      && ring.Valid()
      && (forall c: Class :: c in queues)
      && (forall c, d :: c in queues && d in queues && c != d ==> queues[c] != queues[d])
      && (forall c :: c in queues ==> queues[c].Valid())
    }

    ghost function Waiting(): Queues
      requires forall c :: c in queues ==> queues[c].Valid()
      reads queues.Values
    {
      map c | c in queues :: queues[c].Contents()
    }

    ghost function View(): Link
      requires Valid()
      reads `sendNext, `acked, ring, queues.Values
    {
      Link(ring.Contents(), ring.sent, sendNext, acked, Waiting())
    }

    /** CreateNodeState: gossip and surface are bounded, the other classes are not. */
    constructor (gossipCap: int, window: nat)
      ensures Valid() && fresh(ring) && fresh(queues.Values)
      ensures this.window == window && !surfaceTurn
      ensures View() == FRESH
      ensures forall c :: c in queues ==> queues[c].unbounded == (c != Surface && (c != Gossip || gossipCap <= 0))
      ensures queues[Surface].capacity == SURFACE_QUEUE_CAP && (gossipCap > 0 ==> queues[Gossip].capacity == gossipCap)
    {
      hide ClassQueue.Valid, ClassQueue.Contents, ResendRing.Valid, ResendRing.Contents;
      var qs := NewQueues(gossipCap);
      queues := qs;
      ring := new ResendRing();
      this.window := window;
      sendNext, acked, surfaceTurn := 1, 1, false;
      new;
      NothingQueued();
      assert View().queues == EMPTY_QUEUES;
    }

    static method NewQueues(gossipCap: int) returns (queues: map<Class, ClassQueue>)
      ensures fresh(queues.Values)
      ensures forall c: Class :: c in queues && queues[c].Valid() && queues[c].Contents() == []
      ensures forall c, d :: c in queues && d in queues && c != d ==> queues[c] != queues[d]
      ensures forall c :: c in queues ==> queues[c].unbounded == (c != Surface && (c != Gossip || gossipCap <= 0))
      ensures queues[Surface].capacity == SURFACE_QUEUE_CAP && (gossipCap > 0 ==> queues[Gossip].capacity == gossipCap)
    {
      hide ClassQueue.Valid, ClassQueue.Contents;
      var rc := new ClassQueue(0);
      var go := new ClassQueue(gossipCap);
      var pg := new ClassQueue(0);
      var rpc := new ClassQueue(0);
      var su := new ClassQueue(SURFACE_QUEUE_CAP);
      queues := map[RaftControl := rc, Gossip := go, PGBroadcast := pg, RaftRPC := rpc, Surface := su];
      forall c: Class
        ensures c in queues && queues[c].Valid() && queues[c].Contents() == []
      {
        match c { case RaftControl => case Gossip => case PGBroadcast => case RaftRPC => case Surface => }
      }
    }

    /** queueMessageClass under the queue lock. */
    method Queue(c: Class, data: Data) returns (r: Admission)
      requires Valid()
      modifies queues[c]
      ensures Valid()
      ensures r.TooLarge? == (c == Surface && |data| > MAX_SURFACE_FRAME_SIZE)
      ensures r.QueueFull? <==> !r.TooLarge? && !queues[c].unbounded && |old(View()).queues[c]| == queues[c].capacity
      ensures queues[c].unbounded && c != Surface ==> r == Queued
      ensures View() == if r == Queued then Accept(old(View()), c, data) else old(View())
    {
      hide ClassQueue.Valid, ClassQueue.Contents, ResendRing.Valid, ResendRing.Contents;
      if c == Surface && |data| > MAX_SURFACE_FRAME_SIZE {
        return TooLarge;
      }
      ghost var was := View();
      var accepted := queues[c].PushNewest(data);
      r := if accepted then Queued else QueueFull;
      assert View().queues == if accepted then Accept(was, c, data).queues else was.queues;
    }

    /** drainSession's `take`: moves one frame of class `c` from its queue to the writer. */
    method TakeOne(c: Class) returns (taken: bool, f: Outbound)
      requires Valid() && !CanResend(View())
      modifies this`sendNext, ring, queues[c]
      ensures Valid()
      ensures taken == CanTake(old(View()), c, window)
      ensures taken ==> f == TakeFrame(old(View()), c, window) && View() == Take(old(View()), c, window)
      ensures !taken ==> View() == old(View())
    {
      hide ClassQueue.Valid, ClassQueue.Contents, ResendRing.Valid, ResendRing.Contents, Bytes, Take;
      var size, ok := queues[c].PeekLen();
      if !ok || (Sequenced(c) && !ring.Fits(size, window)) {
        return false, Outbound(0, c, []);
      }
      f := Move(c);
      taken := true;
    }

    method Move(c: Class) returns (f: Outbound)
      requires Valid() && CanTake(View(), c, window)
      modifies this`sendNext, ring, queues[c]
      ensures Valid()
      ensures f == TakeFrame(old(View()), c, window) && View() == Take(old(View()), c, window)
    {
      hide ClassQueue.Valid, ClassQueue.Contents, ResendRing.Valid, ResendRing.Contents, Admits;
      ghost var was := View();
      var data, _ := queues[c].Pop();
      assert was.queues[c] == [data] + queues[c].Contents();
      assert Waiting() == was.queues[c := was.queues[c][1..]];
      f := Outbound(0, c, data);
      if Sequenced(c) {
        f := f.(num := sendNext);
        sendNext := sendNext + 1;
        ring.Push(Entry(f.num, c, data));
      }
    }

    /** Frames waiting for retransmission go first. */
    method Retransmit(maxCount: nat) returns (out: seq<Outbound>)
      requires Valid()
      modifies ring`sent
      ensures Valid() && Replay(old(View()), out, window) == At(View())
      ensures |out| <= maxCount
      ensures |out| < maxCount ==> !CanResend(View())
      ensures View() == old(View()).(sent := old(View()).sent + |out|)
    {
      hide ClassQueue.Valid, ClassQueue.Contents, ResendRing.Valid, ResendRing.Contents;
      out := [];
      ghost var was := View();
      while |out| < maxCount
        invariant Valid() && |out| <= maxCount
        invariant View() == was.(sent := was.sent + |out|)
        invariant Replay(was, out, window) == At(View())
      {
        ghost var before := View();
        var e, ok := ring.Next();
        if !ok {
          break;
        }
        ReplayAppend(was, out, Outbound(e.num, e.kind, e.data), window);
        out := out + [Outbound(e.num, e.kind, e.data)];
        assert View() == Resend(before);
      }
    }

    /** Drains class `c` until it is refused or the batch is full. `l` is where the batch began. */
    method DrainClass(c: Class, maxCount: nat, ghost l: Link, before: seq<Outbound>) returns (out: seq<Outbound>)
      requires Valid() && !CanResend(View()) && |before| <= maxCount
      requires Replay(l, before, window) == At(View())
      modifies this`sendNext, ring, queues[c]
      ensures Valid() && !CanResend(View())
      ensures Replay(l, out, window) == At(View())
      ensures before <= out && |out| <= maxCount
      ensures forall i :: |before| <= i < |out| ==> out[i].kind == c
      ensures |out| < maxCount ==> !CanTake(View(), c, window)
      ensures forall d :: d != c && !CanTake(old(View()), d, window) ==> !CanTake(View(), d, window)
    {
      hide ClassQueue.Valid, ClassQueue.Contents, ResendRing.Valid, ResendRing.Contents, Replay;
      out := before;
      ghost var was := View();
      while |out| < maxCount
        invariant Valid() && !CanResend(View())
        invariant Replay(l, out, window) == At(View())
        invariant before <= out && |out| <= maxCount
        invariant forall i :: |before| <= i < |out| ==> out[i].kind == c
        invariant forall d :: d != c && !CanTake(was, d, window) ==> !CanTake(View(), d, window)
      {
        ghost var here := View();
        var taken, f := TakeOne(c);
        if !taken {
          break;
        }
        ReplayAppend(l, out, f, window);
        forall d | d != c && !CanTake(here, d, window) ensures !CanTake(View(), d, window) {
          StaysRefused(here, d, c, window);
        }
        out := out + [f];
      }
    }

    /** Alternating turns between the two application classes, at most a queue's worth of surface frames. */
    method DrainApplication(maxCount: nat, ghost l: Link, before: seq<Outbound>) returns (out: seq<Outbound>)
      requires Valid() && !CanResend(View()) && |before| <= maxCount
      requires Replay(l, before, window) == At(View())
      modifies this`sendNext, this`surfaceTurn, ring, queues[PGBroadcast], queues[Surface]
      ensures Valid() && !CanResend(View())
      ensures Replay(l, out, window) == At(View())
      ensures before <= out && |out| <= maxCount
      ensures Alternating(l, out, |before|, old(surfaceTurn), window)
      ensures Previous(out, |before|, old(surfaceTurn), |out|) == if surfaceTurn then PGBroadcast else Surface
      ensures Count(out[|before|..], Surface) <= SURFACE_QUEUE_CAP
      ensures |out| < maxCount ==>
        && !CanTake(View(), PGBroadcast, window)
        && (!CanTake(View(), Surface, window) || Count(out[|before|..], Surface) == SURFACE_QUEUE_CAP)
      ensures forall d :: d != PGBroadcast && d != Surface && !CanTake(old(View()), d, window) ==> !CanTake(View(), d, window)
    {
      hide ClassQueue.Valid, ClassQueue.Contents, ResendRing.Valid, ResendRing.Contents, Turned, CanTake;
      out := before;
      var surfaceCount, more := 0, true;
      ghost var was, turn := View(), surfaceTurn;
      TurnedNone(l, out, turn, was, window);
      while |out| < maxCount && more
        invariant Valid() && !CanResend(View())
        invariant before <= out && |out| <= maxCount
        invariant Turned(l, out, |before|, turn, surfaceTurn, surfaceCount, View(), window)
        invariant forall d :: d != PGBroadcast && d != Surface && !CanTake(was, d, window) ==> !CanTake(View(), d, window)
        invariant !more ==>
          && !CanTake(View(), PGBroadcast, window)
          && (!CanTake(View(), Surface, window) || surfaceCount == SURFACE_QUEUE_CAP)
        decreases more, maxCount - |out|
      {
        out, surfaceCount, more := ServeTurn(l, out, |before|, turn, surfaceCount);
      }
      TurnedMeans(l, out, |before|, turn, surfaceTurn, surfaceCount, View(), window);
    }

    /** One pass of the application loop. */
    method ServeTurn(ghost l: Link, out: seq<Outbound>, ghost start: nat, ghost turn: bool, count: nat)
      returns (out': seq<Outbound>, count': nat, more: bool)
      requires Valid() && !CanResend(View())
      requires Turned(l, out, start, turn, surfaceTurn, count, View(), window)
      modifies this`sendNext, this`surfaceTurn, ring, queues[PGBroadcast], queues[Surface]
      ensures Valid() && !CanResend(View())
      ensures Turned(l, out', start, turn, surfaceTurn, count', View(), window)
      ensures out <= out' && |out'| == |out| + (if more then 1 else 0)
      ensures forall d :: d != PGBroadcast && d != Surface && !CanTake(old(View()), d, window) ==> !CanTake(View(), d, window)
      ensures !more ==>
        && !CanTake(View(), PGBroadcast, window)
        && (!CanTake(View(), Surface, window) || count' == SURFACE_QUEUE_CAP)
    {
      hide ClassQueue.Valid, ClassQueue.Contents, ResendRing.Valid, ResendRing.Contents, Turned, CanTake, Take;
      out', count' := out, count;
      ghost var here := View();
      var f;
      more, f := TakeTurn(count);
      if more {
        TurnedTake(l, out, start, turn, surfaceTurn, count, here, f, window);
        forall d | !CanTake(here, d, window) && d != PGBroadcast && d != Surface ensures !CanTake(View(), d, window) {
          StaysRefused(here, d, f.kind, window);
        }
        out' := out + [f];
        if f.kind == Surface {
          count' := count + 1;
        }
        surfaceTurn := f.kind != Surface;
      }
    }

    /** One turn: the class whose turn it is, or the other one if that is refused. */
    method TakeTurn(surfaceCount: nat) returns (taken: bool, f: Outbound)
      requires Valid() && !CanResend(View())
      modifies this`sendNext, ring, queues[PGBroadcast], queues[Surface]
      ensures Valid() && !CanResend(View())
      ensures taken ==>
        && (f.kind == PGBroadcast || f.kind == Surface)
        && CanTake(old(View()), f.kind, window) && f == TakeFrame(old(View()), f.kind, window)
        && View() == Take(old(View()), f.kind, window)
        && (f.kind == Surface ==> surfaceCount != SURFACE_QUEUE_CAP)
        && (f.kind == (if surfaceTurn then PGBroadcast else Surface) ==>
              !CanTake(old(View()), Flip(f.kind), window) || (Flip(f.kind) == Surface && surfaceCount == SURFACE_QUEUE_CAP))
      ensures !taken ==>
        && View() == old(View())
        && !CanTake(View(), PGBroadcast, window)
        && (!CanTake(View(), Surface, window) || surfaceCount == SURFACE_QUEUE_CAP)
    {
      hide ClassQueue.Valid, ClassQueue.Contents, ResendRing.Valid, ResendRing.Contents;
      var first, second := PGBroadcast, Surface;
      if surfaceTurn {
        first, second := second, first;
      }
      taken, f := false, Outbound(0, first, []);
      if !(first == Surface && surfaceCount == SURFACE_QUEUE_CAP) {
        taken, f := TakeOne(first);
      }
      if !taken && !(second == Surface && surfaceCount == SURFACE_QUEUE_CAP) {
        taken, f := TakeOne(second);
      }
    }

    /**
     * drainSession: retransmissions in sequence order, then raft control, raft RPC and gossip, then the
     * application classes in turns. `resent` and `app` are where the second and third part begin.
     */
    method DrainSession(maxCount: int) returns (out: seq<Outbound>, ghost resent: nat, ghost app: nat)
      requires Valid()
      modifies this`sendNext, this`surfaceTurn, ring, queues.Values
      ensures Valid()
      ensures Replay(old(View()), out, window) == At(View())
      ensures resent <= app <= |out| && (|out| == 0 || |out| <= maxCount)
      ensures resent == |out| || resent == |old(View()).ring| - old(View()).sent
      ensures Ranked(out, resent) && (forall i :: resent <= i < app ==> !Application(out[i].kind))
      ensures Priority(old(View()), out, resent, window)
      ensures Alternating(old(View()), out, app, old(surfaceTurn), window)
      ensures Count(out[app..], Surface) <= SURFACE_QUEUE_CAP
      ensures |out| < maxCount ==>
        && !CanResend(View())
        && (forall c: Class :: c != Surface ==> !CanTake(View(), c, window))
        && (!CanTake(View(), Surface, window) || Count(out[app..], Surface) == SURFACE_QUEUE_CAP)
    {
      hide ClassQueue.Valid, ClassQueue.Contents, ResendRing.Valid, ResendRing.Contents, Replay, Alternating, Count, CanTake, Priority, Ranked, Phased;
      out, resent, app := [], 0, 0;
      NothingDrained(View(), surfaceTurn, window);
      if maxCount <= 0 {
        return;
      }
      ghost var was := View();
      out := Retransmit(maxCount);
      resent, app := |out|, |out|;
      if |out| == maxCount {
        NothingAlternates(was, out, surfaceTurn, window);
        return;
      }
      ghost var o0 := out;
      ghost var o1, o2;
      out, o1, o2 := DrainRanked(maxCount, was, out);
      app := |out|;
      ghost var o3 := out;
      out := DrainApplication(maxCount, was, out);
      AlternatingIsApplication(was, out, app, old(surfaceTurn), window);
      PhasedPriority(was, o0, o1, o2, o3, out, maxCount, window);
    }

    /** Raft control, then Raft RPC, then gossip, each until it is refused or the batch is full. */
    method DrainRanked(maxCount: nat, ghost l: Link, before: seq<Outbound>) returns (out: seq<Outbound>, ghost o1: seq<Outbound>, ghost o2: seq<Outbound>)
      requires Valid() && !CanResend(View()) && |before| <= maxCount
      requires Replay(l, before, window) == At(View())
      modifies this`sendNext, ring, queues[RaftControl], queues[RaftRPC], queues[Gossip]
      ensures Valid() && !CanResend(View())
      ensures Replay(l, out, window) == At(View())
      ensures before <= out && |out| <= maxCount
      ensures Phased(l, before, o1, o2, out, maxCount, window)
      ensures |out| < maxCount ==> forall c :: !Application(c) ==> !CanTake(View(), c, window)
    {
      hide ClassQueue.Valid, ClassQueue.Contents, ResendRing.Valid, ResendRing.Contents, Replay, CanTake, Exhausts;
      out := DrainClass(RaftControl, maxCount, l, before);
      o1 := out;
      ExhaustsAt(l, before, o1, View(), RaftControl, maxCount, window);
      out := DrainClass(RaftRPC, maxCount, l, out);
      o2 := out;
      ExhaustsAt(l, o1, o2, View(), RaftRPC, maxCount, window);
      out := DrainClass(Gossip, maxCount, l, out);
      ExhaustsAt(l, o2, out, View(), Gossip, maxCount, window);
    }

    /** applyAck: trims by the peer's cumulative ack, or refuses one out of range. */
    method ApplyAck(ack: nat) returns (freed: bool, ok: bool)
      requires Valid()
      modifies this`acked, ring
      ensures Valid()
      ensures ok == (ack == old(acked) || AckInRange(old(View()), ack))
      ensures View() == if ok && ack != old(acked) then Acknowledge(old(View()), ack) else old(View())
      ensures freed <==> |View().ring| < |old(View()).ring|
    {
      hide ClassQueue.Valid, ClassQueue.Contents, ResendRing.Valid, ResendRing.Contents;
      if ack == acked {
        return false, true;
      }
      if ack < acked || ack > sendNext {
        return false, false;
      }
      var trimmed := ring.Trim(ack);
      acked := ack;
      return trimmed > 0, true;
    }

    /** The accepting branch of resume: trim by the peer's receive cursor and replay what remains. */
    method Resume(recv: nat) returns (ok: bool)
      requires Valid()
      modifies this`acked, ring
      ensures Valid()
      ensures ok == AckInRange(old(View()), recv)
      ensures View() == if ok then Rewind(Acknowledge(old(View()), recv)) else old(View())
    {
      hide ClassQueue.Valid, ClassQueue.Contents, ResendRing.Valid, ResendRing.Contents;
      if recv < acked || recv > sendNext {
        return false;
      }
      var _ := ring.Trim(recv);
      acked := recv;
      ring.Rewind();
      return true;
    }

    /** endSessionLocked with replace: buffers are discarded and counted, cursors start over. */
    method EndSession(allQueues: bool) returns (discarded: nat)
      requires Valid()
      modifies this`sendNext, this`acked, ring, queues.Values
      ensures Valid()
      ensures View() == FRESH.(queues := Discard(old(View()), allQueues).queues)
      ensures discarded == |old(View()).ring| + Dropped(old(View()).queues, allQueues, CLASSES)
    {
      hide ClassQueue.Valid, ClassQueue.Contents, ResendRing.Valid, ResendRing.Contents, Kept, Dropped, Discard;
      ghost var was := View();
      KeptIsDiscard(was, allQueues);
      discarded := DropBuffers(allQueues);
      sendNext, acked := 1, 1;
    }

    method DropBuffers(allQueues: bool) returns (n: nat)
      requires Valid()
      modifies ring, queues.Values
      ensures Valid() && ring.Contents() == [] && ring.sent == 0
      ensures Waiting() == Kept(old(Waiting()), allQueues, CLASSES)
      ensures n == |old(ring.Contents())| + Dropped(old(Waiting()), allQueues, CLASSES)
    {
      hide ClassQueue.Valid, ClassQueue.Contents, ResendRing.Valid, ResendRing.Contents, Kept, Dropped;
      var m := ring.Len();
      n := DropQueues(allQueues);
      n := n + m;
      ring.Reset();
    }

    method DropQueues(allQueues: bool) returns (n: nat)
      requires Valid()
      modifies queues.Values
      ensures Valid()
      ensures Waiting() == Kept(old(Waiting()), allQueues, CLASSES)
      ensures n == Dropped(old(Waiting()), allQueues, CLASSES)
    {
      hide ClassQueue.Valid, ClassQueue.Contents, ResendRing.Valid, ResendRing.Contents, Kept, Dropped;
      n := 0;
      ghost var was := Waiting();
      VisitNone(was, allQueues);
      for i := 0 to |CLASSES|
        invariant Valid()
        invariant Waiting() == Kept(was, allQueues, CLASSES[..i])
        invariant n == Dropped(was, allQueues, CLASSES[..i])
      {
        var d := VisitClass(allQueues, i, was);
        n := n + d;
      }
      assert CLASSES[..|CLASSES|] == CLASSES;
    }

    method VisitClass(allQueues: bool, i: nat, ghost was: Queues) returns (n: nat)
      requires Valid() && i < |CLASSES| && Total(was) && Waiting() == Kept(was, allQueues, CLASSES[..i])
      modifies queues.Values
      ensures Valid() && Waiting() == Kept(was, allQueues, CLASSES[..i + 1])
      ensures n == Dropped(was, allQueues, CLASSES[..i + 1]) - Dropped(was, allQueues, CLASSES[..i])
    {
      hide ClassQueue.Valid, ClassQueue.Contents, ResendRing.Valid, ResendRing.Contents, Kept, Dropped;
      VisitNext(was, allQueues, i);
      n := DropClass(CLASSES[i], allQueues);
    }

    /** One turn of the loop that empties the queues. */
    method DropClass(c: Class, allQueues: bool) returns (n: nat)
      requires Valid()
      modifies queues[c]
      ensures Valid()
      ensures n == if allQueues || Sequenced(c) then |old(Waiting())[c]| else 0
      ensures Waiting() == if allQueues || Sequenced(c) then old(Waiting())[c := []] else old(Waiting())
    {
      hide ClassQueue.Valid, ClassQueue.Contents, ResendRing.Valid, ResendRing.Contents;
      n := 0;
      ghost var was := Waiting();
      if allQueues || Sequenced(c) {
        n := queues[c].size;
        queues[c].Reset();
        assert Waiting() == was[c := []];
      }
    }
  }

  const CLASSES: seq<Class> := [RaftControl, Gossip, PGBroadcast, RaftRPC, Surface]

  /** What is left queued once these classes were visited. */
  ghost function Kept(q: Queues, allQueues: bool, classes: seq<Class>): Queues {
    if classes == [] then q
    else
      var c := classes[|classes| - 1];
      var rest := Kept(q, allQueues, classes[..|classes| - 1]);
      if allQueues || Sequenced(c) then rest[c := []] else rest
  }

  /** Entries of these classes an end discards. */
  ghost function Dropped(q: Queues, allQueues: bool, classes: seq<Class>): nat
    requires Total(q)
  {
    if classes == [] then 0
    else
      var c := classes[|classes| - 1];
      Dropped(q, allQueues, classes[..|classes| - 1]) + (if allQueues || Sequenced(c) then |q[c]| else 0)
  }

  lemma {:induction false} KeptAt(q: Queues, allQueues: bool, n: nat, c: Class)
    requires Total(q) && n <= |CLASSES|
    ensures Total(Kept(q, allQueues, CLASSES[..n]))
    ensures Kept(q, allQueues, CLASSES[..n])[c] == if (allQueues || Sequenced(c)) && c in CLASSES[..n] then [] else q[c]
  {
    if n > 0 {
      assert CLASSES[..n][..n - 1] == CLASSES[..n - 1];
      KeptAt(q, allQueues, n - 1, c);
      assert CLASSES[..n] == CLASSES[..n - 1] + [CLASSES[n - 1]];
    }
  }

  lemma VisitNone(q: Queues, allQueues: bool)
    requires Total(q)
    ensures Kept(q, allQueues, CLASSES[..0]) == q && Dropped(q, allQueues, CLASSES[..0]) == 0
  {
  }

  lemma VisitNext(q: Queues, allQueues: bool, i: nat)
    requires Total(q) && i < |CLASSES|
    ensures var c := CLASSES[i]; var now := Kept(q, allQueues, CLASSES[..i]);
      && c in now && now[c] == q[c]
      && Kept(q, allQueues, CLASSES[..i + 1]) == (if allQueues || Sequenced(c) then now[c := []] else now)
      && Dropped(q, allQueues, CLASSES[..i + 1]) == Dropped(q, allQueues, CLASSES[..i]) + (if allQueues || Sequenced(c) then |q[c]| else 0)
  {
    assert CLASSES[..i + 1][..i] == CLASSES[..i];
    KeptAt(q, allQueues, i, CLASSES[i]);
  }

  lemma KeptIsDiscard(l: Link, allQueues: bool)
    requires Total(l.queues)
    ensures Kept(l.queues, allQueues, CLASSES) == Discard(l, allQueues).queues
  {
    assert CLASSES[..|CLASSES|] == CLASSES;
    forall c: Class ensures c in CLASSES && c in Kept(l.queues, allQueues, CLASSES) && Kept(l.queues, allQueues, CLASSES)[c] == Discard(l, allQueues).queues[c] {
      match c { case RaftControl => assert CLASSES[0] == c; case Gossip => assert CLASSES[1] == c; case PGBroadcast => assert CLASSES[2] == c; case RaftRPC => assert CLASSES[3] == c; case Surface => assert CLASSES[4] == c; }
      KeptAt(l.queues, allQueues, |CLASSES|, c);
    }
  }
}
