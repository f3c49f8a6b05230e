/** What a drain does, frame by frame: the steps the protocol takes one at a time. */
module Draining {
  import opened Frames
  import opened Links

  datatype Replayed = Broken | At(link: Link)

  /** The link after one drained frame, or Broken if the frame could not have been drained. */
  function DrainOne(l: Link, f: Outbound, window: nat): Replayed {
    if CanResend(l) then
      if f == ResendFrame(l) then At(Resend(l)) else Broken
    else if CanTake(l, f.kind, window) && f == TakeFrame(l, f.kind, window) then
      At(Take(l, f.kind, window))
    else
      Broken
  }

  /** The link after a whole batch. */
  function Replay(l: Link, out: seq<Outbound>, window: nat): Replayed {
    if out == [] then At(l)
    else
      match Replay(l, out[..|out| - 1], window)
      case Broken => Broken
      case At(m) => DrainOne(m, out[|out| - 1], window)
  }

  lemma ReplayAppend(l: Link, out: seq<Outbound>, f: Outbound, window: nat)
    requires Replay(l, out, window).At?
    ensures Replay(l, out + [f], window) == DrainOne(Replay(l, out, window).link, f, window)
  {
    assert (out + [f])[..|out|] == out;
  }

  /** Frames of class `c` in a batch. */
  function Count(out: seq<Outbound>, c: Class): nat {
    if out == [] then 0 else Count(out[..|out| - 1], c) + (if out[|out| - 1].kind == c then 1 else 0)
  }

  lemma CountAppend(out: seq<Outbound>, f: Outbound, c: Class)
    ensures Count(out + [f], c) == Count(out, c) + (if f.kind == c then 1 else 0)
  {
    assert (out + [f])[..|out|] == out;
  }

  /** A class that cannot be drained now stays so while other classes are: the ring only fills up. */
  lemma StaysRefused(l: Link, c: Class, d: Class, window: nat)
    requires !CanTake(l, c, window) && CanTake(l, d, window) && c != d && c in l.queues
    ensures !CanTake(Take(l, d, window), c, window)
  {
    if Sequenced(d) {
      assert (l.ring + [Entry(l.sendNext, d, l.queues[d][0])])[..|l.ring|] == l.ring;
    }
  }

  predicate Application(c: Class) {
    c == PGBroadcast || c == Surface
  }

  /** Drain priority: Raft control first, then Raft RPC, then gossip, then the two application classes. */
  predicate Ahead(c: Class, d: Class) {
    || (c == RaftControl && d != RaftControl)
    || (c == RaftRPC && (d == Gossip || Application(d)))
    || (c == Gossip && Application(d))
  }

  ghost predicate Ranked(out: seq<Outbound>, start: nat) {
    forall i, j :: start <= i < j < |out| ==> !Ahead(out[j].kind, out[i].kind)
  }

  /** Whatever class is served, those ahead of it had nothing that could be served at that point. */
  ghost predicate Priority(l: Link, out: seq<Outbound>, start: nat, window: nat) {
    forall i, c :: start <= i < |out| && Ahead(c, out[i].kind) ==> Shut(l, out, i, c, window)
  }

  /** After the first `i` frames class `c` could not be served. */
  ghost predicate Shut(l: Link, out: seq<Outbound>, i: nat, c: Class, window: nat)
    requires i <= |out|
  {
    Replay(l, out[..i], window).At? && !CanTake(Replay(l, out[..i], window).link, c, window)
  }

  function Flip(c: Class): Class {
    if c == Surface then PGBroadcast else Surface
  }

  /** The application class served last before position i; the saved turn stands in for it at `start`. */
  function Previous(out: seq<Outbound>, start: nat, turn: bool, i: nat): Class
    requires start <= i <= |out|
  {
    if i > start then out[i - 1].kind else if turn then PGBroadcast else Surface
  }

  /** The other application class could not be served at this point. */
  ghost predicate Refused(l: Link, out: seq<Outbound>, start: nat, i: nat, c: Class, window: nat)
    requires start <= i <= |out|
  {
    || (c == Surface && Count(out[start..i], Surface) >= SURFACE_QUEUE_CAP)
    || (Replay(l, out[..i], window).At? && !CanTake(Replay(l, out[..i], window).link, c, window))
  }

  /** Application classes alternate: one is served twice in a row only when the other could not be. */
  ghost predicate Alternating(l: Link, out: seq<Outbound>, start: nat, turn: bool, window: nat)
    requires start <= |out|
  {
    forall i :: start <= i < |out| ==>
      && Application(out[i].kind)
      && (out[i].kind == Previous(out, start, turn, i) ==> Refused(l, out, start, i, Flip(out[i].kind), window))
  }

  lemma AlternatingAppend(l: Link, out: seq<Outbound>, f: Outbound, start: nat, turn: bool, window: nat)
    requires start <= |out| && Alternating(l, out, start, turn, window)
    requires Application(f.kind)
    requires f.kind == Previous(out, start, turn, |out|) ==> Refused(l, out, start, |out|, Flip(f.kind), window)
    ensures Alternating(l, out + [f], start, turn, window)
  {
    forall i | start <= i < |out + [f]|
      ensures Application((out + [f])[i].kind)
      ensures (out + [f])[i].kind == Previous(out + [f], start, turn, i) ==> Refused(l, out + [f], start, i, Flip((out + [f])[i].kind), window)
    {
      assert (out + [f])[..i] == out[..i] && (out + [f])[start..i] == out[start..i];
      assert Previous(out + [f], start, turn, i) == Previous(out, start, turn, i);
    }
  }

  lemma NothingDrained(l: Link, turn: bool, window: nat)
    ensures Replay(l, [], window) == At(l) && Alternating(l, [], 0, turn, window) && Priority(l, [], 0, window) && Ranked([], 0)
    ensures var none: seq<Outbound> := []; Count(none[0..], Surface) == 0
  {
  }

  lemma NothingAlternates(l: Link, out: seq<Outbound>, turn: bool, window: nat)
    ensures Alternating(l, out, |out|, turn, window) && Count(out[|out|..], Surface) == 0
    ensures Priority(l, out, |out|, window) && Ranked(out, |out|)
  {
  }

  lemma {:induction false} ReplayCut(l: Link, out: seq<Outbound>, i: nat, window: nat)
    requires i <= |out| && Replay(l, out, window).At?
    ensures Replay(l, out[..i], window).At?
  {
    if i == |out| {
      assert out[..i] == out;
    } else {
      assert out[..|out| - 1][..i] == out[..i];
      ReplayCut(l, out[..|out| - 1], i, window);
    }
  }

  /** Everything queued keeps its class, and nothing waits for retransmission. */
  ghost predicate Ready(l: Link) {
    !CanResend(l) && forall c: Class :: c in l.queues
  }

  lemma ShutStep(m: Link, f: Outbound, c: Class, window: nat)
    requires Ready(m) && !CanTake(m, c, window) && f.kind != c && DrainOne(m, f, window).At?
    ensures Ready(DrainOne(m, f, window).link) && !CanTake(DrainOne(m, f, window).link, c, window)
  {
    StaysRefused(m, c, f.kind, window);
  }

  /** A class that was shut at `a` stays so while only other classes are drained. */
  lemma {:induction false} ShutFrom(l: Link, out: seq<Outbound>, a: nat, i: nat, c: Class, window: nat)
    requires a <= i <= |out| && Replay(l, out, window).At? && Shut(l, out, a, c, window) && Ready(Replay(l, out[..a], window).link)
    requires forall k :: a <= k < i ==> out[k].kind != c
    ensures Shut(l, out, i, c, window) && Ready(Replay(l, out[..i], window).link)
    decreases i
  {
    if a < i {
      ShutFrom(l, out, a, i - 1, c, window);
      ReplayCut(l, out, i, window);
      assert out[..i][..i - 1] == out[..i - 1];
      hide CanTake, DrainOne, Ready;
      ShutStep(Replay(l, out[..i - 1], window).link, out[i - 1], c, window);
    }
  }

  /** `part` goes on from `before` with frames of class `c`, until the batch is full or the class is shut. */
  ghost predicate Exhausts(l: Link, before: seq<Outbound>, part: seq<Outbound>, c: Class, maxCount: nat, window: nat) {
    && before <= part && |part| <= maxCount
    && (forall i :: |before| <= i < |part| ==> part[i].kind == c)
    && Replay(l, part, window).At? && Ready(Replay(l, part, window).link)
    && (|part| < maxCount ==> !CanTake(Replay(l, part, window).link, c, window))
  }

  lemma ExhaustsAt(l: Link, before: seq<Outbound>, part: seq<Outbound>, m: Link, c: Class, maxCount: nat, window: nat)
    requires before <= part && |part| <= maxCount && (forall i :: |before| <= i < |part| ==> part[i].kind == c)
    requires Replay(l, part, window) == At(m) && !CanResend(m) && (forall d: Class :: d in m.queues)
    requires |part| < maxCount ==> !CanTake(m, c, window)
    ensures Exhausts(l, before, part, c, maxCount, window)
  {
  }

  lemma ShutAfter(l: Link, before: seq<Outbound>, part: seq<Outbound>, out: seq<Outbound>, c: Class, i: nat, maxCount: nat, window: nat)
    requires Replay(l, out, window).At? && Exhausts(l, before, part, c, maxCount, window) && part <= out && |part| <= i < |out| <= maxCount
    requires forall k :: |part| <= k < |out| ==> out[k].kind != c
    ensures Shut(l, out, i, c, window)
  {
    hide CanTake, Replay, Ready;
    assert out[..|part|] == part;
    ShutFrom(l, out, |part|, i, c, window);
  }

  /** The three classes of Raft and gossip, one after the other, from `o0` to `o3`. */
  ghost predicate Phased(l: Link, o0: seq<Outbound>, o1: seq<Outbound>, o2: seq<Outbound>, o3: seq<Outbound>, maxCount: nat, window: nat) {
    && Exhausts(l, o0, o1, RaftControl, maxCount, window)
    && Exhausts(l, o1, o2, RaftRPC, maxCount, window)
    && Exhausts(l, o2, o3, Gossip, maxCount, window)
  }

  lemma PhasedKinds(l: Link, o0: seq<Outbound>, o1: seq<Outbound>, o2: seq<Outbound>, o3: seq<Outbound>, out: seq<Outbound>, maxCount: nat, window: nat)
    requires Phased(l, o0, o1, o2, o3, maxCount, window) && o3 <= out
    ensures forall i :: |o0| <= i < |o3| ==>
      out[i].kind == if i < |o1| then RaftControl else if i < |o2| then RaftRPC else Gossip
  {
    hide Replay, Ready, CanTake;
    assert forall i :: 0 <= i < |o1| ==> out[i] == o1[i];
    assert forall i :: 0 <= i < |o2| ==> out[i] == o2[i];
  }

  /** Draining class by class until each is shut, and the application classes last, gives the priority. */
  lemma PhasedPriority(l: Link, o0: seq<Outbound>, o1: seq<Outbound>, o2: seq<Outbound>, o3: seq<Outbound>, out: seq<Outbound>, maxCount: nat, window: nat)
    requires Phased(l, o0, o1, o2, o3, maxCount, window) && o3 <= out && |out| <= maxCount && Replay(l, out, window).At?
    requires forall i :: |o3| <= i < |out| ==> Application(out[i].kind)
    ensures Ranked(out, |o0|) && Priority(l, out, |o0|, window) && forall i :: |o0| <= i < |o3| ==> !Application(out[i].kind)
  {
    hide Replay, Shut, Ready, CanTake;
    PhasedKinds(l, o0, o1, o2, o3, out, maxCount, window);
    forall i, c | |o0| <= i < |out| && Ahead(c, out[i].kind) ensures Shut(l, out, i, c, window) {
      match c {
        case RaftControl => ShutAfter(l, o0, o1, out, c, i, maxCount, window);
        case RaftRPC => ShutAfter(l, o1, o2, out, c, i, maxCount, window);
        case Gossip => ShutAfter(l, o2, o3, out, c, i, maxCount, window);
        case _ =>
      }
    }
  }

  lemma AlternatingIsApplication(l: Link, out: seq<Outbound>, start: nat, turn: bool, window: nat)
    requires start <= |out| && Alternating(l, out, start, turn, window)
    ensures forall i :: start <= i < |out| ==> Application(out[i].kind)
  {
  }

  /** Where an alternating drain that began at `l` stands after `out`. */
  ghost predicate Turned(l: Link, out: seq<Outbound>, start: nat, turn: bool, now: bool, count: nat, here: Link, window: nat) {
    && start <= |out|
    && Replay(l, out, window) == At(here)
    && Alternating(l, out, start, turn, window)
    && Previous(out, start, turn, |out|) == (if now then PGBroadcast else Surface)
    && count == Count(out[start..], Surface) <= SURFACE_QUEUE_CAP
  }

  lemma TurnedNone(l: Link, out: seq<Outbound>, turn: bool, here: Link, window: nat)
    requires Replay(l, out, window) == At(here)
    ensures Turned(l, out, |out|, turn, turn, 0, here, window)
  {
  }

  lemma TurnedMeans(l: Link, out: seq<Outbound>, start: nat, turn: bool, now: bool, count: nat, here: Link, window: nat)
    requires Turned(l, out, start, turn, now, count, here, window)
    ensures start <= |out| && Replay(l, out, window) == At(here) && Alternating(l, out, start, turn, window)
    ensures Previous(out, start, turn, |out|) == (if now then PGBroadcast else Surface)
    ensures count == Count(out[start..], Surface) <= SURFACE_QUEUE_CAP
  {
  }

  lemma TurnedTake(l: Link, out: seq<Outbound>, start: nat, turn: bool, now: bool, count: nat, here: Link, f: Outbound, window: nat)
    requires Turned(l, out, start, turn, now, count, here, window)
    requires !CanResend(here) && CanTake(here, f.kind, window) && f == TakeFrame(here, f.kind, window)
    requires Application(f.kind) && (f.kind == Surface ==> count != SURFACE_QUEUE_CAP)
    requires f.kind == (if now then PGBroadcast else Surface) ==>
      !CanTake(here, Flip(f.kind), window) || (Flip(f.kind) == Surface && count == SURFACE_QUEUE_CAP)
    ensures Turned(l, out + [f], start, turn, f.kind != Surface, if f.kind == Surface then count + 1 else count,
                   Take(here, f.kind, window), window)
  {
    hide CanTake, Take, Alternating;
    ReplayAppend(l, out, f, window);
    assert out[..|out|] == out;
    AlternatingAppend(l, out, f, start, turn, window);
    assert (out + [f])[start..] == out[start..] + [f];
    CountAppend(out[start..], f, Surface);
  }
}
