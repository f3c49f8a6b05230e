/**
 * The internode session protocol as a transition system over two endpoints: sessions on
 * both sides, any number of sockets between them, and every step an endpoint takes on
 * a socket (cluster/internode/session.go, connection.go, state_manager.go).
 *
 * A socket is two FIFO directions. Each end keeps everything it wrote on the socket (`wire`)
 * and how many of the peer's frames its reader consumed (`read`); a cut truncates a
 * direction anywhere behind its reader and stops further writes on it. Steps happen in any
 * order; a crash is a run of Cut, Stop, Detach and CloseDetached steps.
 */
module Protocol {
  import opened Frames
  import opened Links

  datatype Side = Left | Right

  function Other(x: Side): Side {
    if x == Left then Right else Left
  }

  datatype Pair<T> = Pair(left: T, right: T) {
    function At(x: Side): T {
      if x == Left then left else right
    }

    function With(x: Side, t: T): Pair<T> {
      if x == Left then Pair(t, right) else Pair(left, t)
    }
  }

  datatype WireFrame =
    | Resume(id: nat, view: nat, recv: nat)
    | DataFrame(num: nat, kind: Class, data: Data, ack: nat)
    | AckFrame(ack: nat)

  /** The ack every frame carries; a RESUME carries the receive cursor. */
  function AckOf(f: WireFrame): nat {
    match f
    case Resume(_, _, recv) => recv
    case DataFrame(_, _, _, a) => a
    case AckFrame(a) => a
  }

  /** Where a connection's reader stands. Failed: it met a protocol violation. */
  datatype Phase = AwaitResume | AwaitReset | Ready | Handling(num: nat) | Failed | Stopped

  /** One side's connection on a socket. Session and socket identifiers start at 1; 0 is none. */
  datatype End = End(
    sess: nat,             // the session bound at adoption
    running: bool,
    phase: Phase,
    announce: nat,         // receive cursor this end's RESUME carried, 0 before
    view: nat,             // peer session its RESUME named
    resumed: bool,         // the peer's RESUME was reconciled
    outbox: seq<Outbound>, // drained, not yet written
    ackLoaded: nat,        // the ack the writer stamps on frames
    wire: seq<WireFrame>,
    cut: bool,
    read: nat)

  const UNUSED: End := End(0, false, AwaitResume, 0, 0, false, [], 0, [], false, 0)

  /**
   * A session. The last seven fields are history: every sequenced frame drained (frame n
   * is log[n-1]), every frame handed to the handler, the payloads each class queue
   * accepted and dropped at the end, the socket now serving the session, the one that
   * bound its peer and the one its ack came from.
   */
  datatype Session = Session(
    side: Side,
    link: Link,
    peer: nat,
    recvNext: nat,
    ended: bool,
    log: seq<Msg>,
    delivered: seq<Msg>,
    accepted: Queues,
    dropped: Queues,
    server: nat,
    bindSock: nat,
    ackSock: nat)

  function NewSession(x: Side, queues: Queues): Session {
    Session(x, FRESH.(queues := queues), 0, 1, false, [], [], EMPTY_QUEUES, EMPTY_QUEUES, 0, 0, 0)
  }

  datatype World = World(
    window: nat,
    sessions: seq<Session>,   // index 0 is a placeholder
    socks: seq<Pair<End>>,    // index 0 is a placeholder
    cur: Pair<nat>)           // each side's current session, 0 while the node is not managed

  function Init(window: nat): World {
    World(window, [NewSession(Left, EMPTY_QUEUES)], [Pair(UNUSED, UNUSED)], Pair(0, 0))
  }

  predicate IsSess(w: World, id: nat) {
    1 <= id < |w.sessions|
  }

  predicate IsSock(w: World, k: nat) {
    1 <= k < |w.socks|
  }

  function EndAt(w: World, k: nat, x: Side): End
    requires IsSock(w, k)
  {
    w.socks[k].At(x)
  }

  function SetEnd(w: World, k: nat, x: Side, e: End): World
    requires IsSock(w, k)
  {
    w.(socks := w.socks[k := w.socks[k].With(x, e)])
  }

  function SetSess(w: World, id: nat, s: Session): World
    requires IsSess(w, id)
  {
    w.(sessions := w.sessions[id := s])
  }

  // ---------------------------------------------------------------- steps

  datatype Step =
    | CreateState(x: Side)
    | Detach(x: Side)
    | CloseDetached(id: nat)
    | Replace(x: Side, all: bool)
    | Enqueue(x: Side, kind: Class, data: Data)
    | Connect
    | Cut(x: Side, k: nat, n: nat)
    | Adopt(x: Side, k: nat)
    | Announce(x: Side, k: nat)
    | ReadResume(x: Side, k: nat)
    | LoadAck(x: Side, k: nat)
    | DrainResend(x: Side, k: nat)
    | DrainTake(x: Side, k: nat, kind: Class)
    | Write(x: Side, k: nat)
    | WriteAck(x: Side, k: nat)
    | Read(x: Side, k: nat)
    | Finish(x: Side, k: nat)
    | FailSession(x: Side, k: nat)
    | Stop(x: Side, k: nat)

  /** End `k` of side `x` is served by a live connection run. */
  predicate Serving(w: World, k: nat, x: Side) {
    IsSock(w, k) && EndAt(w, k, x).running && IsSess(w, EndAt(w, k, x).sess)
  }

  /**
   * drainSession hands out frames of the session its state holds. It looks the state up before it takes the
   * state's lock, so a drain may still follow the removal, until that ends the session.
   */
  predicate CanDrain(w: World, k: nat, x: Side) {
    && Serving(w, k, x)
    && EndAt(w, k, x).resumed
    && EndAt(w, k, x).announce != 0
    && !w.sessions[EndAt(w, k, x).sess].ended
  }

  predicate Enabled(w: World, st: Step) {
    match st
    case CreateState(x) => w.cur.At(x) == 0
    case Detach(x) => w.cur.At(x) != 0
    case CloseDetached(id) => IsSess(w, id) && !w.sessions[id].ended && w.cur.At(w.sessions[id].side) != id
    case Replace(x, _) => IsSess(w, w.cur.At(x))
    case Enqueue(x, c, _) => IsSess(w, w.cur.At(x)) && c in w.sessions[w.cur.At(x)].link.queues && c in w.sessions[w.cur.At(x)].accepted
    case Connect => true
    case Cut(x, k, n) => IsSock(w, k) && EndAt(w, k, Other(x)).read <= n <= |EndAt(w, k, x).wire|
    case Adopt(x, k) =>
      // one connection run serves a session at a time (LoopRuns proves it of the control loop)
      IsSock(w, k) && EndAt(w, k, x).sess == 0 && IsSess(w, w.cur.At(x)) && w.sessions[w.cur.At(x)].server == 0
    case Announce(x, k) => Serving(w, k, x) && EndAt(w, k, x).announce == 0 && !EndAt(w, k, x).cut
    case ReadResume(x, k) =>
      Serving(w, k, x) && EndAt(w, k, x).phase == AwaitResume && EndAt(w, k, Other(x)).wire != []
    case LoadAck(x, k) => Serving(w, k, x) && EndAt(w, k, x).announce != 0
    case DrainResend(x, k) => CanDrain(w, k, x) && CanResend(w.sessions[EndAt(w, k, x).sess].link)
    case DrainTake(x, k, c) => CanDrain(w, k, x) && CanTake(w.sessions[EndAt(w, k, x).sess].link, c, w.window)
    case Write(x, k) => Serving(w, k, x) && !EndAt(w, k, x).cut && EndAt(w, k, x).outbox != []
    case WriteAck(x, k) => Serving(w, k, x) && !EndAt(w, k, x).cut && EndAt(w, k, x).resumed && EndAt(w, k, x).announce != 0
    case Read(x, k) =>
      Serving(w, k, x) && (EndAt(w, k, x).phase == Ready || EndAt(w, k, x).phase == AwaitReset)
      && EndAt(w, k, x).read < |EndAt(w, k, Other(x)).wire|
    case Finish(x, k) => Serving(w, k, x) && EndAt(w, k, x).phase.Handling?
    case FailSession(x, k) => Serving(w, k, x) && EndAt(w, k, x).phase == Failed
    case Stop(x, k) => Serving(w, k, x) && EndAt(w, k, x).phase != Failed && !EndAt(w, k, x).phase.Handling?
  }

  function Ended(s: Session, all: bool): Session {
    s.(ended := true, link := Discard(s.link, all), dropped := s.link.queues)
  }

  /** endSessionLocked with replace: the session ends and a fresh one follows it. */
  function ReplaceSession(w: World, x: Side, all: bool): World
    requires IsSess(w, w.cur.At(x))
  {
    var ended := Ended(w.sessions[w.cur.At(x)], all);
    w.(sessions := w.sessions[w.cur.At(x) := ended] + [NewSession(x, ended.link.queues)],
       cur := w.cur.With(x, |w.sessions|))
  }

  /** What RESUME does to the session and the reader (resume, and readLoop's use of it). */
  function Reconcile(w: World, x: Side, k: nat): World
    requires Enabled(w, ReadResume(x, k))
  {
    var e := EndAt(w, k, x);
    var s := w.sessions[e.sess];
    var f := EndAt(w, k, Other(x)).wire[0];
    var e1 := e.(read := 1);
    if !f.Resume? then
      SetEnd(w, k, x, e1.(phase := Failed))
    else if w.cur.At(x) != e.sess then
      SetEnd(w, k, x, e1.(phase := Stopped))
    else if s.peer != 0 && f.id != s.peer then
      ReplaceSession(SetEnd(w, k, x, e1.(phase := Stopped)), x, false)
    else if f.view != 0 && f.view != e.sess then
      SetEnd(w, k, x, e1.(phase := if s.peer == 0 then AwaitReset else Failed))
    else if !AckInRange(s.link, f.recv) then
      SetEnd(w, k, x, e1.(phase := Failed))
    else
      SetSess(SetEnd(w, k, x, e1.(phase := Ready, resumed := true)), e.sess,
        s.(peer := f.id, link := Rewind(Acknowledge(s.link, f.recv)),
           bindSock := if s.peer == 0 then k else s.bindSock, ackSock := k))
  }

  /** The session after applyAck. */
  function Acked(s: Session, k: nat, ack: nat): Session {
    if ack == s.link.acked then s else s.(link := Acknowledge(s.link, ack), ackSock := k)
  }

  /** One frame through readLoop once the session is agreed. */
  function Consume(s: Session, e: End, k: nat, f: WireFrame): (Session, End) {
    var s1 := Acked(s, k, AckOf(f));
    var e1 := e.(read := e.read + 1);
    if e.phase == AwaitReset then
      (s, e1.(phase := Failed))
    else if AckOf(f) != s.link.acked && !AckInRange(s.link, AckOf(f)) then
      (s, e1.(phase := Failed))
    else
      match f
      case AckFrame(_) => (s1, e1)
      case Resume(_, _, _) => (s1, e1.(phase := Failed))
      case DataFrame(num, kind, data, _) =>
        if Sequenced(kind) && num < s.recvNext then (s1, e1)
        else if Sequenced(kind) && num > s.recvNext then (s1, e1.(phase := Failed))
        else if s.ended then (s1, e1.(phase := Stopped))
        else if Sequenced(kind) then
          (s1.(delivered := s.delivered + [Msg(kind, data)]), e1.(phase := Handling(num)))
        else (s1, e1)
  }

  function Apply(w: World, st: Step): World
    requires Enabled(w, st)
  {
    match st
    case CreateState(x) =>
      w.(sessions := w.sessions + [NewSession(x, EMPTY_QUEUES)], cur := w.cur.With(x, |w.sessions|))
    case Detach(x) => w.(cur := w.cur.With(x, 0))
    case CloseDetached(id) => SetSess(w, id, Ended(w.sessions[id], true))
    case Replace(x, all) => ReplaceSession(w, x, all)
    case Enqueue(x, c, d) =>
      var s := w.sessions[w.cur.At(x)];
      SetSess(w, w.cur.At(x), s.(link := Accept(s.link, c, d), accepted := s.accepted[c := s.accepted[c] + [d]]))
    case Connect => w.(socks := w.socks + [Pair(UNUSED, UNUSED)])
    case Cut(x, k, n) =>
      var e := EndAt(w, k, x);
      SetEnd(w, k, x, e.(wire := e.wire[..n], cut := true))
    case Adopt(x, k) =>
      var id := w.cur.At(x);
      SetSess(SetEnd(w, k, x, EndAt(w, k, x).(sess := id, running := true)), id, w.sessions[id].(server := k))
    case Announce(x, k) =>
      var e := EndAt(w, k, x);
      var s := w.sessions[e.sess];
      SetEnd(w, k, x, e.(announce := s.recvNext, view := s.peer, ackLoaded := s.recvNext,
                         wire := [Resume(e.sess, s.peer, s.recvNext)]))
    case ReadResume(x, k) => Reconcile(w, x, k)
    case LoadAck(x, k) =>
      var e := EndAt(w, k, x);
      SetEnd(w, k, x, e.(ackLoaded := w.sessions[e.sess].recvNext))
    case DrainResend(x, k) =>
      var e := EndAt(w, k, x);
      var s := w.sessions[e.sess];
      SetSess(SetEnd(w, k, x, e.(outbox := e.outbox + [ResendFrame(s.link)])), e.sess, s.(link := Resend(s.link)))
    case DrainTake(x, k, c) =>
      var e := EndAt(w, k, x);
      var s := w.sessions[e.sess];
      var f := TakeFrame(s.link, c, w.window);
      SetSess(SetEnd(w, k, x, e.(outbox := e.outbox + [f])), e.sess,
        s.(link := Take(s.link, c, w.window), log := if Sequenced(c) then s.log + [Msg(c, f.data)] else s.log))
    case Write(x, k) =>
      var e := EndAt(w, k, x);
      var o := e.outbox[0];
      SetEnd(w, k, x, e.(outbox := e.outbox[1..], wire := e.wire + [DataFrame(o.num, o.kind, o.data, e.ackLoaded)]))
    case WriteAck(x, k) =>
      var e := EndAt(w, k, x);
      SetEnd(w, k, x, e.(wire := e.wire + [AckFrame(e.ackLoaded)]))
    case Read(x, k) =>
      var e := EndAt(w, k, x);
      var (s1, e1) := Consume(w.sessions[e.sess], e, k, EndAt(w, k, Other(x)).wire[e.read]);
      SetSess(SetEnd(w, k, x, e1), e.sess, s1)
    case Finish(x, k) =>
      var e := EndAt(w, k, x);
      SetSess(SetEnd(w, k, x, e.(phase := Ready)), e.sess, w.sessions[e.sess].(recvNext := e.phase.num + 1))
    case FailSession(x, k) =>
      var e := EndAt(w, k, x);
      var w1 := SetEnd(w, k, x, e.(phase := Stopped));
      if w.cur.At(x) == e.sess then ReplaceSession(w1, x, false) else w1
    case Stop(x, k) =>
      var e := EndAt(w, k, x);
      SetSess(SetEnd(w, k, x, e.(phase := Stopped, running := false)), e.sess, w.sessions[e.sess].(server := 0))
  }

  /** Steps a run may take one after the other from `w`. */
  predicate Runs(w: World, steps: seq<Step>)
    decreases |steps|
  {
    steps != [] ==> Enabled(w, steps[0]) && Runs(Apply(w, steps[0]), steps[1..])
  }

  function Exec(w: World, steps: seq<Step>): World
    requires Runs(w, steps)
    decreases |steps|
  {
    if steps == [] then w else Exec(Apply(w, steps[0]), steps[1..])
  }
}
