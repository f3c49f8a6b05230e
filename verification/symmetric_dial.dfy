/**
 * Both nodes of a pair dial each other once: two sockets, two control loops, any order of arrival,
 * run ends and reports at either loop.
 */
module SymmetricDial {
  import opened ControlLoops
  import opened Options

  datatype Node = Low | High

  /** Which side dialed the socket. */
  datatype Sock = ByLow | ByHigh

  /** The connection a node sees on a socket. */
  function Seen(n: Node, s: Sock): Conn {
    Conn(if s == ByLow then 0 else 1, (n == Low) == (s == ByLow))
  }

  function SockOf(c: Conn): Sock {
    if c.id == 0 then ByLow else ByHigh
  }

  datatype Side = Side(
    loop: Loop,
    waiting: set<Sock>,   // handshaken, not yet handed to the loop
    running: set<Sock>,
    ended: set<Sock>)     // runs that ended, report not yet handled

  datatype System = System(low: Side, high: Side, closed: set<Sock>) {
    function At(n: Node): Side {
      if n == Low then low else high
    }

    function With(n: Node, s: Side): System {
      if n == Low then this.(low := s) else this.(high := s)
    }
  }

  const BOTH: set<Sock> := {ByLow, ByHigh}

  const START: System :=
    System(Side(Loop(None, None), BOTH, {}, {}), Side(Loop(None, None), BOTH, {}, {}), {})

  datatype Step = Arrive(n: Node, s: Sock) | RunEnd(n: Node, s: Sock) | Report(n: Node, s: Sock)

  /** A run ends once its socket is closed by either side; nothing else fails. */
  predicate Enabled(y: System, st: Step) {
    match st
    case Arrive(n, s) => s in y.At(n).waiting
    case RunEnd(n, s) => s in y.At(n).running && s in y.closed
    case Report(n, s) => s in y.At(n).ended
  }

  function Socks(cs: set<Conn>): set<Sock> {
    set c | c in cs :: SockOf(c)
  }

  function Use(y: System, n: Node, side: Side, e: Effect): System {
    y.With(n, side.(loop := e.loop, running := side.running + Socks(AsSet(e.starts)))).(closed := y.closed + Socks(e.closes))
  }

  function Apply(y: System, st: Step): System
    requires Enabled(y, st)
  {
    match st
    case Arrive(n, s) =>
      var side := y.At(n).(waiting := y.At(n).waiting - {s});
      Use(y, n, side, Connected(side.loop, Seen(n, s), n == Low, true, Bound, true))
    case RunEnd(n, s) =>
      y.With(n, y.At(n).(running := y.At(n).running - {s}, ended := y.At(n).ended + {s}))
    case Report(n, s) =>
      var side := y.At(n).(ended := y.At(n).ended - {s});
      Use(y, n, side, Disconnected(side.loop, Some(Seen(n, s)), true))
  }

  predicate Runs(y: System, steps: seq<Step>)
    decreases |steps|
  {
    steps != [] ==> Enabled(y, steps[0]) && Runs(Apply(y, steps[0]), steps[1..])
  }

  function Exec(y: System, steps: seq<Step>): System
    requires Runs(y, steps)
    decreases |steps|
  {
    if steps == [] then y else Exec(Apply(y, steps[0]), steps[1..])
  }

  /** No loop has anything left to do. */
  ghost predicate Quiet(y: System) {
    forall st: Step :: !Enabled(y, st)
  }

  /** One node's loop against its runs; the socket dialed by the lower node is never given up. */
  ghost predicate SideOk(y: System, n: Node) {
    var s := y.At(n);
    var l := s.loop;
    && (l.connection.None? || l.connection == Some(Seen(n, ByLow)) || l.connection == Some(Seen(n, ByHigh)))
    && (l.successor.None? || (l.successor == Some(Seen(n, ByLow)) && l.connection == Some(Seen(n, ByHigh)) && ByHigh in y.closed))
    && s.running !! s.ended
    && s.running + s.ended == Socks(AsSet(l.connection))
    && (ByLow !in s.ended)
    && (ByLow !in s.waiting ==> l.connection == Some(Seen(n, ByLow)) || l.successor == Some(Seen(n, ByLow)))
    && (ByLow in s.waiting ==> l.connection != Some(Seen(n, ByLow)) && l.successor.None?)
    && (ByHigh in s.waiting ==> l.connection != Some(Seen(n, ByHigh)))
    && (ByHigh !in s.waiting && l.connection != Some(Seen(n, ByHigh)) ==> ByHigh in y.closed)
  }

  ghost predicate Inv(y: System) {
    ByLow !in y.closed && SideOk(y, Low) && SideOk(y, High)
  }

  lemma ArriveKeeps(y: System, n: Node, s: Sock)
    requires Inv(y) && s in y.At(n).waiting
    ensures Inv(Apply(y, Arrive(n, s)))
  {
  }

  lemma RunEndKeeps(y: System, n: Node, s: Sock)
    requires Inv(y) && Enabled(y, RunEnd(n, s))
    ensures Inv(Apply(y, RunEnd(n, s)))
  {
  }

  lemma ReportKeeps(y: System, n: Node, s: Sock)
    requires Inv(y) && s in y.At(n).ended
    ensures Inv(Apply(y, Report(n, s)))
  {
  }

  lemma StepKeeps(y: System, st: Step)
    requires Inv(y) && Enabled(y, st)
    ensures Inv(Apply(y, st))
  {
    hide Inv;
    match st {
      case Arrive(n, s) => ArriveKeeps(y, n, s);
      case RunEnd(n, s) => RunEndKeeps(y, n, s);
      case Report(n, s) => ReportKeeps(y, n, s);
    }
  }

  /** Work left at one node. */
  function Left(s: Side): nat {
    6 * Size(s.waiting) + (if s.loop.successor.Some? then 3 else 0) + 2 * Size(s.running) + Size(s.ended)
  }

  function Size(s: set<Sock>): nat {
    (if ByLow in s then 1 else 0) + (if ByHigh in s then 1 else 0)
  }

  lemma ArriveWorks(y: System, n: Node, s: Sock)
    requires Inv(y) && s in y.At(n).waiting
    ensures Left(Apply(y, Arrive(n, s)).At(n)) < Left(y.At(n))
  {
  }

  lemma StepWorks(y: System, st: Step)
    requires Inv(y) && Enabled(y, st)
    ensures Left(Apply(y, st).low) + Left(Apply(y, st).high) < Left(y.low) + Left(y.high)
  {
    hide Connected;
    if st.Arrive? {
      ArriveWorks(y, st.n, st.s);
      hide Left;
    }
  }

  lemma {:induction false} RunBound(y: System, steps: seq<Step>)
    requires Inv(y) && Runs(y, steps)
    ensures Inv(Exec(y, steps)) && |steps| <= Left(y.low) + Left(y.high)
    decreases |steps|
  {
    hide Inv, Enabled, Apply, Left;
    if steps != [] {
      StepKeeps(y, steps[0]);
      StepWorks(y, steps[0]);
      RunBound(Apply(y, steps[0]), steps[1..]);
    }
  }

  /**
   * With one socket dialed by each side, in any order of arrivals, run ends and reports at the two loops:
   * after at most 24 steps nothing is left to do, and then both loops hold the socket the lower
   * node dialed, its run alone is live on either side, and the other socket is closed.
   */
  lemma Converges(steps: seq<Step>)
    requires Runs(START, steps)
    ensures |steps| <= 24
    ensures Quiet(Exec(START, steps)) ==>
      var y := Exec(START, steps);
      && y.low.loop == Loop(Some(Seen(Low, ByLow)), None) && y.high.loop == Loop(Some(Seen(High, ByLow)), None)
      && y.low.running == {ByLow} && y.high.running == {ByLow}
      && y.closed == {ByHigh}
  {
    RunBound(START, steps);
    hide Apply, Runs, Exec;
    var y := Exec(START, steps);
    if Quiet(y) {
      QuietSide(y, Low);
      QuietSide(y, High);
      forall s ensures s in y.closed <==> s == ByHigh {
        match s { case ByLow => case ByHigh => }
      }
    }
  }

  lemma QuietSide(y: System, n: Node)
    requires Inv(y) && Quiet(y)
    ensures y.At(n).loop == Loop(Some(Seen(n, ByLow)), None) && y.At(n).running == {ByLow} && ByHigh in y.closed
  {
    var s := y.At(n);
    assert !Enabled(y, Arrive(n, ByLow)) && !Enabled(y, Arrive(n, ByHigh));
    assert !Enabled(y, RunEnd(n, ByHigh)) && !Enabled(y, Report(n, ByHigh));
    assert SideOk(y, n);
    assert s.loop.connection == Some(Seen(n, ByHigh)) ==> ByHigh in s.running + s.ended;
  }
}
