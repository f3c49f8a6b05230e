/** The per-peer control loop: which connection serves the peer, and which waits to take over. */
module ControlLoops {
  import opened Options

  /** A handshaken connection; `dialed` tells whether this node opened it. */
  datatype Conn = Conn(id: nat, dialed: bool)

  /** Outcome of binding the peer's incarnation to the node's session. */
  datatype Binding = Bound | Restarted | Rejected

  /** What a loop holds. */
  datatype Loop = Loop(connection: Option<Conn>, successor: Option<Conn>)

  /** A handler's effect: the loop after it, the connections it closed, the one whose run it started. */
  datatype Effect = Effect(loop: Loop, closes: set<Conn>, starts: Option<Conn>)

  function AsSet(c: Option<Conn>): set<Conn> {
    if c.Some? then {c.value} else {}
  }

  /** Dialed by the lower node ID of the pair. */
  predicate Preferred(c: Conn, localIsLower: bool) {
    c.dialed == localIsLower
  }

  function Adopt(c: Conn, attached: bool): Effect {
    if attached then Effect(Loop(Some(c), None), {}, Some(c)) else Effect(Loop(None, None), {c}, None)
  }

  /** handleConnected, given what membership, the session binding and the state lookup answer. */
  function Connected(l: Loop, c: Conn, localIsLower: bool, authorized: bool, binding: Binding, attached: bool): Effect {
    if !authorized || binding == Rejected then
      Effect(l, {c}, None)
    else if l.connection.None? then
      Adopt(c, attached)
    else if binding == Restarted then
      Effect(l.(successor := Some(c)), AsSet(l.successor) + {l.connection.value}, None)
    else
      var current := if l.successor.Some? then l.successor.value else l.connection.value;
      if !Preferred(c, localIsLower) || Preferred(current, localIsLower) then
        Effect(l, {c}, None)
      else
        Effect(l.(successor := Some(c)), AsSet(l.successor) + {l.connection.value}, None)
  }

  /** handleDisconnected: only the end of the serving connection changes anything. */
  function Disconnected(l: Loop, c: Option<Conn>, attached: bool): Effect {
    if c != l.connection then
      Effect(l, {}, None)
    else if l.successor.Some? then
      var next := Adopt(l.successor.value, attached);
      next.(closes := next.closes + AsSet(l.connection))
    else
      Effect(Loop(None, None), AsSet(l.connection), None)
  }

  /** The connection a candidate is compared with: the one that waits, or else the one that serves. */
  function Current(l: Loop): Option<Conn> {
    if l.successor.Some? then l.successor else l.connection
  }

  /** The loop holds the connection, serving or waiting. */
  predicate Holds(l: Loop, c: Conn) {
    l.connection == Some(c) || l.successor == Some(c)
  }

  /**
   * When a candidate is kept: its process is the one membership advertises, the node's state is there, and
   * either nothing is held, or the peer restarted, or the candidate is preferred and the current one is not.
   */
  predicate Wanted(l: Loop, c: Conn, localIsLower: bool, authorized: bool, binding: Binding, attached: bool) {
    && authorized && binding != Rejected
    && (if l.connection.None? then attached
        else binding == Restarted || (Preferred(c, localIsLower) && !(Current(l).Some? && Preferred(Current(l).value, localIsLower))))
  }

  /**
   * What becomes of a new candidate and of what the loop held. A wanted one is adopted if nothing is held, and
   * otherwise waits while what was held is closed; an unwanted one is closed, and what was held stays.
   */
  lemma CandidateIsKeptIff(l: Loop, c: Conn, localIsLower: bool, authorized: bool, binding: Binding, attached: bool)
    requires !Holds(l, c)
    ensures var e := Connected(l, c, localIsLower, authorized, binding, attached);
      && (Holds(e.loop, c) <==> Wanted(l, c, localIsLower, authorized, binding, attached))
      && (Holds(e.loop, c) <==> c !in e.closes)
      && (e.loop.connection == Some(c) ==> l.connection.None? && e.starts == Some(c) && e.closes == {})
      && (e.loop.successor == Some(c) ==>
            e.loop.connection == l.connection && l.connection.Some? && e.starts.None? && e.closes == AsSet(l.connection) + AsSet(l.successor))
      && (!Holds(e.loop, c) ==> e.closes == {c} && e.starts.None? && (l.connection.Some? || l.successor.None? ==> e.loop == l))
  {
  }

  /** Only the end of the serving connection matters: its successor then serves, or is closed when the state is gone. */
  lemma SuccessorTakesOver(l: Loop, who: Option<Conn>, attached: bool)
    ensures var e := Disconnected(l, who, attached);
      && (who != l.connection ==> e.loop == l && e.closes == {} && e.starts.None?)
      && (who == l.connection ==>
            && e.loop.successor.None? && AsSet(l.connection) <= e.closes
            && e.loop.connection == (if attached then l.successor else None) && e.starts == e.loop.connection
            && (l.successor.Some? && !attached ==> l.successor.value in e.closes))
      && (l.successor.Some? && l.successor != l.connection && attached ==> l.successor.value !in e.closes)
  {
  }

  class ControlLoop {
    const localIsLower: bool
    var connection: Option<Conn>
    var successor: Option<Conn>
    ghost var running: set<Conn>   // runs that have started and not ended
    ghost var closed: set<Conn>
    ghost var seen: set<Conn>      // every connection handed to the loop

    ghost predicate Valid()
      reads this
    {
      && running <= AsSet(connection)
      && (successor.Some? ==> connection.Some? && successor != connection)
      && (successor.Some? ==> connection.value in closed && successor.value !in closed)
      && seen == closed + AsSet(connection) + AsSet(successor)
    }

    ghost function View(): Loop
      reads this
    {
      Loop(connection, successor)
    }

    constructor (localIsLower: bool)
      ensures Valid() && View() == Loop(None, None) && this.localIsLower == localIsLower && seen == {}
    {
      this.localIsLower := localIsLower;
      connection, successor := None, None;
      running, closed, seen := {}, {}, {};
    }

    /** adopt: makes `c` the node's connection and starts its run, unless the state is gone. */
    method AdoptConn(c: Conn, attached: bool)
      requires connection.None? && successor.None?
      modifies this`connection, this`running, this`closed
      ensures View() == Adopt(c, attached).loop
      ensures closed == old(closed) + Adopt(c, attached).closes && running == old(running) + AsSet(Adopt(c, attached).starts)
    {
      if !attached {
        closed := closed + {c};
        return;
      }
      connection := Some(c);
      running := running + {c};
    }

    method HandleConnected(c: Conn, authorized: bool, binding: Binding, attached: bool)
      requires Valid() && c !in seen
      modifies this
      ensures Valid() && seen == old(seen) + {c}
      ensures var e := Connected(old(View()), c, localIsLower, authorized, binding, attached);
        View() == e.loop && closed == old(closed) + e.closes && running == old(running) + AsSet(e.starts)
      ensures Holds(View(), c) <==> Wanted(old(View()), c, localIsLower, authorized, binding, attached)
      ensures Holds(View(), c) <==> c !in closed
      ensures connection == Some(c) ==> old(connection).None? && c in running
      ensures successor == Some(c) ==> connection == old(connection) && AsSet(old(connection)) + AsSet(old(successor)) <= closed
      ensures !Holds(View(), c) ==> View() == old(View()) && running == old(running)
    {
      CandidateIsKeptIff(View(), c, localIsLower, authorized, binding, attached);
      seen := seen + {c};
      if !authorized || binding == Rejected {
        closed := closed + {c};
        return;
      }
      if connection.None? {
        AdoptConn(c, attached);
        return;
      }
      var current := if successor.Some? then successor.value else connection.value;
      if binding != Restarted && (!Preferred(c, localIsLower) || Preferred(current, localIsLower)) {
        closed := closed + {c};
        return;
      }
      if successor.Some? {
        closed := closed + {successor.value};
      }
      successor := Some(c);
      closed := closed + {connection.value};
    }

    /** A connection's run ends by itself; its report follows. */
    ghost method RunEnds(c: Conn)
      requires Valid()
      modifies this`running
      ensures Valid() && View() == old(View()) && running == old(running) - {c}
    {
      running := running - {c};
    }

    /** A connection reports only after its run has ended; a failed dial reports none. */
    method HandleDisconnected(c: Option<Conn>, attached: bool)
      requires Valid() && (c.Some? ==> c.value !in running)
      modifies this`connection, this`successor, this`running, this`closed
      ensures Valid() && seen == old(seen)
      ensures var e := Disconnected(old(View()), c, attached);
        View() == e.loop && closed == old(closed) + e.closes && running == old(running) + AsSet(e.starts)
      ensures c != old(connection) ==> View() == old(View()) && running == old(running) && closed == old(closed)
      ensures c == old(connection) && attached ==> connection == old(successor) && AsSet(connection) <= running && successor.None?
      ensures c == old(connection) && !attached ==> connection.None? && successor.None? && AsSet(old(successor)) <= closed
    {
      if c != connection {
        return;
      }
      if connection.Some? {
        closed := closed + {connection.value};
        connection := None;
      }
      if successor.Some? {
        var next := successor.value;
        successor := None;
        AdoptConn(next, attached);
      }
    }
  }

  /** Whatever the loop has handled, at most one connection run is live, and it serves the adopted connection. */
  lemma OneRun(l: ControlLoop, a: Conn, b: Conn)
    requires l.Valid() && a in l.running && b in l.running
    ensures a == b && l.connection == Some(a)
  {
  }
}
