/**
 * Runs of the event queue against the retention ledger: the books of every run are those of a reached
 * ledger, and a topic's traffic comes back once its overflow terminal is drained.
 */
module QueueRuns {
  import opened Options
  import opened Retention
  import opened EventQueues

  /** The ledger with these books, between admissions, can move to those. */
  ghost predicate Leads(b: Books, passed: seq<Option<Message>>, c: Books, more: seq<Option<Message>>) {
    exists steps :: Runs(Ledger(b, None, passed), steps) && Exec(Ledger(b, None, passed), steps) == Ledger(c, None, more)
  }

  lemma LeadsOn(b: Books, x: seq<Option<Message>>, c: Books, y: seq<Option<Message>>, d: Books, z: seq<Option<Message>>)
    requires Leads(b, x, c, y) && Leads(c, y, d, z)
    ensures Leads(b, x, d, z)
  {
    var k := Ledger(b, None, x);
    var xs :| Runs(k, xs) && Exec(k, xs) == Ledger(c, None, y);
    var ys :| Runs(Ledger(c, None, y), ys) && Exec(Ledger(c, None, y), ys) == Ledger(d, None, z);
    RunsConcat(k, xs, ys);
  }

  lemma LeadsNowhere(b: Books, x: seq<Option<Message>>)
    ensures Leads(b, x, b, x)
  {
    var k := Ledger(b, None, x);
    assert Runs(k, []) && Exec(k, []) == k;
  }

  lemma LeadsBy(b: Books, x: seq<Option<Message>>, st: Step, c: Books)
    requires CanStep(Ledger(b, None, x), st) && Apply(Ledger(b, None, x), st) == Ledger(c, None, x)
    ensures Leads(b, x, c, x)
  {
    hide CanStep, Apply;
    var k := Ledger(b, None, x);
    assert [st][1..] == [];
    assert Runs(Apply(k, st), []) && Exec(Apply(k, st), []) == Apply(k, st);
    assert Runs(k, [st]) && Exec(k, [st]) == Apply(k, st);
  }

  lemma {:induction false} EndedLeads(b: Books, msgs: seq<Option<Message>>, x: seq<Option<Message>>)
    ensures Leads(b, x, b.(topics := b.topics - Ended(msgs)), x)
  {
    if msgs == [] {
      LeadsNowhere(b, x);
      assert b.topics - {} == b.topics;
    } else {
      var n := |msgs| - 1;
      EndedLeads(b, msgs[..n], x);
      hide Leads;
      if msgs[n].Some? && HasTerminal(msgs[n].value) {
        var c := b.(topics := b.topics - Ended(msgs[..n]));
        var d := b.(topics := b.topics - Ended(msgs));
        assert c.topics - {msgs[n].value.topic} == d.topics;
        LeadsBy(c, x, Retire(msgs[n].value.topic), d);
        LeadsOn(b, x, c, x, d, x);
      } else {
        assert Ended(msgs) == Ended(msgs[..n]);
      }
    }
  }

  lemma EndedByLeads(b: Books, e: Event, x: seq<Option<Message>>)
    ensures Leads(b, x, b.(topics := b.topics - EndedBy(e)), x)
  {
    EndedLeads(b, if e.Event? && e.message && e.body.Package? then e.body.msgs else [], x);
  }

  lemma {:induction false} RetiredLeads(b: Books, events: seq<Event>, x: seq<Option<Message>>)
    ensures Leads(b, x, b.(topics := Retired(b.topics, events)), x)
  {
    hide Leads;
    if events == [] {
      LeadsNowhere(b, x);
    } else {
      var c := b.(topics := Retired(b.topics, events[..|events| - 1]));
      RetiredLeads(b, events[..|events| - 1], x);
      EndedByLeads(c, events[|events| - 1], x);
      LeadsOn(b, x, c, x, b.(topics := Retired(b.topics, events)), x);
    }
  }

  lemma {:induction false} ReleaseLeads(b: Books, msgs: seq<Option<Message>>, x: seq<Option<Message>>)
    requires LeasesOk(b)
    ensures Leads(b, x, ReleasePackage(b, msgs), x)
  {
    hide Leads;
    if msgs == [] {
      LeadsNowhere(b, x);
    } else {
      var n := |msgs| - 1;
      ReleaseLeads(b, msgs[..n], x);
      if msgs[n].Some? {
        var c := ReleasePackage(b, msgs[..n]);
        LeadsBy(c, x, Drop(msgs[n].value.id), ReleaseMessage(c, msgs[n].value.id));
        LeadsOn(b, x, c, x, ReleasePackage(b, msgs), x);
      }
    }
  }

  lemma {:induction false} DiscardedLeads(b: Books, events: seq<Event>, x: seq<Option<Message>>)
    requires LeasesOk(b)
    ensures Leads(b, x, Discarded(b, events), x)
  {
    hide Leads;
    if events == [] {
      LeadsNowhere(b, x);
    } else {
      var c, e := Discarded(b, events[..|events| - 1]), events[|events| - 1];
      DiscardedLeads(b, events[..|events| - 1], x);
      EndedByLeads(c, e, x);
      var r := c.(topics := c.topics - EndedBy(e));
      LeadsOn(b, x, c, x, r, x);
      if e.Event? && e.message && e.body.Package? {
        ReleaseLeads(r, e.body.msgs, x);
        LeadsOn(b, x, r, x, Discarded(b, events), x);
      }
    }
  }

  /** What Close and Reset do to the books. */
  lemma ClearedLeads(b: Books, events: seq<Event>, x: seq<Option<Message>>)
    requires LeasesOk(b)
    ensures Leads(b, x, Discarded(b, events).(topics := map[]), x)
  {
    hide Leads, Discarded;
    var c := Discarded(b, events);
    DiscardedLeads(b, events, x);
    LeadsBy(c, x, RetireAll, c.(topics := map[]));
    LeadsOn(b, x, c, x, c.(topics := map[]), x);
  }

  lemma AdmissionLeads(b: Books, msgs: seq<Option<Message>>, x: seq<Option<Message>>)
    requires BooksOk(b) && Known(b, msgs)
    ensures Leads(b, x, AdmitAll(b, msgs).0, x + Somes(AdmitAll(b, msgs).1))
  {
    AdmissionIsRun(b, msgs, x);
  }

  /** Every operation moves the books as some steps of the ledger do. */
  lemma OpLeads(q: Queue, op: Op, x: seq<Option<Message>>) returns (y: seq<Option<Message>>)
    requires Allowed(q, op)
    ensures Leads(q.books, x, Done(q, op).books, y)
  {
    BooksHaveTopics(q.books);
    hide Leads, AdmitAll, BooksOk, Discarded, Retired, ReleasePackage, ReleaseLease, TakeLease, LeasesOk, TopicsOk;
    y := x;
    match op {
      case PushOp(_, _, _) => LeadsNowhere(q.books, x);
      case MessageOp(a, e, gen) =>
        LeadsNowhere(q.books, x);
        if Offered(a, e).Some? && IsPackage(Offered(a, e).value) && Done(q, op).books != q.books {
          var msgs := Offered(a, e).value.body.msgs;
          AdmissionLeads(q.books, msgs, x);
          y := x + Somes(AdmitAll(q.books, msgs).1);
        }
      case DirectOp(e) =>
        LeadsNowhere(q.books, x);
        if IsPackage(e) { ReleaseLeads(q.books, e.body.msgs, x); }
      case DrainOp => LeadsNowhere(q.books, x); RetiredLeads(q.books, q.pending, x);
      case CloseOp => ClearedLeads(q.books, q.pending, x);
      case ResetOp => ClearedLeads(q.books, q.pending, x);
      case AcquireOp => LeadsBy(q.books, x, NewMessage, Acquired(q.books));
      case TakeOp(id) => LeadsBy(q.books, x, Take(id), TakeLease(q.books, id));
      case ReleaseOp(l) => ReleaseOpLeads(q.books, l, x);
      case PackageOp(msgs) => ReleaseLeads(q.books, msgs, x);
    }
  }

  lemma ReleaseOpLeads(b: Books, l: nat, x: seq<Option<Message>>)
    requires LeasesOk(b) && l < |b.leases| && b.leases[l].taken
    ensures Leads(b, x, ReleaseLease(b, l), x)
  {
    hide Leads;
    LeadsBy(b, x, Release(l), ReleaseLease(b, l));
  }

  lemma {:induction false} RunLeads(q: Queue, ops: seq<Op>, x: seq<Option<Message>>) returns (y: seq<Option<Message>>)
    requires InOrder(q) && OpsAllowed(q, ops)
    ensures Leads(q.books, x, DoneAll(q, ops).books, y)
    decreases |ops|
  {
    hide Leads, InOrder, Done, Allowed;
    if ops == [] {
      y := x;
      LeadsNowhere(q.books, x);
    } else {
      OpKeeps(q, ops[0]);
      var z := OpLeads(q, ops[0], x);
      y := RunLeads(Done(q, ops[0]), ops[1..], z);
      LeadsOn(q.books, x, Done(q, ops[0]).books, z, DoneAll(q, ops).books, y);
    }
  }

  /** Along every run the queue's books are those of a reached ledger, so what every ledger keeps holds of the queue. */
  lemma BooksAreReached(ops: seq<Op>) returns (passed: seq<Option<Message>>)
    requires OpsAllowed(NEW_QUEUE, ops)
    ensures Reached(Ledger(DoneAll(NEW_QUEUE, ops).books, None, passed))
  {
    passed := RunLeads(NEW_QUEUE, ops, []);
    hide OpsAllowed, DoneAll, Runs, Exec;
  }

  /** In every run each topic incarnation's counters are the sums over its unreleased leases. */
  lemma QueueCounters(ops: seq<Op>, s: nat)
    requires OpsAllowed(NEW_QUEUE, ops) && s < |DoneAll(NEW_QUEUE, ops).books.states|
    ensures var b := DoneAll(NEW_QUEUE, ops).books;
      && b.states[s].items == Held(b.leases, s).items >= 0 && b.states[s].bytes == Held(b.leases, s).bytes >= 0
      && b.states[s].terminals == (if b.states[s].overflowed then 1 else 0)
  {
    var passed := BooksAreReached(ops);
    CountersAreLeases(Ledger(DoneAll(NEW_QUEUE, ops).books, None, passed), s);
    hide OpsAllowed, DoneAll;
  }

  // ---------------------------------------------------------------- a topic's traffic after its overflow

  lemma {:induction false} DoneOn(q: Queue, ops: seq<Op>, op: Op)
    requires OpsAllowed(q, ops) && Allowed(DoneAll(q, ops), op)
    ensures OpsAllowed(q, ops + [op]) && DoneAll(q, ops + [op]) == Done(DoneAll(q, ops), op)
    decreases |ops|
  {
    hide Allowed, Done;
    var more := ops + [op];
    if ops == [] {
      assert more == [op] && more[1..] == [];
      assert OpsAllowed(Done(q, op), []) && DoneAll(Done(q, op), []) == Done(q, op);
    } else {
      assert more[0] == ops[0] && more[1..] == ops[1..] + [op];
      DoneOn(Done(q, ops[0]), ops[1..], op);
    }
  }

  lemma AdmitSingle(b: Books, m: Message)
    requires BooksOk(b) && m.id < |b.slots|
    ensures Known(b, [Some(m)]) && CanDecide(Tightened(b, m), LoadFrom(b, m))
    ensures AdmitAll(b, [Some(m)]) == (Decided(Tightened(b, m), LoadFrom(b, m)), Passed(Tightened(b, m), LoadFrom(b, m)))
  {
    TightenedOk(b, m);
    hide BooksOk, Decided, Tightened, Passed;
    var msgs := [Some(m)];
    assert msgs[..0] == [] && msgs[0] == Some(m);
    assert AdmitAll(b, msgs[..0]) == (b, []);
    assert [] + Passed(Tightened(b, m), LoadFrom(b, m)) == Passed(Tightened(b, m), LoadFrom(b, m));
  }

  /** A one-message package of a topic bounded to one message, and the terminal that its overflow emits. */
  function One(id: nat): Message { Message(id, 0, [Data], 0, 0, 1) }

  function Pack(m: Message): Event { Event(true, 0, Package([Some(m)])) }

  const STOP: Message := Message(3, 0, [GoError, Terminal], 0, 0, 1)

  const BOUNDED: TopicState := TopicState(1, 0, 1, 0, false, 0)
  const OVERFLOWED: TopicState := TopicState(1, 0, 1, 0, true, 1)

  const FRESH: Books := Books([], [], [None, None, None], map[])
  const FIRST: Books := Books([BOUNDED], [Lease(0, 1, 0, false, false)], [Some(0), None, None], map[0 := 0])
  const SECOND: Books := Books([OVERFLOWED], [Lease(0, 1, 0, false, false)], [Some(0), None, None, None], map[0 := 0])
  const THIRD: Books := Books([OVERFLOWED, BOUNDED], [Lease(0, 1, 0, false, false), Lease(1, 1, 0, false, false)], [Some(0), None, Some(1), None], map[0 := 1])

  lemma PushOne(q: Queue, m: Message, c: Books, out: Message)
    requires BooksOk(q.books) && Open(q, 1) && m.id < |q.books.slots|
    requires CanDecide(Tightened(q.books, m), LoadFrom(q.books, m))
    requires Decided(Tightened(q.books, m), LoadFrom(q.books, m)) == c && Passed(Tightened(q.books, m), LoadFrom(q.books, m)) == [Some(out)]
    ensures Allowed(q, MessageOp(None, Pack(m), 1))
    ensures Done(q, MessageOp(None, Pack(m), 1)) == Accept(q.(books := c), Pack(out), Some(1))
  {
    hide BooksOk, Decided, Tightened, Passed, LoadFrom, AdmitAll;
    AdmitSingle(q.books, m);
  }

  lemma Admitting()
    ensures var c, p := Tightened(FRESH, One(0)), LoadFrom(FRESH, One(0));
      CanDecide(c, p) && Decided(c, p) == FIRST && Passed(c, p) == [Some(One(0))]
  {
  }

  lemma Overflowing()
    ensures var c, p := Tightened(FIRST, One(1)), LoadFrom(FIRST, One(1));
      CanDecide(c, p) && Decided(c, p) == SECOND && Passed(c, p) == [Some(STOP)]
  {
  }

  lemma Readmitting()
    ensures var c, p := Tightened(SECOND.(topics := map[]), One(2)), LoadFrom(SECOND.(topics := map[]), One(2));
      CanDecide(c, p) && Decided(c, p) == THIRD && Passed(c, p) == [Some(One(2))]
  {
  }

  lemma StopEnds()
    ensures Retired(map[0 := 0], [Pack(One(0)), Pack(STOP)]) == map[]
  {
    var events := [Pack(One(0)), Pack(STOP)];
    assert STOP.payloads[1] == Terminal;
    EndedIff([Some(STOP)], 0);
    assert [Some(STOP)][0].value == STOP;
    RetiredIff(map[0 := 0], events, 0);
    assert events[1] == Pack(STOP);
    forall t ensures t !in Retired(map[0 := 0], events) { RetiredIff(map[0 := 0], events, t); }
  }

  const START3: Queue := NEW_QUEUE.(books := FRESH)
  const AFTER1: Queue := Queue([Pack(One(0))], 1, false, FIRST, [Pack(One(0))], [Some(1)], [])
  const AFTER2: Queue := Queue([Pack(One(0)), Pack(STOP)], 1, false, SECOND, [Pack(One(0)), Pack(STOP)], [Some(1), Some(1)], [])
  const DRAINED: Queue :=
    Queue([], 1, false, SECOND.(topics := map[]), [Pack(One(0)), Pack(STOP)], [Some(1), Some(1)], [Pack(One(0)), Pack(STOP)])
  const RESUMED: Queue :=
    Queue([Pack(One(2))], 1, false, THIRD, [Pack(One(0)), Pack(STOP), Pack(One(2))], [Some(1), Some(1), Some(1)], [Pack(One(0)), Pack(STOP)])

  /** A run of the queue's first generation, without Reset or Close, comes to `q`. */
  ghost predicate Comes(q: Queue) {
    exists ops :: OpsAllowed(NEW_QUEUE, ops) && ResetOp !in ops && CloseOp !in ops && DoneAll(NEW_QUEUE, ops) == q
  }

  lemma ComesOn(q: Queue, op: Op, v: Queue)
    requires Comes(q) && Allowed(q, op) && op != ResetOp && op != CloseOp && Done(q, op) == v
    ensures Comes(v)
  {
    hide Done, Allowed;
    var ops :| OpsAllowed(NEW_QUEUE, ops) && ResetOp !in ops && CloseOp !in ops && DoneAll(NEW_QUEUE, ops) == q;
    DoneOn(NEW_QUEUE, ops, op);
  }

  lemma ComesOk(q: Queue)
    requires Comes(q)
    ensures BooksOk(q.books)
  {
    hide BooksOk, InOrder;
    var ops :| OpsAllowed(NEW_QUEUE, ops) && ResetOp !in ops && CloseOp !in ops && DoneAll(NEW_QUEUE, ops) == q;
    var passed := BooksAreReached(ops);
    ReachedOk(Ledger(q.books, None, passed));
  }

  lemma OneAcquired(q: Queue, v: Queue)
    requires Comes(q) && v == q.(books := q.books.(slots := q.books.slots + [None]))
    ensures Comes(v)
  {
    hide Comes, BooksOk;
    ComesOk(q);
    ComesOn(q, AcquireOp, v);
  }

  lemma ThreeAcquired()
    ensures Comes(START3)
  {
    assert OpsAllowed(NEW_QUEUE, []) && DoneAll(NEW_QUEUE, []) == NEW_QUEUE;
    assert Comes(NEW_QUEUE);
    hide Comes, OpsAllowed, DoneAll;
    var q1 := NEW_QUEUE.(books := EMPTY_BOOKS.(slots := [None]));
    var q2 := NEW_QUEUE.(books := EMPTY_BOOKS.(slots := [None, None]));
    OneAcquired(NEW_QUEUE, q1);
    OneAcquired(q1, q2);
    OneAcquired(q2, START3);
  }

  /** Pushing message `m`, which becomes `out` in the package, takes the books to `c`. */
  lemma OnePushed(q: Queue, m: Message, c: Books, out: Message, v: Queue)
    requires Comes(q) && Open(q, 1) && m.id < |q.books.slots|
    requires TopicsOk(q.books) && CanDecide(Tightened(q.books, m), LoadFrom(q.books, m))
    requires Decided(Tightened(q.books, m), LoadFrom(q.books, m)) == c && Passed(Tightened(q.books, m), LoadFrom(q.books, m)) == [Some(out)]
    requires v == Accept(q.(books := c), Pack(out), Some(1))
    ensures Comes(v)
  {
    hide Comes, BooksOk, Done, Allowed, Decided, Tightened, Passed, LoadFrom, TopicsOk, CanDecide;
    ComesOk(q);
    PushOne(q, m, c, out);
    ComesOn(q, MessageOp(None, Pack(m), 1), v);
  }

  lemma DrainStop()
    requires Comes(AFTER2)
    ensures Comes(DRAINED)
  {
    hide Comes, BooksOk;
    ComesOk(AFTER2);
    StopEnds();
    assert [] + AFTER2.pending == AFTER2.pending;
    ComesOn(AFTER2, DrainOp, DRAINED);
  }

  /**
   * Traffic is not silent until Reset: here the topic overflows, its terminal is drained, and the next
   * message of the topic is accepted with its data, in the same generation.
   */
  lemma ResumesAfterDrain()
    ensures Comes(RESUMED) && RESUMED.accepted == [Pack(One(0)), Pack(STOP), Pack(One(2))]
    ensures HasTerminal(STOP) && STOP.topic == One(2).topic && HasData(One(2)) && RESUMED.generation == NEW_QUEUE.generation
  {
    hide Comes, Decided, Tightened, Passed, LoadFrom, CanDecide;
    assert STOP.payloads[1] == Terminal && One(2).payloads[0] == Data;
    ThreeAcquired();
    Admitting();
    OnePushed(START3, One(0), FIRST, One(0), AFTER1);
    Overflowing();
    OnePushed(AFTER1, One(1), SECOND, STOP, AFTER2);
    DrainStop();
    Readmitting();
    OnePushed(DRAINED, One(2), THIRD, One(2), RESUMED);
  }
}
