/**
 * The process event queue (api/process/queue.go): a generation-fenced queue over two buffers that Drain
 * swaps, with retention accounting at admission. Every method holds the queue's lock.
 */
module EventQueues {
  import opened Options
  import opened Retention

  datatype Body = Nobody | Blob(id: nat) | Discardable(id: nat) | Package(msgs: seq<Option<Message>>)

  /** Blank is the zero event that cleared slots hold. */
  datatype Event = Blank | Event(message: bool, tag: nat, body: Body)

  datatype Verdict = Rejected | Dropped | Admitted

  /**
   * The queue's value. `accepted` is the history of this generation's accepted events, `origins` the
   * generation each sender was bound to (none for the scheduler itself), `delivered` what Drain returned.
   */
  datatype Queue = Queue(
    pending: seq<Event>,
    generation: nat,
    closed: bool,
    books: Books,
    accepted: seq<Event>,
    origins: seq<Option<nat>>,
    delivered: seq<Event>)

  // ---------------------------------------------------------------- packages

  /** Admission of a package, message by message. */
  ghost function AdmitAll(b: Books, msgs: seq<Option<Message>>): (r: (Books, seq<Option<Message>>))
    requires BooksOk(b) && Known(b, msgs)
    ensures BooksOk(r.0) && |r.0.slots| >= |b.slots|
  {
    if msgs == [] then (b, [])
    else
      var n := |msgs| - 1;
      var (c, out) := AdmitAll(b, msgs[..n]);
      AdmitOneOk(c, out, msgs[n]);
      AdmitOne(c, out, msgs[n])
  }

  /** Every message of the package is an object the books know. */
  predicate Known(b: Books, msgs: seq<Option<Message>>) {
    forall i :: 0 <= i < |msgs| && msgs[i].Some? ==> msgs[i].value.id < |b.slots|
  }

  ghost function AdmitOne(b: Books, out: seq<Option<Message>>, msg: Option<Message>): (Books, seq<Option<Message>>)
    requires BooksOk(b) && Known(b, [msg])
  {
    if msg.None? then (b, out + [None])
    else
      assert [msg][0] == msg;
      TightenedOk(b, msg.value);
      var c, p := Tightened(b, msg.value), LoadFrom(b, msg.value);
      (Decided(c, p), out + Passed(c, p))
  }

  lemma AdmitOneOk(b: Books, out: seq<Option<Message>>, msg: Option<Message>)
    requires BooksOk(b) && Known(b, [msg])
    ensures BooksOk(AdmitOne(b, out, msg).0) && |AdmitOne(b, out, msg).0.slots| >= |b.slots|
  {
    hide BooksOk, Decided, Tightened, LoadFrom;
    if msg.Some? {
      assert [msg][0] == msg;
      BooksHaveTopics(b);
      TightenedOk(b, msg.value);
      DecidedOk(Tightened(b, msg.value), LoadFrom(b, msg.value));
    }
  }

  /** Without topics, unbounded messages pass unchanged: the shortcut and the full admission agree. */
  lemma {:induction false} UnboundedPasses(b: Books, msgs: seq<Option<Message>>)
    requires BooksOk(b) && Known(b, msgs) && b.topics == map[]
    requires forall i :: 0 <= i < |msgs| && msgs[i].Some? ==> !Bounded(msgs[i].value)
    ensures AdmitAll(b, msgs) == (b, msgs)
  {
    if msgs != [] {
      var n := |msgs| - 1;
      UnboundedPasses(b, msgs[..n]);
      assert msgs == msgs[..n] + [msgs[n]];
      hide BooksOk;
      if msgs[n].Some? {
        var m := msgs[n].value;
        assert m.(maxItems := m.maxItems, maxBytes := m.maxBytes, payloadBytes := m.payloadBytes) == m;
      }
    }
  }

  /** The steps of the ledger that admit a package, and what they pass on. */
  function Admissions(msgs: seq<Option<Message>>): seq<Step> {
    if msgs == [] then []
    else
      var n := |msgs| - 1;
      Admissions(msgs[..n]) + (if msgs[n].Some? then [Load(msgs[n].value), Decide] else [])
  }

  function Somes(msgs: seq<Option<Message>>): seq<Option<Message>> {
    if msgs == [] then []
    else
      var n := |msgs| - 1;
      Somes(msgs[..n]) + (if msgs[n].Some? then [msgs[n]] else [])
  }

  lemma {:induction false} SomesConcat(xs: seq<Option<Message>>, ys: seq<Option<Message>>)
    ensures Somes(xs + ys) == Somes(xs) + Somes(ys)
  {
    if ys == [] {
      assert xs + ys == xs;
    } else {
      var n := |ys| - 1;
      assert (xs + ys)[..|xs| + n] == xs + ys[..n];
      SomesConcat(xs, ys[..n]);
    }
  }

  lemma {:induction false} RunsConcat(k: Ledger, xs: seq<Step>, ys: seq<Step>)
    requires Runs(k, xs) && Runs(Exec(k, xs), ys)
    ensures Runs(k, xs + ys) && Exec(k, xs + ys) == Exec(Exec(k, xs), ys)
    decreases |xs|
  {
    hide Apply, CanStep;
    if xs == [] {
      assert xs + ys == ys;
    } else {
      assert (xs + ys)[0] == xs[0] && (xs + ys)[1..] == xs[1..] + ys;
      RunsConcat(Apply(k, xs[0]), xs[1..], ys);
    }
  }

  lemma RunsTwo(k: Ledger, a: Step, b: Step)
    requires CanStep(k, a) && CanStep(Apply(k, a), b)
    ensures Runs(k, [a, b]) && Exec(k, [a, b]) == Apply(Apply(k, a), b)
  {
    hide Apply, CanStep;
    var u := Apply(k, a);
    assert [a, b][1..] == [b] && [b][1..] == [];
    assert Runs(Apply(u, b), []) && Exec(Apply(u, b), []) == Apply(u, b);
    assert Runs(u, [b]) && Exec(u, [b]) == Apply(u, b);
  }

  /** Admitting a package is a run of the ledger, so what every run keeps holds of the queue. */
  lemma {:induction false} AdmissionIsRun(b: Books, msgs: seq<Option<Message>>, passed: seq<Option<Message>>)
    requires BooksOk(b) && Known(b, msgs)
    ensures Runs(Ledger(b, None, passed), Admissions(msgs))
    ensures Exec(Ledger(b, None, passed), Admissions(msgs)) == Ledger(AdmitAll(b, msgs).0, None, passed + Somes(AdmitAll(b, msgs).1))
  {
    var k := Ledger(b, None, passed);
    if msgs != [] {
      var n := |msgs| - 1;
      AdmissionIsRun(b, msgs[..n], passed);
      var (c, out) := AdmitAll(b, msgs[..n]);
      var u := Ledger(c, None, passed + Somes(out));
      OneAdmission(u, out, msgs[n], passed);
      RunsConcat(k, Admissions(msgs[..n]), if msgs[n].Some? then [Load(msgs[n].value), Decide] else []);
    } else {
      assert passed + Somes([]) == passed;
    }
  }

  lemma OneAdmission(u: Ledger, out: seq<Option<Message>>, msg: Option<Message>, passed: seq<Option<Message>>)
    requires BooksOk(u.books) && Known(u.books, [msg]) && u.loaded.None? && u.passed == passed + Somes(out)
    ensures var steps := if msg.Some? then [Load(msg.value), Decide] else [];
      && Runs(u, steps)
      && Exec(u, steps) == Ledger(AdmitOne(u.books, out, msg).0, None, passed + Somes(AdmitOne(u.books, out, msg).1))
  {
    hide Decided, Tightened, BooksOk, LoadFrom, Passed;
    if msg.None? {
      SomesConcat(out, [None]);
      assert Somes([None]) == [] && Somes(out) + [] == Somes(out);
    } else {
      var m := msg.value;
      assert [msg][0] == msg;
      assert TopicsOk(u.books) by { BooksHaveTopics(u.books); }
      TightenedOk(u.books, m);
      var c, p := Tightened(u.books, m), LoadFrom(u.books, m);
      RunsTwo(u, Load(m), Decide);
      SomesConcat(out, Passed(c, p));
      PassedSomes(c, p);
      hide Runs, Exec;
      assert (passed + Somes(out)) + Passed(c, p) == passed + (Somes(out) + Passed(c, p));
    }
  }

  lemma BooksHaveTopics(b: Books)
    requires BooksOk(b)
    ensures TopicsOk(b) && LeasesOk(b)
  {
  }

  lemma PassedSomes(b: Books, p: Loaded)
    requires CanDecide(b, p)
    ensures Somes(Passed(b, p)) == Passed(b, p)
  {
    if Passed(b, p) != [] { assert Passed(b, p)[..0] == []; }
  }

  // ---------------------------------------------------------------- retiring and discarding

  /** Topics whose terminal the package carries. */
  function Ended(msgs: seq<Option<Message>>): set<Topic> {
    if msgs == [] then {}
    else
      var n := |msgs| - 1;
      Ended(msgs[..n]) + (if msgs[n].Some? && HasTerminal(msgs[n].value) then {msgs[n].value.topic} else {})
  }

  function EndedBy(e: Event): set<Topic> {
    if e.Event? && e.message && e.body.Package? then Ended(e.body.msgs) else {}
  }

  function Retired(topics: map<Topic, nat>, events: seq<Event>): map<Topic, nat> {
    if events == [] then topics
    else Retired(topics, events[..|events| - 1]) - EndedBy(events[|events| - 1])
  }

  lemma {:induction false} EndedIff(msgs: seq<Option<Message>>, t: Topic)
    ensures t in Ended(msgs) <==> exists i :: 0 <= i < |msgs| && msgs[i].Some? && HasTerminal(msgs[i].value) && msgs[i].value.topic == t
  {
    if msgs != [] {
      var n := |msgs| - 1;
      EndedIff(msgs[..n], t);
      forall i | 0 <= i < n ensures msgs[..n][i] == msgs[i] {}
    }
  }

  /** Draining retires exactly the topics whose terminal is in the batch. */
  lemma {:induction false} RetiredIff(topics: map<Topic, nat>, events: seq<Event>, t: Topic)
    ensures t in Retired(topics, events) <==> t in topics && forall i :: 0 <= i < |events| ==> t !in EndedBy(events[i])
    ensures t in Retired(topics, events) ==> Retired(topics, events)[t] == topics[t]
  {
    if events != [] {
      RetiredIff(topics, events[..|events| - 1], t);
      hide EndedBy;
    }
  }

  /** What discarding an undelivered event does to the books. */
  function DiscardOne(b: Books, e: Event): (c: Books)
    requires LeasesOk(b)
    ensures LeasesOk(c)
  {
    var r := b.(topics := b.topics - EndedBy(e));
    if e.Event? && e.message && e.body.Package? then ReleasePackage(r, e.body.msgs) else r
  }

  function Discarded(b: Books, events: seq<Event>): (c: Books)
    requires LeasesOk(b)
    ensures LeasesOk(c)
  {
    if events == [] then b else DiscardOne(Discarded(b, events[..|events| - 1]), events[|events| - 1])
  }

  lemma {:induction false} ReleasePackageOk(b: Books, msgs: seq<Option<Message>>)
    requires BooksOk(b)
    ensures BooksOk(ReleasePackage(b, msgs))
  {
    if msgs != [] {
      var n := |msgs| - 1;
      ReleasePackageOk(b, msgs[..n]);
      hide BooksOk;
      if msgs[n].Some? { ReleaseMessageOk(ReleasePackage(b, msgs[..n]), msgs[n].value.id); }
    }
  }

  lemma {:induction false} DiscardedOk(b: Books, events: seq<Event>)
    requires BooksOk(b)
    ensures BooksOk(Discarded(b, events))
  {
    if events != [] {
      var e := events[|events| - 1];
      DiscardedOk(b, events[..|events| - 1]);
      DiscardOneOk(Discarded(b, events[..|events| - 1]), e);
    }
  }

  lemma DiscardOneOk(b: Books, e: Event)
    requires BooksOk(b)
    ensures BooksOk(DiscardOne(b, e))
  {
    var r := b.(topics := b.topics - EndedBy(e));
    SameStates(b, r);
    hide BooksOk;
    if e.Event? && e.message && e.body.Package? { ReleasePackageOk(r, e.body.msgs); }
  }

  // ---------------------------------------------------------------- the queue's operations

  predicate Open(q: Queue, gen: nat) {
    q.generation == gen && !q.closed
  }

  /** The admission policy sees messages only; it may refuse one or replace its data. */
  function Offered(admission: Option<Event -> Option<Event>>, e: Event): Option<Event> {
    if admission.None? || !e.Event? || !e.message then Some(e) else admission.value(e)
  }

  function Accept(q: Queue, e: Event, origin: Option<nat>): Queue {
    q.(pending := q.pending + [e], accepted := q.accepted + [e], origins := q.origins + [origin])
  }

  function Pushed(q: Queue, admission: Option<Event -> Option<Event>>, e: Event, gen: nat): Queue {
    if Open(q, gen) && Offered(admission, e).Some? then Accept(q, Offered(admission, e).value, Some(gen)) else q
  }

  predicate IsPackage(e: Event) {
    e.Event? && e.body.Package?
  }

  /** The event with its package as admission left it. */
  ghost function Compacted(b: Books, e: Event): Event
    requires IsPackage(e) && BooksOk(b) && Known(b, e.body.msgs)
  {
    e.(body := Package(AdmitAll(b, e.body.msgs).1))
  }

  /** What an admitted message event is queued as: a package is compacted, anything else stays what the policy made it. */
  ghost function Entered(b: Books, admission: Option<Event -> Option<Event>>, e: Event): Event
    requires BooksOk(b) && Offered(admission, e).Some?
    requires IsPackage(Offered(admission, e).value) ==> Known(b, Offered(admission, e).value.body.msgs)
  {
    var o := Offered(admission, e).value;
    if e.Event? && e.message && IsPackage(o) then Compacted(b, o) else o
  }

  ghost function MessagePushed(q: Queue, admission: Option<Event -> Option<Event>>, e: Event, gen: nat): (Queue, Verdict)
    requires BooksOk(q.books)
    requires Offered(admission, e).Some? && IsPackage(Offered(admission, e).value) ==> Known(q.books, Offered(admission, e).value.body.msgs)
  {
    if !Open(q, gen) || Offered(admission, e).None? then (q, Rejected)
    else
      var o := Offered(admission, e).value;
      if !e.Event? || !e.message || !IsPackage(o) then (Accept(q, o, Some(gen)), Admitted)
      else
        var c := AdmitAll(q.books, o.body.msgs).0;
        if o.body.msgs != [] && Compacted(q.books, o).body.msgs == [] then (q.(books := c), Dropped)
        else (Accept(q.(books := c), Compacted(q.books, o), Some(gen)), Admitted)
  }

  function DrainedQueue(q: Queue): Queue {
    if q.pending == [] then q
    else q.(pending := [], delivered := q.delivered + q.pending, books := q.books.(topics := Retired(q.books.topics, q.pending)))
  }

  function ClosedQueue(q: Queue): Queue
    requires LeasesOk(q.books)
  {
    q.(closed := true, pending := [], books := Discarded(q.books, q.pending).(topics := map[]))
  }

  function ResetQueue(q: Queue): Queue
    requires LeasesOk(q.books)
  {
    Queue([], q.generation + 1, false, Discarded(q.books, q.pending).(topics := map[]), [], [], [])
  }

  /**
   * What every operation keeps: within a generation the drained batches, concatenated, followed by what
   * is pending are the accepted events in order, until Close discards the rest; and no accepted event
   * came from a sender bound to another generation.
   */
  ghost predicate InOrder(q: Queue) {
    && (if q.closed then q.pending == [] && q.delivered <= q.accepted else q.delivered + q.pending == q.accepted)
    && |q.origins| == |q.accepted|
    && (forall i :: 0 <= i < |q.origins| && q.origins[i].Some? ==> q.origins[i].value == q.generation)
  }

  /**
   * One operation on the queue, as its lock serialises them, or on the messages it hands over: acquiring
   * a message, taking its lease, releasing a taken lease, releasing a package.
   */
  datatype Op =
    | PushOp(admission: Option<Event -> Option<Event>>, e: Event, gen: nat)
    | MessageOp(admission: Option<Event -> Option<Event>>, e: Event, gen: nat)
    | DirectOp(e: Event)
    | DrainOp
    | CloseOp
    | ResetOp
    | AcquireOp
    | TakeOp(id: nat)
    | ReleaseOp(l: nat)
    | PackageOp(msgs: seq<Option<Message>>)

  ghost predicate Allowed(q: Queue, op: Op) {
    && BooksOk(q.books)
    && (op.MessageOp? && Offered(op.admission, op.e).Some? && IsPackage(Offered(op.admission, op.e).value) ==>
          Known(q.books, Offered(op.admission, op.e).value.body.msgs))
    && (op.ReleaseOp? ==> op.l < |q.books.leases| && q.books.leases[op.l].taken)
  }

  /** PushDirect: it owns what it is given, so a closed queue releases the package. */
  function DirectPushed(q: Queue, e: Event): Queue
    requires LeasesOk(q.books)
  {
    if !q.closed then Accept(q, e, None)
    else if IsPackage(e) && e.message then q.(books := ReleasePackage(q.books, e.body.msgs))
    else q
  }

  function Acquired(b: Books): Books {
    b.(slots := b.slots + [None])
  }

  ghost function Done(q: Queue, op: Op): Queue
    requires Allowed(q, op)
  {
    match op
    case PushOp(a, e, gen) => Pushed(q, a, e, gen)
    case MessageOp(a, e, gen) => MessagePushed(q, a, e, gen).0
    case DirectOp(e) => DirectPushed(q, e)
    case DrainOp => DrainedQueue(q)
    case CloseOp => ClosedQueue(q)
    case ResetOp => ResetQueue(q)
    case AcquireOp => q.(books := Acquired(q.books))
    case TakeOp(id) => q.(books := TakeLease(q.books, id))
    case ReleaseOp(l) => q.(books := ReleaseLease(q.books, l))
    case PackageOp(msgs) => q.(books := ReleasePackage(q.books, msgs))
  }

  lemma OpKeeps(q: Queue, op: Op)
    requires InOrder(q) && Allowed(q, op)
    ensures InOrder(Done(q, op)) && BooksOk(Done(q, op).books)
  {
    hide BooksOk, AdmitAll, Discarded, Retired, ReleasePackage, TakeLease, ReleaseLease, Acquired;
    OpBooks(q, op);
    assert !q.closed ==> q.delivered <= q.accepted;
  }

  lemma OpBooks(q: Queue, op: Op)
    requires Allowed(q, op)
    ensures BooksOk(Done(q, op).books)
  {
    hide BooksOk, AdmitAll, Discarded, Retired, ReleasePackage, TakeLease, ReleaseLease, Acquired, Offered;
    match op {
      case PushOp(_, _, _) =>
      case MessageOp(_, _, _) =>
      case DirectOp(e) => if IsPackage(e) { ReleasePackageOk(q.books, e.body.msgs); }
      case DrainOp => DrainOk(q);
      case CloseOp => ClearOk(q);
      case ResetOp => ClearOk(q);
      case AcquireOp => AcquiredOk(q.books);
      case TakeOp(id) => TakeLeaseOk(q.books, id);
      case ReleaseOp(l) => TakenReleaseOk(q.books, l);
      case PackageOp(msgs) => ReleasePackageOk(q.books, msgs);
    }
  }

  lemma AcquiredOk(b: Books)
    requires BooksOk(b)
    ensures BooksOk(Acquired(b))
  {
    SameStates(b, Acquired(b));
  }

  /** A taken lease is no message's any more. */
  lemma TakenReleaseOk(b: Books, l: nat)
    requires BooksOk(b) && l < |b.leases| && b.leases[l].taken
    ensures BooksOk(ReleaseLease(b, l))
  {
    hide StateOk;
    ReleaseLeaseOk(b, l);
  }

  lemma DrainOk(q: Queue)
    requires BooksOk(q.books)
    ensures BooksOk(DrainedQueue(q).books)
  {
    forall t | t in Retired(q.books.topics, q.pending) ensures t in q.books.topics && Retired(q.books.topics, q.pending)[t] == q.books.topics[t] {
      RetiredIff(q.books.topics, q.pending, t);
    }
    SameStates(q.books, DrainedQueue(q).books);
  }

  lemma ClearOk(q: Queue)
    requires BooksOk(q.books)
    ensures BooksOk(Discarded(q.books, q.pending).(topics := map[]))
  {
    DiscardedOk(q.books, q.pending);
    var c := Discarded(q.books, q.pending);
    SameStates(c, c.(topics := map[]));
  }

  ghost predicate OpsAllowed(q: Queue, ops: seq<Op>)
    decreases |ops|
  {
    ops != [] ==> Allowed(q, ops[0]) && OpsAllowed(Done(q, ops[0]), ops[1..])
  }

  ghost function DoneAll(q: Queue, ops: seq<Op>): Queue
    requires OpsAllowed(q, ops)
    decreases |ops|
  {
    if ops == [] then q else DoneAll(Done(q, ops[0]), ops[1..])
  }

  const NEW_QUEUE: Queue := Queue([], 1, false, EMPTY_BOOKS, [], [], [])

  lemma {:induction false} OpsKeep(q: Queue, ops: seq<Op>)
    requires InOrder(q) && OpsAllowed(q, ops)
    ensures InOrder(DoneAll(q, ops)) && DoneAll(q, ops).generation >= q.generation
    ensures (exists i :: 0 <= i < |ops| && ops[i] == ResetOp) ==> DoneAll(q, ops).generation > q.generation
    decreases |ops|
  {
    if ops != [] {
      OpKeeps(q, ops[0]);
      GenerationGrows(q, ops[0]);
      hide InOrder, Done, Allowed;
      OpsKeep(Done(q, ops[0]), ops[1..]);
      if exists i :: 0 < i < |ops| && ops[i] == ResetOp {
        var i :| 0 < i < |ops| && ops[i] == ResetOp;
        assert ops[1..][i - 1] == ResetOp;
      }
    }
  }

  lemma GenerationGrows(q: Queue, op: Op)
    requires Allowed(q, op)
    ensures Done(q, op).generation == if op.ResetOp? then q.generation + 1 else q.generation
  {
    hide BooksOk, AdmitAll;
  }

  /** Over every run, the batches drained in a generation are a prefix, in order, of what it accepted. */
  lemma DrainsArePrefix(ops: seq<Op>)
    requires OpsAllowed(NEW_QUEUE, ops)
    ensures var q := DoneAll(NEW_QUEUE, ops);
      && q.delivered <= q.accepted
      && (!q.closed ==> q.delivered + q.pending == q.accepted)
  {
    OpsKeep(NEW_QUEUE, ops);
  }

  /** After a Reset no sender bound before it gets anything in, and nothing it sent is in the queue. */
  lemma StaleSendersShutOut(before: seq<Op>, after: seq<Op>, admission: Option<Event -> Option<Event>>, e: Event)
    requires OpsAllowed(NEW_QUEUE, before) && OpsAllowed(DoneAll(NEW_QUEUE, before), after)
    requires exists i :: 0 <= i < |after| && after[i] == ResetOp
    ensures var gen, q := DoneAll(NEW_QUEUE, before).generation, DoneAll(DoneAll(NEW_QUEUE, before), after);
      && Pushed(q, admission, e, gen) == q
      && Some(gen) !in q.origins && |q.origins| == |q.accepted|
      && (Allowed(q, MessageOp(admission, e, gen)) ==> MessagePushed(q, admission, e, gen) == (q, Rejected))
  {
    OpsKeep(NEW_QUEUE, before);
    OpsKeep(DoneAll(NEW_QUEUE, before), after);
    hide OpsAllowed, DoneAll, AdmitAll, BooksOk;
  }

  /** The queue as a process holds it: two buffers, of which the consumer has the drained one on loan. */
  class EventQueue {
    var events: array<Event>
    var count: nat
    var drainBuf: array<Event>
    var taken: nat
    var generation: nat
    var closed: bool
    var admission: Option<Event -> Option<Event>>
    var books: Books

    ghost var accepted: seq<Event>
    ghost var origins: seq<Option<nat>>
    ghost var delivered: seq<Event>
    /** The buffer the last Drain returned. */
    ghost var loan: array<Event>

    ghost predicate Shape()
      reads this
    {
      count <= events.Length && taken <= drainBuf.Length && events != drainBuf && events != loan
    }

    ghost function View(): Queue
      reads this, events
      requires count <= events.Length
    {
      Queue(events[..count], generation, closed, books, accepted, origins, delivered)
    }

    ghost predicate Valid()
      reads this, events
    {
      Shape() && BooksOk(books) && InOrder(View())
    }

    constructor ()
      ensures Valid() && View() == Queue([], 1, false, EMPTY_BOOKS, [], [], []) && admission.None?
    {
      events := new Event[16](_ => Blank);
      drainBuf := new Event[16](_ => Blank);
      count, taken, generation, closed, admission, books := 0, 0, 1, false, None, EMPTY_BOOKS;
      accepted, origins, delivered := [], [], [];
      new;
      loan := drainBuf;
    }

    /** append: in place while there is room, otherwise into a larger buffer. */
    method Append(e: Event, ghost origin: Option<nat>)
      requires Shape()
      modifies `events, `count, `accepted, `origins, events
      ensures Shape() && View() == Accept(old(View()), e, origin)
      ensures events == old(events) || fresh(events)
      ensures loan[..] == old(loan[..])
    {
      ghost var before := events[..count];
      if count == events.Length {
        var grown := new Event[2 * count + 16](_ => Blank);
        forall i | 0 <= i < count { grown[i] := events[i]; }
        assert grown[..count] == before;
        events := grown;
      }
      events[count] := e;
      count := count + 1;
      accepted, origins := accepted + [e], origins + [origin];
      assert events[..count] == before + [e];
    }

    method Push(e: Event, gen: nat) returns (ok: bool)
      requires Valid()
      modifies `events, `count, `accepted, `origins, events
      ensures Valid() && View() == Pushed(old(View()), admission, e, gen)
      ensures ok <==> Open(old(View()), gen) && Offered(admission, e).Some?
      ensures ok ==> View().pending == old(View()).pending + [Offered(admission, e).value]
      ensures ok ==> View().accepted == old(View()).accepted + [Offered(admission, e).value]
      ensures !ok ==> View() == old(View())
      ensures loan[..] == old(loan[..])
    {
      if generation != gen || closed { return false; }
      var o := Offered(admission, e);
      if o.None? { return false; }
      OpKeeps(View(), PushOp(admission, e, gen));
      Append(o.value, Some(gen));
      ok := true;
    }

    method PushDirect(e: Event) returns (ok: bool)
      requires Valid()
      modifies `events, `count, `accepted, `origins, `books, events
      ensures Valid() && ok == !old(closed) && View() == DirectPushed(old(View()), e)
      ensures ok ==> View().pending == old(View()).pending + [e] && View().accepted == old(View()).accepted + [e] && books == old(books)
      ensures !ok ==> View() == old(View()).(books := books)
      ensures loan[..] == old(loan[..])
    {
      if closed {
        if e.Event? && e.message && e.body.Package? {
          ReleasePackageOk(books, e.body.msgs);
          ReleaseAll(e.body.msgs);
        }
        return false;
      }
      OpKeeps(View(), DirectOp(e));
      Append(e, None);
      ok := true;
    }

    method PushMessage(e: Event, gen: nat) returns (verdict: Verdict)
      requires Valid() && Allowed(View(), MessageOp(admission, e, gen))
      modifies `events, `count, `accepted, `origins, `books, events
      ensures Valid() && (View(), verdict) == MessagePushed(old(View()), admission, e, gen)
      ensures verdict == Rejected <==> !Open(old(View()), gen) || Offered(admission, e).None?
      ensures verdict == Rejected ==> View() == old(View())
      ensures verdict == Dropped ==> View() == old(View()).(books := books)
      ensures verdict == Dropped <==>
        && Open(old(View()), gen) && Offered(admission, e).Some? && e.Event? && e.message && IsPackage(Offered(admission, e).value)
        && Offered(admission, e).value.body.msgs != [] && Entered(old(books), admission, e).body.msgs == []
      ensures verdict == Admitted ==>
        && View().pending == old(View()).pending + [Entered(old(books), admission, e)]
        && View().accepted == old(View()).accepted + [Entered(old(books), admission, e)]
      ensures loan[..] == old(loan[..])
    {
      hide BooksOk, InOrder, AdmitAll;
      OpKeeps(View(), MessageOp(admission, e, gen));
      if generation != gen || closed { return Rejected; }
      var o := Offered(admission, e);
      if o.None? { return Rejected; }
      if !e.Event? || !e.message || !o.value.Event? || !o.value.body.Package? {
        Append(o.value, Some(gen));
        return Admitted;
      }
      var kept, out := AdmitPackage(o.value.body.msgs);
      if !kept { return Dropped; }
      Append(o.value.(body := Package(out)), Some(gen));
      verdict := Admitted;
    }

    /** admitPackageLocked: whether anything of the package remains, and what. */
    method AdmitPackage(msgs: seq<Option<Message>>) returns (kept: bool, out: seq<Option<Message>>)
      requires BooksOk(books) && Known(books, msgs)
      modifies `books
      ensures (books, out) == AdmitAll(old(books), msgs)
      ensures kept <==> msgs == [] || out != []
    {
      if |msgs| == 0 { return true, []; }
      if |books.topics| == 0 {
        var bounded := AnyBounded(msgs);
        if !bounded {
          UnboundedPasses(books, msgs);
          return true, msgs;
        }
      }
      out := [];
      for i := 0 to |msgs|
        invariant BooksOk(books) && |books.slots| >= |old(books).slots|
        invariant (books, out) == AdmitAll(old(books), msgs[..i])
      {
        assert msgs[..i + 1][..i] == msgs[..i];
        assert Known(books, [msgs[i]]);
        out := AdmitMessage(msgs[i], out);
      }
      assert msgs[..|msgs|] == msgs;
      kept := |out| > 0;
    }

    method AdmitMessage(msg: Option<Message>, out: seq<Option<Message>>) returns (next: seq<Option<Message>>)
      requires BooksOk(books) && Known(books, [msg])
      modifies `books
      ensures (books, next) == AdmitOne(old(books), out, msg)
      ensures BooksOk(books) && |books.slots| >= |old(books).slots|
    {
      AdmitOneOk(books, out, msg);
      if msg.None? { return out + [None]; }
      assert [msg][0] == msg;
      BooksHaveTopics(books);
      TightenedOk(books, msg.value);
      var p := LoadFrom(books, msg.value);
      books := Tightened(books, msg.value);
      next := out + Passed(books, p);
      books := Decided(books, p);
    }

    static method AnyBounded(msgs: seq<Option<Message>>) returns (bounded: bool)
      ensures bounded <==> exists i :: 0 <= i < |msgs| && msgs[i].Some? && Bounded(msgs[i].value)
    {
      for i := 0 to |msgs|
        invariant forall j :: 0 <= j < i && msgs[j].Some? ==> !Bounded(msgs[j].value)
      {
        if msgs[i].Some? && (msgs[i].value.maxItems > 0 || msgs[i].value.maxBytes > 0) { return true; }
      }
      bounded := false;
    }

    /** ReleasePackage: the leases of messages nobody consumed. */
    method ReleaseAll(msgs: seq<Option<Message>>)
      requires LeasesOk(books)
      modifies `books
      ensures books == ReleasePackage(old(books), msgs)
    {
      for i := 0 to |msgs|
        invariant LeasesOk(books) && books == ReleasePackage(old(books), msgs[..i])
      {
        assert msgs[..i + 1][..i] == msgs[..i];
        if msgs[i].Some? { books := ReleaseMessage(books, msgs[i].value.id); }
      }
      assert msgs[..|msgs|] == msgs;
    }

    /**
     * AcquireMessage: a message object without a lease, either new or one that the pool has back. Releasing
     * a message clears its lease, so a pooled one has none.
     */
    method AcquireMessage(pooled: Option<nat>) returns (id: nat)
      requires Valid() && (pooled.Some? ==> pooled.value < |books.slots| && books.slots[pooled.value].None?)
      modifies `books
      ensures Valid() && id < |books.slots| && books.slots[id].None?
      ensures pooled.Some? ==> View() == old(View()) && id == pooled.value
      ensures pooled.None? ==> View() == Done(old(View()), AcquireOp) && id == |old(books).slots|
    {
      if pooled.Some? { return pooled.value; }
      OpKeeps(View(), AcquireOp);
      id := |books.slots|;
      books := Acquired(books);
    }

    /** TakeRetentionLease: the consumer of a message receives its lease, once. */
    method TakeRetentionLease(id: nat) returns (lease: Option<nat>)
      requires Valid()
      modifies `books
      ensures Valid() && View() == Done(old(View()), TakeOp(id)) && lease == Slot(old(books), id)
      ensures lease.Some? ==> lease.value < |books.leases| && books.leases[lease.value].taken && !books.leases[lease.value].released
    {
      OpKeeps(View(), TakeOp(id));
      lease := Slot(books, id);
      if lease.Some? { TakenOnce(books, id); }
      hide BooksOk;
      books := TakeLease(books, id);
    }

    /** Release of a taken lease. */
    method ReleaseTaken(l: nat)
      requires Valid() && l < |books.leases| && books.leases[l].taken
      modifies `books
      ensures Valid() && View() == Done(old(View()), ReleaseOp(l)) && l < |books.leases| && books.leases[l].released
    {
      OpKeeps(View(), ReleaseOp(l));
      books := ReleaseLease(books, l);
    }

    /** ReleasePackage, of a package that was handed over, dropped or rejected. */
    method ReleaseHandedOver(msgs: seq<Option<Message>>)
      requires Valid()
      modifies `books
      ensures Valid() && View() == Done(old(View()), PackageOp(msgs))
    {
      OpKeeps(View(), PackageOp(msgs));
      ReleaseAll(msgs);
    }

    /** retireEventTopicsLocked: a topic is retired when its terminal leaves the queue. */
    method RetireTopics(e: Event)
      modifies `books
      ensures books == old(books).(topics := old(books).topics - EndedBy(e))
    {
      if !e.Event? || !e.message || !e.body.Package? { return; }
      var msgs := e.body.msgs;
      for i := 0 to |msgs|
        invariant books == old(books).(topics := old(books).topics - Ended(msgs[..i]))
      {
        assert msgs[..i + 1][..i] == msgs[..i];
        if msgs[i].Some? && Terminal in msgs[i].value.payloads {
          books := books.(topics := books.topics - {msgs[i].value.topic});
        }
      }
      assert msgs[..|msgs|] == msgs;
    }

    method RetirePending()
      requires Shape()
      modifies `books
      ensures books == old(books).(topics := Retired(old(books).topics, events[..count]))
    {
      ghost var pending := events[..count];
      for i := 0 to count
        invariant books == old(books).(topics := Retired(old(books).topics, pending[..i]))
      {
        assert pending[..i + 1][..i] == pending[..i];
        RetireTopics(events[i]);
      }
      assert pending[..count] == pending;
    }

    /** The previous batch is consumed by now; the queue lets go of what it held. */
    method ClearDrained()
      requires Shape()
      modifies `taken, drainBuf
      ensures taken == 0
    {
      for i := 0 to taken
        modifies drainBuf
      {
        drainBuf[i] := Blank;
      }
      taken := 0;
    }

    /** Drain: the pending events, lent to the consumer until its next Drain. */
    method Drain() returns (batch: array<Event>, n: nat)
      requires Valid()
      modifies this, drainBuf
      ensures Valid() && View() == DrainedQueue(old(View()))
      ensures n <= batch.Length && batch[..n] == old(events[..count])
      ensures delivered == old(delivered) + batch[..n] && count == 0
      ensures n > 0 ==> batch == loan
    {
      hide BooksOk, InOrder, Retired;
      ghost var was := View();
      OpKeeps(was, DrainOp);
      ClearDrained();
      if count == 0 {
        batch := new Event[0];
        n := 0;
        return;
      }
      RetirePending();
      delivered := delivered + events[..count];
      drainBuf, events := events, drainBuf;
      taken, count := count, 0;
      loan := drainBuf;
      batch, n := drainBuf, taken;
      assert View() == DrainedQueue(was);
    }

    /** discardPending: undelivered events give back what they hold, and their slots are cleared. */
    method DiscardPending()
      requires Shape() && BooksOk(books)
      modifies `books, events
      ensures books == Discarded(old(books), old(events[..count]))
      ensures loan[..] == old(loan[..])
    {
      ghost var pending := events[..count];
      for i := 0 to count
        invariant LeasesOk(books) && books == Discarded(old(books), pending[..i])
        invariant forall j :: i <= j < count ==> events[j] == pending[j]
      {
        assert pending[..i + 1][..i] == pending[..i];
        var e := events[i];
        RetireTopics(e);
        if e.Event? && e.message && e.body.Package? { ReleaseAll(e.body.msgs); }
        events[i] := Blank;
      }
      assert pending[..count] == pending;
    }

    /** What Close and Reset share: the batch on loan is only let go of, never written. */
    method DropPending()
      requires Shape() && BooksOk(books)
      modifies `books, `count, `drainBuf, `taken, events
      ensures Shape() && count == 0
      ensures books == Discarded(old(books), old(events[..count])).(topics := map[])
      ensures loan[..] == old(loan[..])
    {
      DiscardPending();
      count := 0;
      books := books.(topics := map[]);
      drainBuf, taken := new Event[0], 0;
    }

    method Close()
      requires Valid()
      modifies this, events
      ensures Valid() && View() == ClosedQueue(old(View())) && closed && count == 0
      ensures loan == old(loan) && loan[..] == old(loan[..])
    {
      hide BooksOk, Discarded, InOrder, LeasesOk, TopicsOk;
      BooksHaveTopics(books);
      ghost var was := View();
      OpKeeps(was, CloseOp);
      closed := true;
      DropPending();
      assert View() == ClosedQueue(was);
    }

    method Reset()
      requires Valid()
      modifies this, events
      ensures Valid() && View() == ResetQueue(old(View())) && admission.None?
      ensures !closed && count == 0 && generation == old(generation) + 1
      ensures loan == old(loan) && loan[..] == old(loan[..])
    {
      hide BooksOk, Discarded, InOrder, LeasesOk, TopicsOk;
      BooksHaveTopics(books);
      ghost var was := View();
      OpKeeps(was, ResetOp);
      generation := generation + 1;
      DropPending();
      admission, closed := None, false;
      accepted, origins, delivered := [], [], [];
      assert View() == ResetQueue(was);
    }
  }
}
