/**
 * What the event queue's operations do, over every run: what a generation has accepted is exactly what its
 * pushes reported as accepted, a closed queue takes nothing, and what is discarded gives its leases back.
 */
module QueueEffects {
  import opened Options
  import opened Retention
  import opened RetentionEffects
  import opened EventQueues

  // ---------------------------------------------------------------- accepted is what was reported

  /** An accepted event with the generation its sender was bound to. */
  datatype Receipt = Receipt(event: Event, origin: Option<nat>)

  /** What an operation reports as accepted: a true answer of Push or PushDirect, the verdict Admitted of PushMessage. */
  ghost function Reports(q: Queue, op: Op): seq<Receipt>
    requires Allowed(q, op)
  {
    match op
    case PushOp(a, e, gen) =>
      if Open(q, gen) && Offered(a, e).Some? then [Receipt(Offered(a, e).value, Some(gen))] else []
    case MessageOp(a, e, gen) =>
      if MessagePushed(q, a, e, gen).1 == Admitted then [Receipt(Entered(q.books, a, e), Some(gen))] else []
    case DirectOp(e) => if q.closed then [] else [Receipt(e, None)]
    case _ => []
  }

  /** The receipts of the current generation, after those in `told`. */
  ghost function Told(told: seq<Receipt>, q: Queue, ops: seq<Op>): seq<Receipt>
    requires OpsAllowed(q, ops)
    decreases |ops|
  {
    if ops == [] then told
    else Told(if ops[0].ResetOp? then [] else told + Reports(q, ops[0]), Done(q, ops[0]), ops[1..])
  }

  ghost predicate Matches(q: Queue, told: seq<Receipt>) {
    && |q.accepted| == |q.origins| == |told|
    && forall i :: 0 <= i < |told| ==> told[i] == Receipt(q.accepted[i], q.origins[i])
  }

  lemma OpMatches(q: Queue, op: Op, told: seq<Receipt>)
    requires Allowed(q, op) && Matches(q, told)
    ensures Matches(Done(q, op), if op.ResetOp? then [] else told + Reports(q, op))
  {
    hide BooksOk, AdmitAll, Discarded, Retired, ReleasePackage, TakeLease, ReleaseLease, Acquired, Known;
  }

  lemma {:induction false} RunMatches(q: Queue, ops: seq<Op>, told: seq<Receipt>)
    requires OpsAllowed(q, ops) && Matches(q, told)
    ensures Matches(DoneAll(q, ops), Told(told, q, ops))
    decreases |ops|
  {
    hide Allowed, Done, Reports, Matches;
    if ops != [] {
      OpMatches(q, ops[0], told);
      RunMatches(Done(q, ops[0]), ops[1..], if ops[0].ResetOp? then [] else told + Reports(q, ops[0]));
    }
  }

  function Events(told: seq<Receipt>): seq<Event> {
    seq(|told|, i requires 0 <= i < |told| => told[i].event)
  }

  /**
   * Over every run the accepted events of the generation are those its pushes reported, in order. While the
   * queue is open they are what was drained followed by what is pending; once it is closed nothing is
   * pending and what was drained is a prefix.
   */
  lemma AcceptedIsReported(ops: seq<Op>)
    requires OpsAllowed(NEW_QUEUE, ops)
    ensures var q, told := DoneAll(NEW_QUEUE, ops), Told([], NEW_QUEUE, ops);
      && q.accepted == Events(told)
      && (!q.closed ==> q.delivered + q.pending == Events(told))
      && (q.closed ==> q.pending == [] && q.delivered <= Events(told))
      && |q.origins| == |told| && forall i :: 0 <= i < |told| ==> q.origins[i] == told[i].origin
  {
    RunMatches(NEW_QUEUE, ops, []);
    OpsKeep(NEW_QUEUE, ops);
    hide OpsAllowed, DoneAll, Told;
  }

  function Nils(msgs: seq<Option<Message>>): nat {
    if msgs == [] then 0 else Nils(msgs[..|msgs| - 1]) + if msgs[|msgs| - 1].None? then 1 else 0
  }

  lemma {:induction false} NilsConcat(xs: seq<Option<Message>>, ys: seq<Option<Message>>)
    ensures Nils(xs + ys) == Nils(xs) + Nils(ys)
  {
    if ys == [] {
      assert xs + ys == xs;
    } else {
      var n := |ys| - 1;
      assert (xs + ys)[..|xs| + n] == xs + ys[..n];
      NilsConcat(xs, ys[..n]);
    }
  }

  lemma NilStays(b: Books, out: seq<Option<Message>>, msg: Option<Message>)
    requires BooksOk(b) && Known(b, [msg])
    ensures Nils(AdmitOne(b, out, msg).1) == Nils(out) + if msg.None? then 1 else 0
  {
    hide BooksOk, Tightened, LoadFrom, Overflowed, HasData, Full, TerminalFor;
    var more: seq<Option<Message>> := [None];
    if msg.Some? {
      assert [msg][0] == msg;
      BooksHaveTopics(b);
      TightenedOk(b, msg.value);
      more := Passed(Tightened(b, msg.value), LoadFrom(b, msg.value));
    }
    assert more[..0] == [];
    NilsConcat(out, more);
  }

  /** Compacting a package only ever takes messages out: its empty entries stay. */
  lemma {:induction false} NilsStay(b: Books, msgs: seq<Option<Message>>)
    requires BooksOk(b) && Known(b, msgs)
    ensures Nils(AdmitAll(b, msgs).1) == Nils(msgs)
  {
    hide BooksOk, AdmitOne;
    if msgs != [] {
      var n := |msgs| - 1;
      NilsStay(b, msgs[..n]);
      var (c, out) := AdmitAll(b, msgs[..n]);
      NilStays(c, out, msgs[n]);
    }
  }

  // ---------------------------------------------------------------- a closed queue

  lemma StaysClosed(q: Queue, op: Op)
    requires Allowed(q, op) && op != ResetOp && q.closed
    ensures Done(q, op).closed && Reports(q, op) == []
  {
    hide BooksOk, AdmitAll, Discarded, Retired, ReleasePackage, TakeLease, ReleaseLease, Acquired, Known;
  }

  /** From Close to the next Reset the queue stays closed and no push is accepted. */
  lemma {:induction false} ClosedTakesNothing(q: Queue, ops: seq<Op>, told: seq<Receipt>)
    requires Allowed(q, CloseOp) && OpsAllowed(Done(q, CloseOp), ops) && ResetOp !in ops
    ensures DoneAll(Done(q, CloseOp), ops).closed && Told(told, Done(q, CloseOp), ops) == told
  {
    ClosedRun(Done(q, CloseOp), ops, told);
  }

  lemma {:induction false} ClosedRun(q: Queue, ops: seq<Op>, told: seq<Receipt>)
    requires q.closed && OpsAllowed(q, ops) && ResetOp !in ops
    ensures DoneAll(q, ops).closed && Told(told, q, ops) == told
    decreases |ops|
  {
    hide Allowed, Done, Reports;
    if ops != [] {
      StaysClosed(q, ops[0]);
      ClosedRun(Done(q, ops[0]), ops[1..], told);
      assert told + [] == told;
    }
  }

  // ---------------------------------------------------------------- what is given back

  /** The package holds the message object `id`. */
  ghost predicate Carries(msgs: seq<Option<Message>>, id: nat) {
    exists i :: 0 <= i < |msgs| && msgs[i].Some? && msgs[i].value.id == id
  }

  ghost predicate Waiting(events: seq<Event>, id: nat) {
    exists i :: 0 <= i < |events| && IsPackage(events[i]) && events[i].message && Carries(events[i].body.msgs, id)
  }

  /** The message has lost its lease, which is released; any other message has what it had. */
  ghost predicate GaveBack(b: Books, c: Books, id: nat, gone: bool) {
    && |c.slots| == |b.slots| && |c.leases| == |b.leases|
    && (!gone ==> Slot(c, id) == Slot(b, id))
    && (gone ==> Slot(c, id).None? && (Slot(b, id).Some? ==> Slot(b, id).value < |c.leases| && c.leases[Slot(b, id).value].released))
  }

  /** A released lease stays released. */
  ghost predicate KeepsReleased(b: Books, c: Books) {
    && |c.leases| == |b.leases|
    && forall l: nat :: l < |b.leases| && b.leases[l].released ==> c.leases[l].released
  }

  lemma GaveBackOn(b: Books, c: Books, d: Books, id: nat, first: bool, second: bool)
    requires GaveBack(b, c, id, first) && GaveBack(c, d, id, second) && KeepsReleased(c, d)
    ensures GaveBack(b, d, id, first || second)
  {
  }

  lemma MessageGaveBack(b: Books, m: nat, id: nat)
    requires BooksOk(b)
    ensures GaveBack(b, ReleaseMessage(b, m), id, m == id) && KeepsReleased(b, ReleaseMessage(b, m))
  {
    MessageGivesBack(b, m);
    hide BooksOk, ReleaseMessage;
  }

  /** Releasing a package releases the lease of every message it holds, and of no other. */
  lemma {:induction false} PackageGivesBack(b: Books, msgs: seq<Option<Message>>, id: nat)
    requires BooksOk(b)
    ensures GaveBack(b, ReleasePackage(b, msgs), id, Carries(msgs, id)) && KeepsReleased(b, ReleasePackage(b, msgs))
    ensures ReleasePackage(b, msgs).topics == b.topics
  {
    if msgs != [] {
      var n := |msgs| - 1;
      var c := ReleasePackage(b, msgs[..n]);
      PackageGivesBack(b, msgs[..n], id);
      CarriesLast(msgs, id);
      if msgs[n].Some? {
        ReleasePackageOk(b, msgs[..n]);
        MessageGaveBack(c, msgs[n].value.id, id);
        MessageGivesBack(c, msgs[n].value.id);
        hide BooksOk, ReleaseMessage, Carries;
        GaveBackOn(b, c, ReleasePackage(b, msgs), id, Carries(msgs[..n], id), msgs[n].value.id == id);
      }
    }
  }

  lemma CarriesLast(msgs: seq<Option<Message>>, id: nat)
    requires msgs != []
    ensures var n := |msgs| - 1; Carries(msgs, id) <==> Carries(msgs[..n], id) || (msgs[n].Some? && msgs[n].value.id == id)
  {
    var n := |msgs| - 1;
    forall i | 0 <= i < n ensures msgs[..n][i] == msgs[i] {}
  }

  lemma WaitingLast(events: seq<Event>, id: nat)
    requires events != []
    ensures var n := |events| - 1;
      Waiting(events, id) <==> Waiting(events[..n], id) || (IsPackage(events[n]) && events[n].message && Carries(events[n].body.msgs, id))
  {
    hide Carries;
    var n := |events| - 1;
    forall i | 0 <= i < n ensures events[..n][i] == events[i] {}
  }

  lemma DiscardGivesBack(b: Books, e: Event, id: nat)
    requires BooksOk(b)
    ensures GaveBack(b, DiscardOne(b, e), id, IsPackage(e) && e.message && Carries(e.body.msgs, id))
    ensures KeepsReleased(b, DiscardOne(b, e))
  {
    var r := b.(topics := b.topics - EndedBy(e));
    SameStates(b, r);
    hide BooksOk;
    if IsPackage(e) && e.message { PackageGivesBack(r, e.body.msgs, id); }
  }

  lemma {:induction false} DiscardedGivesBack(b: Books, events: seq<Event>, id: nat)
    requires BooksOk(b)
    ensures GaveBack(b, Discarded(b, events), id, Waiting(events, id)) && KeepsReleased(b, Discarded(b, events))
  {
    if events != [] {
      var n := |events| - 1;
      var c := Discarded(b, events[..n]);
      DiscardedGivesBack(b, events[..n], id);
      WaitingLast(events, id);
      DiscardedOk(b, events[..n]);
      DiscardGivesBack(c, events[n], id);
      hide BooksOk, DiscardOne, Waiting, Carries;
      GaveBackOn(b, c, Discarded(b, events), id, Waiting(events[..n], id), IsPackage(events[n]) && events[n].message && Carries(events[n].body.msgs, id));
    }
  }

  /**
   * Close and Reset leave nothing pending and no topic in force, and release the leases of exactly the
   * messages that were pending: a message already drained keeps its lease. Close closes, Reset reopens the
   * queue for the next generation with an empty history.
   */
  lemma ClearingGivesBack(q: Queue, op: Op, id: nat)
    requires Allowed(q, op) && (op == CloseOp || op == ResetOp)
    ensures var v := Done(q, op);
      && GaveBack(q.books, v.books, id, Waiting(q.pending, id)) && v.pending == [] && v.books.topics == map[]
      && (op == CloseOp ==> v.closed && v.generation == q.generation && v.accepted == q.accepted && v.delivered == q.delivered)
      && (op == ResetOp ==> !v.closed && v.generation == q.generation + 1 && v.accepted == [] && v.delivered == [])
  {
    DiscardedGivesBack(q.books, q.pending, id);
    BooksHaveTopics(q.books);
    hide BooksOk, Discarded, Waiting, LeasesOk, TopicsOk;
  }

  /** A drain hands the pending events over with their leases and retires only topics. */
  lemma DrainKeepsLeases(q: Queue)
    requires Allowed(q, DrainOp)
    ensures var v := Done(q, DrainOp);
      && v.pending == [] && v.delivered == q.delivered + q.pending && v.accepted == q.accepted
      && v.closed == q.closed && v.generation == q.generation && v.books == q.books.(topics := v.books.topics)
      && forall t :: t in v.books.topics <==> t in q.books.topics && forall i :: 0 <= i < |q.pending| ==> t !in EndedBy(q.pending[i])
  {
    forall t ensures t in Retired(q.books.topics, q.pending) <==> t in q.books.topics && forall i :: 0 <= i < |q.pending| ==> t !in EndedBy(q.pending[i]) {
      RetiredIff(q.books.topics, q.pending, t);
    }
    hide BooksOk, Retired, EndedBy;
  }

  /** A direct push refused by a closed queue releases its package's leases. */
  lemma RefusedDirectGivesBack(q: Queue, e: Event, id: nat)
    requires Allowed(q, DirectOp(e)) && q.closed
    ensures var v := Done(q, DirectOp(e));
      v == q.(books := v.books) && GaveBack(q.books, v.books, id, IsPackage(e) && e.message && Carries(e.body.msgs, id))
  {
    hide Carries;
    if IsPackage(e) && e.message { PackageGivesBack(q.books, e.body.msgs, id); }
  }
}
