/**
 * Per-topic retention accounting of a process queue (api/process/queue.go) and the handoff of the
 * leases that carry it (api/relay/relay.go, api/relay/pool.go). Topic states, leases and the message
 * objects' lease pointers live in the heap; here they are indices into sequences that only grow.
 */
module Retention {
  import opened Options

  type Topic = nat

  datatype Payload = Nothing | Terminal | GoError | Data

  /** A message object: `id` is its identity, under which the books keep its lease pointer. */
  datatype Message = Message(id: nat, topic: Topic, payloads: seq<Payload>, payloadBytes: int, maxBytes: int, maxItems: int)

  /** One incarnation of a bounded topic; `terminals` counts the overflow terminals it has emitted. */
  datatype TopicState = TopicState(items: int, bytes: int, maxItems: int, maxBytes: int, overflowed: bool, terminals: nat)

  /** A reservation on one incarnation; `taken` says that a consumer has received it. */
  datatype Lease = Lease(state: nat, items: nat, bytes: nat, released: bool, taken: bool)

  datatype Books = Books(states: seq<TopicState>, leases: seq<Lease>, slots: seq<Option<nat>>, topics: map<Topic, nat>)

  const EMPTY_BOOKS: Books := Books([], [], [], map[])

  predicate HasData(m: Message) {
    Data in m.payloads
  }

  predicate HasTerminal(m: Message) {
    Terminal in m.payloads
  }

  predicate Bounded(m: Message) {
    m.maxItems > 0 || m.maxBytes > 0
  }

  // ---------------------------------------------------------------- leases

  /** messageRetentionLease.Release: only the first one debits. */
  function ReleaseLease(b: Books, l: nat): Books
    requires l < |b.leases| && b.leases[l].state < |b.states|
  {
    var e := b.leases[l];
    if e.released then b
    else
      var t := b.states[e.state];
      b.(leases := b.leases[l := e.(released := true)],
         states := b.states[e.state := t.(items := t.items - e.items, bytes := t.bytes - e.bytes)])
  }

  /** The message's lease pointer, swapped out. */
  function Slot(b: Books, id: nat): Option<nat> {
    if id < |b.slots| then b.slots[id] else None
  }

  function Cleared(b: Books, id: nat): Books {
    if id < |b.slots| then b.(slots := b.slots[id := None]) else b
  }

  predicate LeasesOk(b: Books) {
    && (forall l :: 0 <= l < |b.leases| ==> b.leases[l].state < |b.states|)
    && (forall id :: 0 <= id < |b.slots| && b.slots[id].Some? ==> b.slots[id].value < |b.leases|)
  }

  /** TakeRetentionLease: the consumer receives whatever the pointer held. */
  function TakeLease(b: Books, id: nat): Books
    requires LeasesOk(b)
  {
    match Slot(b, id)
    case None => b
    case Some(l) => Cleared(b, id).(leases := b.leases[l := b.leases[l].(taken := true)])
  }

  /** ReleaseMessage: a lease nobody took is released with its message. */
  function ReleaseMessage(b: Books, id: nat): Books
    requires LeasesOk(b)
  {
    match Slot(b, id)
    case None => b
    case Some(l) => ReleaseLease(Cleared(b, id), l)
  }

  /** SetRetentionLease with a new lease: one it replaces is released. */
  function SetLease(b: Books, id: nat, e: Lease): Books
    requires LeasesOk(b) && id < |b.slots| && e.state < |b.states|
  {
    var was := b.slots[id];
    var held := b.(leases := b.leases + [e], slots := b.slots[id := Some(|b.leases|)]);
    if was.Some? then ReleaseLease(held, was.value) else held
  }

  /** ReleasePackage: every message it still holds is released. */
  function ReleasePackage(b: Books, msgs: seq<Option<Message>>): (c: Books)
    requires LeasesOk(b)
    ensures LeasesOk(c)
  {
    if msgs == [] then b
    else
      var n := |msgs| - 1;
      var c := ReleasePackage(b, msgs[..n]);
      if msgs[n].Some? then ReleaseMessage(c, msgs[n].value.id) else c
  }

  // ---------------------------------------------------------------- admission of one message

  /** The limit a message inherits from its topic: the smaller positive one. */
  function Inherit(limit: int, own: int): int {
    if limit <= 0 then own else if 0 < own < limit then own else limit
  }

  /** A topic's limit only becomes smaller. */
  function Narrow(own: int, limit: int): int {
    if own <= 0 || 0 < limit < own then limit else own
  }

  /** What admission works from: the limits in force and the counters as it loaded them. */
  datatype Loaded = Loaded(msg: Message, state: Option<nat>, maxItems: int, maxBytes: int, items: int, bytes: int)

  predicate TopicsOk(b: Books) {
    forall t :: t in b.topics ==> b.topics[t] < |b.states|
  }

  /** The books with a state for `t`. */
  function Opened(b: Books, t: Topic): Books {
    if t in b.topics then b
    else b.(states := b.states + [TopicState(0, 0, 0, 0, false, 0)], topics := b.topics[t := |b.states|])
  }

  function LimitsFor(b: Books, m: Message): (int, int)
    requires TopicsOk(b)
  {
    if m.topic in b.topics then
      var t := b.states[b.topics[m.topic]];
      (Inherit(m.maxItems, t.maxItems), Inherit(m.maxBytes, t.maxBytes))
    else (m.maxItems, m.maxBytes)
  }

  /** Resolving the limits opens the topic's state if it needs one, and tightens it. */
  function Tightened(b: Books, m: Message): Books
    requires TopicsOk(b)
  {
    var (mi, mb) := LimitsFor(b, m);
    if mi > 0 || mb > 0 then
      var c := Opened(b, m.topic);
      var s := c.topics[m.topic];
      var t := c.states[s];
      c.(states := c.states[s := t.(maxItems := Narrow(t.maxItems, mi), maxBytes := Narrow(t.maxBytes, mb))])
    else b
  }

  function LoadFrom(b: Books, m: Message): Loaded
    requires TopicsOk(b)
  {
    var c := Tightened(b, m);
    if m.topic in c.topics then
      var t := c.states[c.topics[m.topic]];
      Loaded(m, Some(c.topics[m.topic]), t.maxItems, t.maxBytes, t.items, t.bytes)
    else Loaded(m, None, m.maxItems, m.maxBytes, 0, 0)
  }

  predicate CanDecide(b: Books, p: Loaded) {
    && LeasesOk(b) && p.msg.id < |b.slots|
    && (p.state.Some? ==> p.state.value < |b.states|)
    && (p.state.None? ==> p.maxItems <= 0 && p.maxBytes <= 0)
  }

  /** A message without a size is charged the whole byte budget. */
  function Size(p: Loaded): int {
    if p.maxBytes > 0 && p.msg.payloadBytes <= 0 then p.maxBytes else p.msg.payloadBytes
  }

  predicate Full(p: Loaded) {
    || (p.maxItems > 0 && p.items >= p.maxItems)
    || (p.maxBytes > 0 && (Size(p) > p.maxBytes || p.bytes > p.maxBytes - Size(p)))
  }

  predicate Overflowed(b: Books, p: Loaded)
    requires CanDecide(b, p)
  {
    p.state.Some? && b.states[p.state.value].overflowed
  }

  function TerminalFor(b: Books, p: Loaded): Message {
    Message(|b.slots|, p.msg.topic, [GoError, Terminal], 0, p.maxBytes, p.maxItems)
  }

  function LeaseFor(p: Loaded): Lease
    requires p.state.Some? && !Full(p)
  {
    Lease(p.state.value, if p.maxItems > 0 then 1 else 0, if p.maxBytes > 0 then Size(p) else 0, false, false)
  }

  /** The books after the message was admitted, dropped, or turned into the overflow terminal. */
  function Decided(b: Books, p: Loaded): Books
    requires CanDecide(b, p)
  {
    if Overflowed(b, p) then ReleaseMessage(b, p.msg.id)
    else if !HasData(p.msg) then b
    else if Full(p) then
      var t := b.states[p.state.value];
      ReleaseMessage(b.(states := b.states[p.state.value := t.(overflowed := true, terminals := t.terminals + 1)], slots := b.slots + [None]), p.msg.id)
    else if p.state.None? then b
    else
      var e, t := LeaseFor(p), b.states[p.state.value];
      SetLease(b.(states := b.states[p.state.value := t.(items := t.items + e.items, bytes := t.bytes + e.bytes)]), p.msg.id, e)
  }

  /** What goes into the package in the message's place. */
  function Passed(b: Books, p: Loaded): seq<Option<Message>>
    requires CanDecide(b, p)
  {
    if Overflowed(b, p) then []
    else if !HasData(p.msg) then
      [Some(p.msg.(maxItems := if p.maxItems > 0 then p.maxItems else p.msg.maxItems,
                   maxBytes := if p.maxBytes > 0 then p.maxBytes else p.msg.maxBytes))]
    else if Full(p) then [Some(TerminalFor(b, p))]
    else [Some(p.msg.(maxItems := p.maxItems, maxBytes := p.maxBytes, payloadBytes := Size(p)))]
  }

  // ---------------------------------------------------------------- the books in order

  datatype Charge = Charge(items: int, bytes: int)

  /** What the unreleased leases on incarnation `s` hold. */
  function Held(leases: seq<Lease>, s: nat): (c: Charge)
    ensures c.items >= 0 && c.bytes >= 0
  {
    if leases == [] then Charge(0, 0)
    else
      var rest, e := Held(leases[..|leases| - 1], s), leases[|leases| - 1];
      if e.state == s && !e.released then Charge(rest.items + e.items, rest.bytes + e.bytes) else rest
  }

  ghost predicate StateOk(b: Books, s: nat)
    requires s < |b.states|
  {
    var t := b.states[s];
    && Charge(t.items, t.bytes) == Held(b.leases, s)
    && t.terminals == (if t.overflowed then 1 else 0)
  }

  ghost predicate SlotsOk(b: Books) {
    && (forall i: nat :: i < |b.slots| && b.slots[i].Some? ==>
          b.slots[i].value < |b.leases| && !b.leases[b.slots[i].value].taken && !b.leases[b.slots[i].value].released)
    && (forall i: nat, j: nat :: i < j < |b.slots| && b.slots[i].Some? ==> b.slots[i] != b.slots[j])
  }

  ghost predicate BooksOk(b: Books) {
    && LeasesOk(b) && TopicsOk(b) && SlotsOk(b)
    && (forall s: nat :: s < |b.states| ==> StateOk(b, s))
    && (forall t, u :: t in b.topics && u in b.topics && t != u ==> b.topics[t] != b.topics[u])
    && (forall t :: t in b.topics ==> b.states[b.topics[t]].maxItems > 0 || b.states[b.topics[t]].maxBytes > 0)
  }

  lemma {:induction false} HeldReleased(leases: seq<Lease>, l: nat, s: nat)
    requires l < |leases| && !leases[l].released
    ensures Held(leases[l := leases[l].(released := true)], s)
      == if leases[l].state == s then Charge(Held(leases, s).items - leases[l].items, Held(leases, s).bytes - leases[l].bytes) else Held(leases, s)
  {
    var n := |leases| - 1;
    var us := leases[l := leases[l].(released := true)];
    if l == n {
      assert us[..n] == leases[..n];
    } else {
      assert us[..n] == leases[..n][l := leases[l].(released := true)];
      HeldReleased(leases[..n], l, s);
    }
  }

  lemma {:induction false} HeldTaken(leases: seq<Lease>, l: nat, s: nat)
    requires l < |leases|
    ensures Held(leases[l := leases[l].(taken := true)], s) == Held(leases, s)
  {
    var n := |leases| - 1;
    var us := leases[l := leases[l].(taken := true)];
    if l == n {
      assert us[..n] == leases[..n];
    } else {
      assert us[..n] == leases[..n][l := leases[l].(taken := true)];
      HeldTaken(leases[..n], l, s);
    }
  }

  lemma HeldAdded(leases: seq<Lease>, e: Lease, s: nat)
    ensures Held(leases + [e], s)
      == if e.state == s && !e.released then Charge(Held(leases, s).items + e.items, Held(leases, s).bytes + e.bytes) else Held(leases, s)
  {
    assert (leases + [e])[..|leases|] == leases;
  }

  lemma ReleaseLeaseOk(b: Books, l: nat)
    requires BooksOk(b) && l < |b.leases| && (forall i: nat :: i < |b.slots| ==> b.slots[i] != Some(l))
    ensures BooksOk(ReleaseLease(b, l))
  {
    var c := ReleaseLease(b, l);
    if !b.leases[l].released {
      forall s: nat | s < |c.states| ensures StateOk(c, s) {
        assert StateOk(b, s);
        HeldReleased(b.leases, l, s);
      }
    }
  }

  lemma ClearedOk(b: Books, id: nat)
    requires BooksOk(b)
    ensures BooksOk(Cleared(b, id))
    ensures Slot(b, id).Some? ==> forall i: nat :: i < |b.slots| ==> Cleared(b, id).slots[i] != Slot(b, id)
  {
    forall s: nat | s < |b.states| ensures StateOk(Cleared(b, id), s) { assert StateOk(b, s); }
    if Slot(b, id).Some? {
      forall i: nat | i < |b.slots| ensures Cleared(b, id).slots[i] != Slot(b, id) {
        assert i < id ==> b.slots[i].Some? ==> b.slots[i] != b.slots[id];
      }
    }
  }

  lemma ReleaseMessageOk(b: Books, id: nat)
    requires BooksOk(b)
    ensures BooksOk(ReleaseMessage(b, id))
  {
    ClearedOk(b, id);
    if Slot(b, id).Some? { hide BooksOk, Held; ReleaseLeaseOk(Cleared(b, id), Slot(b, id).value); }
  }

  lemma TakeLeaseOk(b: Books, id: nat)
    requires BooksOk(b)
    ensures BooksOk(TakeLease(b, id))
  {
    ClearedOk(b, id);
    if Slot(b, id).Some? {
      var l := Slot(b, id).value;
      var c := TakeLease(b, id);
      forall s: nat | s < |c.states| ensures StateOk(c, s) {
        assert StateOk(b, s);
        HeldTaken(b.leases, l, s);
      }
    }
  }

  /** Taking a message's lease hands out one that nobody has taken or released. */
  lemma TakenOnce(b: Books, id: nat)
    requires BooksOk(b) && Slot(b, id).Some?
    ensures var l := Slot(b, id).value;
      && l < |b.leases| && !b.leases[l].taken && !b.leases[l].released
      && TakeLease(b, id).leases[l].taken && Slot(TakeLease(b, id), id).None?
      && forall i: nat :: Slot(TakeLease(b, id), i) != Some(l)
  {
    ClearedOk(b, id);
  }

  // ---------------------------------------------------------------- admission keeps the books

  /** The counters an admission loaded can only have fallen since. */
  ghost predicate LoadedOk(b: Books, p: Loaded) {
    && CanDecide(b, p)
    && (p.state.None? ==> p.msg.topic !in b.topics)
    && (p.state.Some? ==>
          && p.msg.topic in b.topics && b.topics[p.msg.topic] == p.state.value
          && var t := b.states[p.state.value];
             t.maxItems == p.maxItems && t.maxBytes == p.maxBytes && t.items <= p.items && t.bytes <= p.bytes)
  }

  lemma OpenedOk(b: Books, m: Message)
    requires BooksOk(b) && Bounded(m) && m.topic !in b.topics
    ensures BooksOk(Tightened(b, m))
  {
    var c := Tightened(b, m);
    forall s: nat | s < |c.states| ensures StateOk(c, s) {
      if s < |b.states| { assert StateOk(b, s); } else { NobodyHolds(b.leases, s); }
    }
  }

  lemma {:induction false} NobodyHolds(leases: seq<Lease>, s: nat)
    requires forall l :: 0 <= l < |leases| ==> leases[l].state != s
    ensures Held(leases, s) == Charge(0, 0)
  {
    if leases != [] { NobodyHolds(leases[..|leases| - 1], s); }
  }

  lemma TightenedOk(b: Books, m: Message)
    requires BooksOk(b) && m.id < |b.slots|
    ensures BooksOk(Tightened(b, m)) && LoadedOk(Tightened(b, m), LoadFrom(b, m))
    ensures |Tightened(b, m).slots| == |b.slots|
  {
    if m.topic in b.topics {
      var c := Tightened(b, m);
      forall s: nat | s < |c.states| ensures StateOk(c, s) { assert StateOk(b, s); }
    } else if Bounded(m) {
      OpenedOk(b, m);
    }
  }

  /** Limits never grow, and a positive one stays. */
  lemma LimitsOnlyShrink(b: Books, m: Message)
    requires BooksOk(b) && m.topic in b.topics
    ensures var t, u := b.states[b.topics[m.topic]], Tightened(b, m).states[b.topics[m.topic]];
      && (t.maxItems > 0 ==> 0 < u.maxItems <= t.maxItems) && (t.maxBytes > 0 ==> 0 < u.maxBytes <= t.maxBytes)
      && (m.maxItems > 0 ==> 0 < u.maxItems <= m.maxItems) && (m.maxBytes > 0 ==> 0 < u.maxBytes <= m.maxBytes)
  {
  }

  lemma SetLeaseOk(b: Books, id: nat, e: Lease, c: Books)
    requires BooksOk(b) && id < |b.slots| && e.state < |b.states| && !e.released && !e.taken
    requires var t := b.states[e.state];
      c == SetLease(b.(states := b.states[e.state := t.(items := t.items + e.items, bytes := t.bytes + e.bytes)]), id, e)
    ensures BooksOk(c)
    ensures c.states[e.state].items <= b.states[e.state].items + e.items
    ensures c.states[e.state].bytes <= b.states[e.state].bytes + e.bytes
  {
    var t := b.states[e.state];
    var held := b.(states := b.states[e.state := t.(items := t.items + e.items, bytes := t.bytes + e.bytes)],
                   leases := b.leases + [e], slots := b.slots[id := Some(|b.leases|)]);
    forall s: nat | s < |held.states| ensures StateOk(held, s) {
      assert StateOk(b, s);
      HeldAdded(b.leases, e, s);
    }
    assert BooksOk(held);
    if b.slots[id].Some? {
      forall i: nat | i < |held.slots| ensures held.slots[i] != b.slots[id] {
        assert i < id ==> b.slots[i].Some? ==> b.slots[i] != b.slots[id];
      }
      ReleaseLeaseOk(held, b.slots[id].value);
    }
  }

  lemma OverflowOk(b: Books, p: Loaded)
    requires BooksOk(b) && LoadedOk(b, p) && p.state.Some? && !b.states[p.state.value].overflowed
    ensures var t := b.states[p.state.value];
      BooksOk(b.(states := b.states[p.state.value := t.(overflowed := true, terminals := t.terminals + 1)], slots := b.slots + [None]))
  {
    var t := b.states[p.state.value];
    var c := b.(states := b.states[p.state.value := t.(overflowed := true, terminals := t.terminals + 1)], slots := b.slots + [None]);
    forall s: nat | s < |c.states| ensures StateOk(c, s) { assert StateOk(b, s); }
  }

  lemma DecidedOk(b: Books, p: Loaded)
    requires BooksOk(b) && LoadedOk(b, p)
    ensures BooksOk(Decided(b, p)) && |Decided(b, p).slots| >= |b.slots|
  {
    hide StateOk, SlotsOk;
    if Overflowed(b, p) {
      ReleaseMessageOk(b, p.msg.id);
    } else if HasData(p.msg) && Full(p) {
      OverflowOk(b, p);
      var t := b.states[p.state.value];
      ReleaseMessageOk(b.(states := b.states[p.state.value := t.(overflowed := true, terminals := t.terminals + 1)], slots := b.slots + [None]), p.msg.id);
    } else if HasData(p.msg) && p.state.Some? {
      SetLeaseOk(b, p.msg.id, LeaseFor(p), Decided(b, p));
    }
  }

  /** A message that gets a lease. */
  predicate Admits(b: Books, p: Loaded)
    requires CanDecide(b, p)
  {
    !Overflowed(b, p) && HasData(p.msg) && !Full(p) && p.state.Some?
  }

  /** An admission leaves its topic within the limits in force, though releases may have come between. */
  lemma AdmittedWithinLimits(b: Books, p: Loaded)
    requires BooksOk(b) && LoadedOk(b, p) && Admits(b, p)
    ensures var t := Decided(b, p).states[p.state.value];
      && t.maxItems == p.maxItems && t.maxBytes == p.maxBytes
      && (t.maxItems > 0 ==> t.items <= t.maxItems) && (t.maxBytes > 0 ==> t.bytes <= t.maxBytes)
  {
    SetLeaseOk(b, p.msg.id, LeaseFor(p), Decided(b, p));
    hide BooksOk;
  }

  // ---------------------------------------------------------------- every interleaving

  /** `passed` is the history of what admissions put into packages. */
  datatype Ledger = Ledger(books: Books, loaded: Option<Loaded>, passed: seq<Option<Message>>)

  /**
   * Admission loads and then decides, retiring topics between admissions; consumers take and release
   * leases and packages release their messages at any time.
   */
  datatype Step =
    | Load(m: Message)
    | Decide
    | Take(id: nat)
    | Release(l: nat)
    | Drop(id: nat)
    | Retire(t: Topic)
    | RetireAll
    | NewMessage

  predicate CanStep(k: Ledger, st: Step) {
    match st
    case Load(m) => k.loaded.None? && TopicsOk(k.books) && m.id < |k.books.slots|
    case Decide => k.loaded.Some? && CanDecide(k.books, k.loaded.value)
    case Take(id) => LeasesOk(k.books)
    case Release(l) => l < |k.books.leases| && k.books.leases[l].taken && k.books.leases[l].state < |k.books.states|
    case Drop(id) => LeasesOk(k.books)
    case Retire(t) => k.loaded.None?
    case RetireAll => k.loaded.None?
    case NewMessage => true
  }

  function Apply(k: Ledger, st: Step): Ledger
    requires CanStep(k, st)
  {
    match st
    case Load(m) => k.(books := Tightened(k.books, m), loaded := Some(LoadFrom(k.books, m)))
    case Decide =>
      k.(books := Decided(k.books, k.loaded.value), loaded := None, passed := k.passed + Passed(k.books, k.loaded.value))
    case Take(id) => k.(books := TakeLease(k.books, id))
    case Release(l) => k.(books := ReleaseLease(k.books, l))
    case Drop(id) => k.(books := ReleaseMessage(k.books, id))
    case Retire(t) => k.(books := k.books.(topics := k.books.topics - {t}))
    case RetireAll => k.(books := k.books.(topics := map[]))
    case NewMessage => k.(books := k.books.(slots := k.books.slots + [None]))
  }

  predicate Runs(k: Ledger, steps: seq<Step>)
    decreases |steps|
  {
    steps != [] ==> CanStep(k, steps[0]) && Runs(Apply(k, steps[0]), steps[1..])
  }

  function Exec(k: Ledger, steps: seq<Step>): Ledger
    requires Runs(k, steps)
    decreases |steps|
  {
    if steps == [] then k else Exec(Apply(k, steps[0]), steps[1..])
  }

  const START: Ledger := Ledger(EMPTY_BOOKS, None, [])

  ghost predicate LedgerOk(k: Ledger) {
    BooksOk(k.books) && (k.loaded.Some? ==> LoadedOk(k.books, k.loaded.value))
  }

  /** Counters only fall outside admission, so that a load stays an upper bound. */
  ghost predicate Falls(b: Books, c: Books) {
    && |c.states| == |b.states| && |c.slots| >= |b.slots| && c.topics == b.topics
    && forall s: nat :: s < |b.states| ==>
         && c.states[s].items <= b.states[s].items && c.states[s].bytes <= b.states[s].bytes
         && c.states[s] == b.states[s].(items := c.states[s].items, bytes := c.states[s].bytes)
  }

  lemma LoadedStays(b: Books, c: Books, p: Loaded)
    requires LoadedOk(b, p) && BooksOk(c) && Falls(b, c)
    ensures LoadedOk(c, p)
  {
  }

  lemma FallsBy(k: Ledger, st: Step)
    requires BooksOk(k.books) && CanStep(k, st) && (st.Take? || st.Release? || st.Drop? || st.NewMessage?)
    ensures Falls(k.books, Apply(k, st).books)
  {
  }

  lemma StepKeeps(k: Ledger, st: Step)
    requires LedgerOk(k) && CanStep(k, st)
    ensures LedgerOk(Apply(k, st))
  {
    var b := k.books;
    var c := Apply(k, st).books;
    hide StateOk;
    match st {
      case Load(m) => TightenedOk(b, m);
      case Decide => DecidedOk(b, k.loaded.value);
      case Take(id) => TakeLeaseOk(b, id);
      case Release(l) => ReleaseLeaseOk(b, l);
      case Drop(id) => ReleaseMessageOk(b, id);
      case Retire(t) => SameStates(b, c);
      case RetireAll => SameStates(b, c);
      case NewMessage => SameStates(b, c);
    }
    if (st.Take? || st.Release? || st.Drop? || st.NewMessage?) && k.loaded.Some? {
      FallsBy(k, st);
      hide BooksOk;
      LoadedStays(b, c, k.loaded.value);
    }
  }

  lemma SameStates(b: Books, c: Books)
    requires BooksOk(b) && c.states == b.states && c.leases == b.leases && LeasesOk(c) && SlotsOk(c)
    requires forall t :: t in c.topics ==> t in b.topics && c.topics[t] == b.topics[t]
    ensures BooksOk(c)
  {
    forall s: nat | s < |c.states| ensures StateOk(c, s) { assert StateOk(b, s); }
  }

  lemma {:induction false} RunKeeps(k: Ledger, steps: seq<Step>)
    requires LedgerOk(k) && Runs(k, steps)
    ensures LedgerOk(Exec(k, steps))
    decreases |steps|
  {
    if steps != [] {
      StepKeeps(k, steps[0]);
      hide LedgerOk, Apply, CanStep;
      RunKeeps(Apply(k, steps[0]), steps[1..]);
    }
  }

  ghost predicate Reached(k: Ledger) {
    exists steps :: Runs(START, steps) && Exec(START, steps) == k
  }

  lemma ReachedOk(k: Ledger)
    requires Reached(k)
    ensures LedgerOk(k)
  {
    var steps :| Runs(START, steps) && Exec(START, steps) == k;
    RunKeeps(START, steps);
  }

  /** In every reachable ledger each incarnation's counters are its unreleased leases', never negative. */
  lemma CountersAreLeases(k: Ledger, s: nat)
    requires Reached(k) && s < |k.books.states|
    ensures var t := k.books.states[s];
      && t.items == Held(k.books.leases, s).items >= 0 && t.bytes == Held(k.books.leases, s).bytes >= 0
      && t.terminals == (if t.overflowed then 1 else 0)
  {
    ReachedOk(k);
    assert StateOk(k.books, s);
  }

  /** Every admission of every run leaves its topic within its limits. */
  lemma AdmissionsStayWithin(k: Ledger)
    requires Reached(k) && CanStep(k, Decide) && Admits(k.books, k.loaded.value)
    ensures var t := Apply(k, Decide).books.states[k.loaded.value.state.value];
      (t.maxItems > 0 ==> t.items <= t.maxItems) && (t.maxBytes > 0 ==> t.bytes <= t.maxBytes)
  {
    ReachedOk(k);
    AdmittedWithinLimits(k.books, k.loaded.value);
  }

  // ---------------------------------------------------------------- incarnations

  predicate Retires(st: Step, t: Topic) {
    st == RetireAll || st == Retire(t)
  }

  /** Incarnation `s` exists and is no topic's current one. */
  ghost predicate Gone(b: Books, s: nat) {
    s < |b.states| && forall t :: t in b.topics ==> b.topics[t] != s
  }

  /** How the books move: incarnations and leases stay what they are, and a new topic gets a new incarnation. */
  ghost predicate Grows(b: Books, c: Books) {
    && |b.states| <= |c.states| && |b.leases| <= |c.leases|
    && (forall l: nat :: l < |b.leases| ==> c.leases[l].state == b.leases[l].state)
    && (forall t :: t in c.topics ==> (t in b.topics && c.topics[t] == b.topics[t]) || c.topics[t] >= |b.states|)
    && (forall s: nat :: s < |b.states| && b.states[s].overflowed ==> c.states[s].overflowed)
  }

  lemma ReleaseGrows(b: Books, id: nat)
    requires BooksOk(b)
    ensures Grows(b, ReleaseMessage(b, id)) && ReleaseMessage(b, id).topics == b.topics
  {
  }

  lemma DecidedGrows(b: Books, p: Loaded)
    requires BooksOk(b) && LoadedOk(b, p)
    ensures Grows(b, Decided(b, p)) && Decided(b, p).topics == b.topics
  {
    hide StateOk, SlotsOk;
    if Overflowed(b, p) {
      ReleaseGrows(b, p.msg.id);
    } else if HasData(p.msg) && Full(p) {
      OverflowOk(b, p);
      var t := b.states[p.state.value];
      var c := b.(states := b.states[p.state.value := t.(overflowed := true, terminals := t.terminals + 1)], slots := b.slots + [None]);
      ReleaseGrows(c, p.msg.id);
    }
    hide Full, HasData;
  }

  lemma StepGrows(k: Ledger, st: Step)
    requires LedgerOk(k) && CanStep(k, st)
    ensures Grows(k.books, Apply(k, st).books)
    ensures forall t :: t in k.books.topics && !Retires(st, t) ==>
      t in Apply(k, st).books.topics && Apply(k, st).books.topics[t] == k.books.topics[t]
  {
    if st.Decide? { DecidedGrows(k.books, k.loaded.value); }
    if st.Drop? { ReleaseGrows(k.books, st.id); }
    hide StateOk, SlotsOk, Decided, ReleaseMessage;
  }

  lemma {:induction false} GoneForever(k: Ledger, steps: seq<Step>, s: nat)
    requires LedgerOk(k) && Runs(k, steps) && Gone(k.books, s)
    ensures Gone(Exec(k, steps).books, s)
    decreases |steps|
  {
    if steps != [] {
      StepKeeps(k, steps[0]);
      StepGrows(k, steps[0]);
      hide LedgerOk, Apply, CanStep;
      GoneForever(Apply(k, steps[0]), steps[1..], s);
    }
  }

  /** Leases never move to another incarnation. */
  lemma {:induction false} LeaseStays(k: Ledger, steps: seq<Step>, l: nat)
    requires LedgerOk(k) && Runs(k, steps) && l < |k.books.leases|
    ensures l < |Exec(k, steps).books.leases| && Exec(k, steps).books.leases[l].state == k.books.leases[l].state
    decreases |steps|
  {
    if steps != [] {
      StepKeeps(k, steps[0]);
      StepGrows(k, steps[0]);
      hide LedgerOk, Apply, CanStep;
      LeaseStays(Apply(k, steps[0]), steps[1..], l);
    }
  }

  /** Once a topic is retired, alone or with all others, releasing a lease of its past incarnation touches no later one. */
  lemma RetiredLeasesSpareReplacement(k: Ledger, t: Topic, st: Step, steps: seq<Step>, l: nat, u: Topic)
    requires Reached(k) && k.loaded.None? && t in k.books.topics && Retires(st, t)
    requires l < |k.books.leases| && k.books.leases[l].state == k.books.topics[t]
    requires Runs(Apply(k, st), steps)
    ensures var v := Exec(Apply(k, st), steps).books;
      && l < |v.leases| && v.leases[l].state < |v.states|
      && (u in v.topics ==> v.topics[u] < |v.states| && ReleaseLease(v, l).states[v.topics[u]] == v.states[v.topics[u]])
  {
    ReachedOk(k);
    var r := Apply(k, st);
    StepKeeps(k, st);
    GoneForever(r, steps, k.books.topics[t]);
    LeaseStays(r, steps, l);
    RunKeeps(r, steps);
  }

  // ---------------------------------------------------------------- overflow

  /** The topic's current incarnation has overflowed. */
  ghost predicate Dead(b: Books, t: Topic, s: nat) {
    t in b.topics && b.topics[t] == s && s < |b.states| && b.states[s].overflowed
  }

  lemma DeadStep(k: Ledger, st: Step, t: Topic, s: nat)
    requires LedgerOk(k) && CanStep(k, st) && Dead(k.books, t, s) && !Retires(st, t)
    ensures Dead(Apply(k, st).books, t, s)
    ensures |Apply(k, st).passed| >= |k.passed| && Apply(k, st).passed[..|k.passed|] == k.passed
    ensures forall i :: |k.passed| <= i < |Apply(k, st).passed| && Apply(k, st).passed[i].Some? ==> Apply(k, st).passed[i].value.topic != t
  {
    StepGrows(k, st);
    hide StateOk, SlotsOk, Tightened, Decided, ReleaseMessage, TakeLease, ReleaseLease, Full, HasData;
  }

  /** After an overflow nothing of the topic passes until the topic is retired: no data and no second terminal. */
  lemma {:induction false} SilentUntilRetired(k: Ledger, steps: seq<Step>, t: Topic, s: nat)
    requires LedgerOk(k) && Runs(k, steps) && Dead(k.books, t, s) && (forall i :: 0 <= i < |steps| ==> !Retires(steps[i], t))
    ensures var v := Exec(k, steps);
      && Dead(v.books, t, s) && |v.passed| >= |k.passed| && v.passed[..|k.passed|] == k.passed
      && forall i :: |k.passed| <= i < |v.passed| && v.passed[i].Some? ==> v.passed[i].value.topic != t
    decreases |steps|
  {
    if steps != [] {
      StepKeeps(k, steps[0]);
      DeadStep(k, steps[0], t, s);
      hide LedgerOk, Apply, CanStep, Dead;
      var u := Apply(k, steps[0]);
      SilentUntilRetired(u, steps[1..], t, s);
      var v := Exec(u, steps[1..]);
      forall i | |k.passed| <= i < |v.passed| && v.passed[i].Some? ensures v.passed[i].value.topic != t {
        if i < |u.passed| { assert v.passed[..|u.passed|][i] == u.passed[i]; }
      }
      assert v.passed[..|u.passed|][..|k.passed|] == v.passed[..|k.passed|];
    }
  }

  /** The decision that overflows a topic puts exactly one terminal in the message's place. */
  lemma OverflowEmitsTerminal(k: Ledger)
    requires Reached(k) && CanStep(k, Decide) && HasData(k.loaded.value.msg) && Full(k.loaded.value) && !Overflowed(k.books, k.loaded.value)
    ensures k.loaded.value.state.Some?
    ensures var p := k.loaded.value;
      var v := Apply(k, Decide);
      && Dead(v.books, p.msg.topic, p.state.value) && v.books.states[p.state.value].terminals == 1
      && |v.passed| == |k.passed| + 1 && v.passed[|k.passed|].Some?
      && HasTerminal(v.passed[|k.passed|].value) && !HasData(v.passed[|k.passed|].value)
      && v.passed[|k.passed|].value.topic == p.msg.topic
  {
    ReachedOk(k);
    var p := k.loaded.value;
    assert StateOk(k.books, p.state.value);
    var m := Passed(k.books, p)[0].value;
    assert m.payloads == [GoError, Terminal] && m.payloads[1] == Terminal;
  }

  /** The very message `m`, whose limits and size admission may have filled in. */
  predicate SameMessage(out: Option<Message>, m: Message) {
    out.Some? && out.value == m.(maxItems := out.value.maxItems, maxBytes := out.value.maxBytes, payloadBytes := out.value.payloadBytes)
  }

  /**
   * A message that fits its limits passes with its payloads if and only if the current incarnation of its
   * topic has not overflowed; otherwise nothing passes in its place.
   */
  lemma PassesIff(k: Ledger)
    requires Reached(k) && CanStep(k, Decide) && !(HasData(k.loaded.value.msg) && Full(k.loaded.value))
    ensures var p, v := k.loaded.value, Apply(k, Decide);
      var dead := p.msg.topic in k.books.topics && Dead(k.books, p.msg.topic, k.books.topics[p.msg.topic]);
      && (dead ==> v.passed == k.passed)
      && (!dead ==> |v.passed| == |k.passed| + 1 && v.passed[..|k.passed|] == k.passed && SameMessage(v.passed[|k.passed|], p.msg))
  {
    ReachedOk(k);
    hide StateOk, SlotsOk, Decided, Reached;
  }
}
