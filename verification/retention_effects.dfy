/**
 * What each step of the retention ledger does, in its own terms (api/process/queue.go, api/relay/pool.go):
 * which limits come into force, what an admission charges, when it is refused, what is given back.
 */
module RetentionEffects {
  import opened Options
  import opened Retention

  /** The smaller of two limits, where only a positive one is a limit; 0 without any. */
  function Least(a: int, b: int): int {
    if a <= 0 && b <= 0 then 0 else if b <= 0 || 0 < a < b then a else b
  }

  function Limit(a: int): int { Least(a, a) }

  /** The state in force for a topic. */
  function InForce(b: Books, t: Topic): TopicState
    requires TopicsOk(b) && t in b.topics
  {
    b.states[b.topics[t]]
  }

  predicate OtherStates(b: Books, c: Books, s: nat) {
    |b.states| <= |c.states| && forall i: nat :: i < |b.states| && i != s ==> c.states[i] == b.states[i]
  }

  predicate OtherSlots(b: Books, c: Books, id: nat) {
    |b.slots| <= |c.slots| && forall i: nat :: i < |b.slots| && i != id ==> c.slots[i] == b.slots[i]
  }

  /**
   * Loading a message of a bounded topic puts the least positive limits of topic and message in force and
   * reads the topic's counters; a message's limits open the topic, and without any nothing is charged.
   */
  lemma LimitsInForce(k: Ledger, m: Message)
    requires Reached(k) && CanStep(k, Load(m))
    ensures var b, c, p := k.books, Apply(k, Load(m)).books, Apply(k, Load(m)).loaded.value;
      && TopicsOk(b) && TopicsOk(c)
      && p.msg == m && c.leases == b.leases && c.slots == b.slots && Apply(k, Load(m)).passed == k.passed
      && (m.topic in c.topics <==> m.topic in b.topics || Bounded(m))
      && (m.topic in b.topics ==>
            && c.topics == b.topics && |c.states| == |b.states| && OtherStates(b, c, b.topics[m.topic])
            && var t, u := InForce(b, m.topic), InForce(c, m.topic);
               && Limit(u.maxItems) == Least(t.maxItems, m.maxItems) && Limit(u.maxBytes) == Least(t.maxBytes, m.maxBytes)
               && u == t.(maxItems := u.maxItems, maxBytes := u.maxBytes))
      && (m.topic !in b.topics && Bounded(m) ==>
            && c.topics == b.topics[m.topic := |b.states|] && |c.states| == |b.states| + 1 && OtherStates(b, c, |b.states|)
            && InForce(c, m.topic) == TopicState(0, 0, InForce(c, m.topic).maxItems, InForce(c, m.topic).maxBytes, false, 0)
            && Limit(InForce(c, m.topic).maxItems) == Limit(m.maxItems) && Limit(InForce(c, m.topic).maxBytes) == Limit(m.maxBytes))
      && (m.topic !in b.topics && !Bounded(m) ==> c == b && p.state.None?)
      && (m.topic in c.topics ==>
            p == Loaded(m, Some(c.topics[m.topic]), InForce(c, m.topic).maxItems, InForce(c, m.topic).maxBytes,
                        InForce(c, m.topic).items, InForce(c, m.topic).bytes))
  {
    ReachedOk(k);
    hide StateOk, SlotsOk;
  }

  // ---------------------------------------------------------------- the decision

  /** What the message weighs: one without a size fills the whole byte budget. */
  function Weight(p: Loaded): int {
    if p.msg.payloadBytes > 0 then p.msg.payloadBytes else p.maxBytes
  }

  /** One more such message would exceed a limit. */
  predicate Beyond(p: Loaded) {
    || (p.maxItems > 0 && p.items + 1 > p.maxItems)
    || (p.maxBytes > 0 && p.bytes + Weight(p) > p.maxBytes)
  }

  lemma BeyondIsFull(b: Books, p: Loaded)
    requires BooksOk(b) && LoadedOk(b, p)
    ensures Beyond(p) <==> Full(p)
    ensures p.state.None? ==> !Beyond(p)
  {
    if p.state.Some? { assert StateOk(b, p.state.value); }
  }

  /** What a message's lease gives back to incarnation `s` when it is released. */
  function GivenBack(b: Books, lease: Option<nat>, s: nat): Charge
    requires lease.Some? ==> lease.value < |b.leases|
  {
    if lease.Some? && b.leases[lease.value].state == s && !b.leases[lease.value].released
    then Charge(b.leases[lease.value].items, b.leases[lease.value].bytes) else Charge(0, 0)
  }

  /**
   * A data message within the limits of a topic that has not overflowed is charged one item under an item
   * limit and its weight under a byte limit, on a new lease that becomes the message's own. A lease the
   * message had before is released and gives back what it held.
   */
  lemma AdmissionCharges(k: Ledger)
    requires Reached(k) && CanStep(k, Decide) && HasData(k.loaded.value.msg) && !Beyond(k.loaded.value)
    requires k.loaded.value.state.Some? && !Overflowed(k.books, k.loaded.value)
    ensures var b, p, c := k.books, k.loaded.value, Apply(k, Decide).books;
      var s, l, was := p.state.value, |b.leases|, Slot(b, p.msg.id);
      var items, bytes := if p.maxItems > 0 then 1 else 0, if p.maxBytes > 0 then Weight(p) else 0;
      && (was.Some? ==> was.value < l && was.value < |c.leases| && c.leases[was.value].released)
      && bytes >= 0 && |c.leases| == l + 1 && c.leases[l] == Lease(s, items, bytes, false, false)
      && Slot(c, p.msg.id) == Some(l) && OtherSlots(b, c, p.msg.id)
      && |c.states| == |b.states| && s < |c.states|
      && c.states[s].items == b.states[s].items + items - GivenBack(b, was, s).items
      && c.states[s].bytes == b.states[s].bytes + bytes - GivenBack(b, was, s).bytes
      && !c.states[s].overflowed
  {
    ReachedOk(k);
    BeyondIsFull(k.books, k.loaded.value);
    hide StateOk;
  }

  /**
   * A data message is refused exactly when its topic has overflowed or one more would exceed a limit: then
   * it gets no lease, one it had is released, and the refusal that overflows the topic puts a new terminal
   * message in its place. Otherwise it passes, with the limits in force and the weight it is charged.
   */
  lemma RefusedIff(k: Ledger)
    requires Reached(k) && CanStep(k, Decide) && HasData(k.loaded.value.msg)
    ensures var b, p, v := k.books, k.loaded.value, Apply(k, Decide);
      var refused, was := Overflowed(b, p) || Beyond(p), Slot(b, p.msg.id);
      && (!refused <==> |v.passed| == |k.passed| + 1 && SameMessage(v.passed[|k.passed|], p.msg))
      && (!refused ==>
            v.passed == k.passed + [Some(p.msg.(maxItems := p.maxItems, maxBytes := p.maxBytes,
                                                payloadBytes := if p.maxBytes > 0 then Weight(p) else p.msg.payloadBytes))])
      && (refused ==>
            && |v.books.leases| == |b.leases| && Slot(v.books, p.msg.id).None? && OtherSlots(b, v.books, p.msg.id)
            && (was.Some? ==> was.value < |b.leases| && v.books.leases[was.value].released)
            && p.state.Some? && p.state.value < |v.books.states| && v.books.states[p.state.value].overflowed
            && (Overflowed(b, p) ==> v.passed == k.passed && |v.books.slots| == |b.slots|)
            && (!Overflowed(b, p) ==>
                  && v.passed == k.passed + [Some(Message(|b.slots|, p.msg.topic, [GoError, Terminal], 0, p.maxBytes, p.maxItems))]
                  && |v.books.slots| == |b.slots| + 1 && Slot(v.books, |b.slots|).None?))
  {
    ReachedOk(k);
    BeyondIsFull(k.books, k.loaded.value);
    var p := k.loaded.value;
    assert Data in p.msg.payloads;
    assert Data !in [GoError, Terminal];
    hide StateOk;
  }

  /** A message without data passes unless its topic has overflowed, carries the limits in force, and changes no books. */
  lemma ControlPasses(k: Ledger)
    requires Reached(k) && CanStep(k, Decide) && !HasData(k.loaded.value.msg)
    ensures var p, v := k.loaded.value, Apply(k, Decide);
      if Overflowed(k.books, p) then v.passed == k.passed
      else
        && v.books == k.books && |v.passed| == |k.passed| + 1 && v.passed[..|k.passed|] == k.passed
        && SameMessage(v.passed[|k.passed|], p.msg) && v.passed[|k.passed|].value.payloadBytes == p.msg.payloadBytes
        && (p.maxItems > 0 ==> v.passed[|k.passed|].value.maxItems == p.maxItems)
        && (p.maxBytes > 0 ==> v.passed[|k.passed|].value.maxBytes == p.maxBytes)
  {
    hide HasData, Full, Reached;
  }

  // ---------------------------------------------------------------- giving back

  /** Releasing a message releases the lease it still has. */
  lemma MessageGivesBack(b: Books, id: nat)
    requires BooksOk(b)
    ensures var c, was := ReleaseMessage(b, id), Slot(b, id);
      && Slot(c, id).None? && |c.slots| == |b.slots| && OtherSlots(b, c, id) && c.topics == b.topics && |c.leases| == |b.leases|
      && (was.None? ==> c == b)
      && (forall l: nat :: l < |b.leases| && was != Some(l) ==> c.leases[l] == b.leases[l])
      && (was.Some? ==>
            && was.value < |b.leases| && c.leases[was.value].released
            && var s := b.leases[was.value].state;
               && s < |b.states| == |c.states| && OtherStates(b, c, s)
               && c.states[s].items == b.states[s].items - b.leases[was.value].items
               && c.states[s].bytes == b.states[s].bytes - b.leases[was.value].bytes)
  {
    hide StateOk;
  }

  /** The message whose admission is decided gives up its lease: its topic is bounded, and it is refused or gets another one. */
  predicate GivesUp(k: Ledger)
    requires CanStep(k, Decide)
  {
    Overflowed(k.books, k.loaded.value) || (HasData(k.loaded.value.msg) && k.loaded.value.state.Some?)
  }

  /** The lease a step releases, whether for the first time or again. */
  function Freed(k: Ledger, st: Step): Option<nat>
    requires CanStep(k, st)
  {
    match st
    case Release(l) => Some(l)
    case Drop(id) => Slot(k.books, id)
    case Decide => if GivesUp(k) then Slot(k.books, k.loaded.value.msg.id) else None
    case _ => None
  }

  /** What a step charges to incarnation `s`. */
  function ChargedTo(k: Ledger, st: Step, s: nat): Charge
    requires CanStep(k, st)
  {
    if st.Decide? then
      var p := k.loaded.value;
      if HasData(p.msg) && !Overflowed(k.books, p) && !Beyond(p) && p.state == Some(s)
      then Charge(if p.maxItems > 0 then 1 else 0, if p.maxBytes > 0 then Weight(p) else 0)
      else Charge(0, 0)
    else Charge(0, 0)
  }

  /**
   * In every reachable ledger a step releases the lease named above and no other, a take marks the message's own as
   * taken, and a lease is otherwise what it was.
   */
  lemma LeasesChangeExactly(k: Ledger, st: Step, l: nat)
    requires Reached(k) && CanStep(k, st) && l < |k.books.leases|
    ensures var e, v := k.books.leases[l], Apply(k, st).books;
      l < |v.leases| && v.leases[l] == e.(released := e.released || Freed(k, st) == Some(l),
                                          taken := e.taken || (st.Take? && Slot(k.books, st.id) == Some(l)))
  {
    hide StateOk, Reached;
    ReachedOk(k);
    if st.Decide? { BeyondIsFull(k.books, k.loaded.value); }
    hide Full, Beyond, HasData;
  }

  /** The counters of `u` are those of `t` with `charge` added and `given` given back. */
  predicate Moved(t: TopicState, u: TopicState, charge: Charge, given: Charge) {
    u.items == t.items + charge.items - given.items && u.bytes == t.bytes + charge.bytes - given.bytes
  }

  lemma ReleaseCounters(b: Books, l: nat, s: nat)
    requires LeasesOk(b) && l < |b.leases| && s < |b.states|
    ensures |ReleaseLease(b, l).states| == |b.states|
    ensures Moved(b.states[s], ReleaseLease(b, l).states[s], Charge(0, 0), GivenBack(b, Some(l), s))
  {
  }

  lemma MessageCounters(b: Books, id: nat, s: nat)
    requires LeasesOk(b) && s < |b.states|
    ensures |ReleaseMessage(b, id).states| == |b.states|
    ensures Slot(b, id).Some? ==> Slot(b, id).value < |b.leases|
    ensures Moved(b.states[s], ReleaseMessage(b, id).states[s], Charge(0, 0), GivenBack(b, Slot(b, id), s))
  {
    hide ReleaseLease;
    if Slot(b, id).Some? { ReleaseCounters(Cleared(b, id), Slot(b, id).value, s); }
  }

  lemma AttachCounters(b: Books, id: nat, e: Lease, s: nat)
    requires LeasesOk(b) && id < |b.slots| && e.state < |b.states| && s < |b.states|
    ensures |SetLease(b, id, e).states| == |b.states|
    ensures Slot(b, id).Some? ==> Slot(b, id).value < |b.leases|
    ensures Moved(b.states[s], SetLease(b, id, e).states[s], Charge(0, 0), GivenBack(b, Slot(b, id), s))
  {
    hide ReleaseLease;
    var held := b.(leases := b.leases + [e], slots := b.slots[id := Some(|b.leases|)]);
    if b.slots[id].Some? { ReleaseCounters(held, b.slots[id].value, s); }
  }

  lemma AdmitCounters(b: Books, p: Loaded, s: nat)
    requires CanDecide(b, p) && Admits(b, p) && s < |b.states|
    ensures Slot(b, p.msg.id).Some? ==> Slot(b, p.msg.id).value < |b.leases|
    ensures s < |Decided(b, p).states|
    ensures Moved(b.states[s], Decided(b, p).states[s],
                  if p.state == Some(s) then Charge(LeaseFor(p).items, LeaseFor(p).bytes) else Charge(0, 0), GivenBack(b, Slot(b, p.msg.id), s))
  {
    hide SetLease, ReleaseMessage, HasData, Full;
    var e, t := LeaseFor(p), b.states[p.state.value];
    AttachCounters(b.(states := b.states[p.state.value := t.(items := t.items + e.items, bytes := t.bytes + e.bytes)]), p.msg.id, e, s);
  }

  lemma RefuseCounters(b: Books, p: Loaded, s: nat)
    requires CanDecide(b, p) && s < |b.states| && p.state.Some? && (Overflowed(b, p) || (HasData(p.msg) && Full(p)))
    ensures Slot(b, p.msg.id).Some? ==> Slot(b, p.msg.id).value < |b.leases|
    ensures s < |Decided(b, p).states|
    ensures Moved(b.states[s], Decided(b, p).states[s], Charge(0, 0), GivenBack(b, Slot(b, p.msg.id), s))
  {
    hide SetLease, ReleaseMessage, HasData, Full;
    var t := b.states[p.state.value];
    var c := b.(states := b.states[p.state.value := t.(overflowed := true, terminals := t.terminals + 1)], slots := b.slots + [None]);
    MessageCounters(if Overflowed(b, p) then b else c, p.msg.id, s);
  }

  lemma DecideCounters(k: Ledger, s: nat)
    requires LedgerOk(k) && CanStep(k, Decide) && s < |k.books.states|
    ensures Freed(k, Decide).Some? ==> Freed(k, Decide).value < |k.books.leases|
    ensures s < |Apply(k, Decide).books.states|
    ensures Moved(k.books.states[s], Apply(k, Decide).books.states[s], ChargedTo(k, Decide, s), GivenBack(k.books, Freed(k, Decide), s))
  {
    var b, p := k.books, k.loaded.value;
    BeyondIsFull(b, p);
    SizeIsWeight(p);
    DecideCases(b, p);
    hide BooksOk, Decided, HasData, Full, Beyond, Weight, Size;
    if p.state.Some? && (Overflowed(b, p) || (HasData(p.msg) && Full(p))) {
      RefuseCounters(b, p, s);
    } else if Admits(b, p) {
      AdmitCounters(b, p, s);
    }
  }

  lemma DecideCases(b: Books, p: Loaded)
    requires CanDecide(b, p)
    ensures (HasData(p.msg) && Full(p)) || Overflowed(b, p) ==> p.state.Some?
    ensures !Overflowed(b, p) && !(HasData(p.msg) && Full(p)) && !Admits(b, p) ==> Decided(b, p) == b && (!HasData(p.msg) || p.state.None?)
  {
  }

  lemma SizeIsWeight(p: Loaded)
    ensures p.maxBytes > 0 ==> Size(p) == Weight(p)
  {
  }

  /**
   * In every reachable ledger an incarnation's counters rise by what a step charges to it and fall by what the lease
   * it releases gives back, and by nothing else.
   */
  lemma CountersChangeExactly(k: Ledger, st: Step, s: nat)
    requires Reached(k) && CanStep(k, st) && s < |k.books.states|
    ensures Freed(k, st).Some? ==> Freed(k, st).value < |k.books.leases|
    ensures s < |Apply(k, st).books.states|
    ensures Moved(k.books.states[s], Apply(k, st).books.states[s], ChargedTo(k, st, s), GivenBack(k.books, Freed(k, st), s))
  {
    hide Reached, StateOk, SlotsOk, ReleaseMessage, ReleaseLease, Decided, TakeLease;
    ReachedOk(k);
    match st {
      case Decide => DecideCounters(k, s);
      case Release(l) => ReleaseCounters(k.books, l, s);
      case Drop(id) => MessageCounters(k.books, id, s);
      case Take(id) => TakeStates(k.books, id);
      case _ =>
    }
  }

  lemma TakeStates(b: Books, id: nat)
    requires LeasesOk(b)
    ensures TakeLease(b, id).states == b.states
  {
  }
}
