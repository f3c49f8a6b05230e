/** The class queue: a growing slice when unbounded, a circular buffer when it has a capacity. */
module ClassQueues {
  import opened Frames

  datatype Slot = Vacant | Held(data: Data)

  /** Position of the i-th oldest entry. */
  function Place(head: nat, i: nat, size: nat): (p: nat)
    requires 0 < size && head < size && i <= size
    ensures p < size
  {
    (head + i) % size
  }

  /** The modulus wraps at most once. */
  lemma PlaceIs(head: nat, i: nat, size: nat)
    requires 0 < size && head < size && i <= size
    ensures Place(head, i, size) == if head + i < size then head + i else head + i - size
  {
    ModuloUnique((head + i) / size, (head + i) % size, head + i, size);
  }

  lemma ModuloUnique(q: int, r: int, n: int, size: int)
    requires 0 < size && 0 <= n < 2 * size && 0 <= r < size && n == q * size + r
    ensures r == if n < size then n else n - size
  {
    assert q >= 2 ==> q * size >= 2 * size;
    assert q <= -1 ==> q * size <= -size;
  }

  /** No two entries share a slot. */
  lemma PlacesDiffer(head: nat, i: nat, j: nat, size: nat)
    requires 0 < size && head < size && i < size && j < size && i != j
    ensures Place(head, i, size) != Place(head, j, size)
  {
    PlaceIs(head, i, size);
    PlaceIs(head, j, size);
    hide Place;
  }

  /** After the head moves on, entry i+1 is entry i. */
  lemma PlaceShift(head: nat, i: nat, size: nat)
    requires 0 < size && head < size && i < size
    ensures Place(Place(head, 1, size), i, size) == Place(head, i + 1, size)
  {
    PlaceIs(head, 1, size);
    PlaceIs(head, i + 1, size);
    PlaceIs(Place(head, 1, size), i, size);
    hide Place;
  }

  class ClassQueue {
    var buf: seq<Slot>
    var head: nat
    var size: nat
    const unbounded: bool
    const capacity: nat

    ghost predicate Valid()
      reads this
    {
      if unbounded then
        && |buf| == head + size
        && (forall i :: head <= i < |buf| ==> buf[i].Held?)
      else
        && 0 < |buf| == capacity
        && head < |buf| && size <= |buf|
        && (forall i :: 0 <= i < size ==> buf[Place(head, i, |buf|)].Held?)
    }

    /** The queued payloads, oldest first. */
    ghost function Contents(): (c: seq<Data>)
      requires Valid()
      reads this
      ensures |c| == size
    {
      if unbounded then
        seq(size, i requires 0 <= i < size && |buf| == head + size && buf[head + i].Held? reads this => buf[head + i].data)
      else
        seq(size, i requires 0 <= i < size <= |buf| && 0 < |buf| && head < |buf| && buf[Place(head, i, |buf|)].Held? reads this
                  => buf[Place(head, i, |buf|)].data)
    }

    /** newClassQueue: a capacity of zero or less is unbounded. */
    constructor (cap: int)
      ensures Valid() && Contents() == []
      ensures unbounded == (cap <= 0) && (cap > 0 ==> capacity == cap)
    {
      unbounded := cap <= 0;
      capacity := if cap <= 0 then 0 else cap;
      buf := if cap <= 0 then [] else seq(cap, _ => Vacant);
      head, size := 0, 0;
    }

    /** Appends if there is room; a full queue keeps its entries and refuses. */
    method PushNewest(data: Data) returns (accepted: bool)
      requires Valid()
      modifies this
      ensures Valid()
      ensures accepted == (unbounded || old(size) < capacity)
      ensures Contents() == if accepted then old(Contents()) + [data] else old(Contents())
    {
      ghost var was := Contents();
      if unbounded {
        buf := buf + [Held(data)];
        size := size + 1;
        assert Contents() == was + [data];
        return true;
      }
      if size == |buf| {
        return false;
      }
      var tail := Place(head, size, |buf|);
      ghost var old_buf := buf;
      buf := buf[tail := Held(data)];
      size := size + 1;
      forall i | 0 <= i < size - 1 ensures buf[Place(head, i, |buf|)] == old_buf[Place(head, i, |buf|)] {
        PlacesDiffer(head, i, size - 1, |buf|);
      }
      assert Contents() == was + [data];
      return true;
    }

    method Pop() returns (data: Data, ok: bool)
      requires Valid()
      modifies this
      ensures Valid()
      ensures ok == (old(Contents()) != [])
      ensures ok ==> old(Contents()) == [data] + Contents()
      ensures !ok ==> Contents() == old(Contents())
    {
      ghost var was := Contents();
      if size == 0 {
        return [], false;
      }
      if unbounded {
        data := buf[head].data;
        buf := buf[head := Vacant];
        head := head + 1;
        size := size - 1;
        if size == 0 {
          head := 0;
          buf := [];
        } else if head > 1024 && head * 2 >= |buf| {
          buf := Compacted(buf, head, Vacant);
          head := 0;
        }
        assert was == [data] + Contents();
        return data, true;
      }
      data := buf[Place(head, 0, |buf|)].data;
      PopCircular();
      ok := true;
    }

    /** The circular half of Pop: the oldest slot is cleared and the head wraps around. */
    method PopCircular()
      requires Valid() && !unbounded && size > 0
      modifies this
      ensures Valid() && Contents() == old(Contents())[1..]
    {
      ghost var was, old_buf, old_head := Contents(), buf, head;
      PlaceIs(head, 0, |buf|);
      hide Place;
      buf := buf[head := Vacant];
      head := Place(head, 1, |buf|);
      size := size - 1;
      forall i | 0 <= i < size ensures buf[Place(head, i, |buf|)] == old_buf[Place(old_head, i + 1, |buf|)] {
        PlaceShift(old_head, i, |buf|);
        PlacesDiffer(old_head, 0, i + 1, |buf|);
      }
      assert Contents() == was[1..];
    }

    /** Size of the oldest entry. */
    method PeekLen() returns (n: nat, ok: bool)
      requires Valid()
      ensures ok == (Contents() != [])
      ensures ok ==> n == |Contents()[0]|
    {
      if size == 0 {
        return 0, false;
      }
      if !unbounded {
        assert Place(head, 0, |buf|) == head;
      }
      return |buf[head].data|, true;
    }

    method Reset()
      requires Valid()
      modifies this
      ensures Valid() && Contents() == []
    {
      buf := if unbounded then [] else seq(|buf|, _ => Vacant);
      head, size := 0, 0;
    }
  }
}
