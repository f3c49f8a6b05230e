/** The resend ring: an append-only slice with a head that is compacted now and then. */
module ResendRings {
  import opened Frames
  import opened Links

  /** What a dropped slot is overwritten with. */
  const CLEARED: Entry := Entry(0, Gossip, [])

  class ResendRing {
    var entries: seq<Entry>
    var head: nat
    var bytes: nat
    var sent: nat

    ghost predicate Valid()
      reads this
    {
      && head <= |entries|
      && sent <= |entries| - head
      && bytes == Bytes(entries[head..])
    }

    /** The unacknowledged frames, oldest first. */
    ghost function Contents(): (c: seq<Entry>)
      requires Valid()
      reads this
      ensures sent <= |c|
    {
      entries[head..]
    }

    constructor ()
      ensures Valid() && Contents() == [] && sent == 0
    {
      entries, head, bytes, sent := [], 0, 0, 0;
    }

    function Len(): (n: nat)
      requires Valid()
      reads this
      ensures n == |Contents()|
    {
      |entries| - head
    }

    method Push(e: Entry)
      requires Valid()
      modifies this
      ensures Valid()
      ensures Contents() == old(Contents()) + [e] && sent == old(sent) + 1
    {
      BytesConcat(entries[head..], [e]);
      assert (entries + [e])[head..] == entries[head..] + [e];
      entries := entries + [e];
      bytes := bytes + |e.data|;
      sent := sent + 1;
      assert [e][..0] == [];
    }

    /** The oldest entry the current connection has not taken; it counts as taken afterwards. */
    method Next() returns (e: Entry, ok: bool)
      requires Valid()
      modifies this`sent
      ensures Valid() && Contents() == old(Contents())
      ensures ok == (old(sent) < |Contents()|)
      ensures ok ==> e == Contents()[old(sent)] && sent == old(sent) + 1
      ensures !ok ==> sent == old(sent)
    {
      if sent >= Len() {
        return CLEARED, false;
      }
      e, ok := entries[head + sent], true;
      sent := sent + 1;
    }

    /** One turn of the trimming loop. */
    method DropOldest()
      requires Valid() && Contents() != []
      modifies this
      ensures Valid() && Contents() == old(Contents())[1..]
      ensures sent == if old(sent) > 0 then old(sent) - 1 else 0
      ensures |entries| == old(|entries|) && head == old(head) + 1
    {
      ghost var rest := entries[head + 1..];
      BytesConcat([entries[head]], rest);
      assert entries[head..] == [entries[head]] + rest;
      assert [entries[head]][..0] == [];
      bytes := bytes - |entries[head].data|;
      entries := entries[head := CLEARED];
      head := head + 1;
      if sent > 0 {
        sent := sent - 1;
      }
      assert entries[head..] == rest;
    }

    /** Drops the entries below `ack`; afterwards dead slots are few or a minority. */
    method Trim(ack: nat) returns (n: nat)
      requires Valid()
      modifies this
      ensures Valid()
      ensures n == Trimmed(old(Contents()), ack)
      ensures Contents() == old(Contents())[n..]
      ensures sent == if old(sent) >= n then old(sent) - n else 0
      ensures head <= 1024 || head * 2 < |entries|
    {
      n := 0;
      ghost var was := Contents();
      while |entries| - head > 0 && entries[head].num < ack
        invariant Valid() && n <= |was|
        invariant Contents() == was[n..]
        invariant sent == if old(sent) >= n then old(sent) - n else 0
        invariant Trimmed(was, ack) == n + Trimmed(was[n..], ack)
        decreases |entries| - head
      {
        assert was[n..][1..] == was[n + 1..];
        DropOldest();
        n := n + 1;
      }
      Tidy();
    }

    /** The end of trim: an empty ring starts over, and a buffer that is mostly dead slots is compacted. */
    method Tidy()
      requires Valid()
      modifies `entries, `head
      ensures Valid() && Contents() == old(Contents())
      ensures head <= 1024 || head * 2 < |entries|
    {
      if |entries| - head == 0 {
        entries, head := [], 0;
      } else if head > 1024 && head * 2 >= |entries| {
        entries := Compacted(entries, head, CLEARED);
        head := 0;
      }
    }

    method Rewind()
      requires Valid()
      modifies this`sent
      ensures Valid() && Contents() == old(Contents()) && sent == 0
    {
      sent := 0;
    }

    method Reset()
      modifies this
      ensures Valid() && Contents() == [] && sent == 0
    {
      entries, head, bytes, sent := [], 0, 0, 0;
    }

    function Fits(size: nat, window: nat): (ok: bool)
      requires Valid()
      reads this
      ensures ok == Admits(Contents(), size, window)
    {
      Len() == 0 || bytes + size <= window
    }
  }
}
