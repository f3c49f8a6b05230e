/** QoS classes and the payloads they carry (cluster/internode/class.go). */
module Frames {

  newtype Byte = x: int | 0 <= x < 256

  type Data = seq<Byte>

  datatype Class = RaftControl | Gossip | PGBroadcast | RaftRPC | Surface

  /** Every class except gossip is sequenced on the peer session. */
  predicate Sequenced(c: Class) {
    c != Gossip
  }

  const SURFACE_QUEUE_CAP: nat := 32
  const MAX_SURFACE_FRAME_SIZE: nat := 512 * 1024

  /** One application message as the handler sees it. */
  datatype Msg = Msg(kind: Class, data: Data)

  /** The payloads of class `c` in `ms`, in order. */
  function ByClass(ms: seq<Msg>, c: Class): seq<Data> {
    if ms == [] then []
    else ByClass(ms[..|ms| - 1], c) + (if ms[|ms| - 1].kind == c then [ms[|ms| - 1].data] else [])
  }

  lemma {:induction false} ByClassConcat(a: seq<Msg>, b: seq<Msg>, c: Class)
    ensures ByClass(a + b, c) == ByClass(a, c) + ByClass(b, c)
  {
    if b == [] {
      assert a + b == a;
    } else {
      ByClassConcat(a, b[..|b| - 1], c);
      assert (a + b)[..|a + b| - 1] == a + b[..|b| - 1];
    }
  }

  lemma ByClassPrefix(ms: seq<Msg>, n: nat, c: Class)
    requires n <= |ms|
    ensures ByClass(ms[..n], c) <= ByClass(ms, c)
  {
    ByClassConcat(ms[..n], ms[n..], c);
    assert ms[..n] + ms[n..] == ms;
  }

  /**
   * Compaction of a buffer whose first `head` slots are dead: the live ones are copied onto them front to
   * back, source and target overlapping, the tail is cleared, and the buffer is cut to what is live.
   */
  method Compacted<T>(buf: seq<T>, head: nat, blank: T) returns (live: seq<T>)
    requires head <= |buf|
    ensures live == buf[head..]
  {
    var size := |buf| - head;
    live := buf;
    for i := 0 to size
      invariant |live| == |buf|
      invariant forall j :: 0 <= j < i ==> live[j] == buf[head + j]
      invariant forall j :: i <= j < |buf| ==> live[j] == buf[j]
    {
      live := live[i := live[head + i]];
    }
    for i := size to |buf|
      invariant |live| == |buf| && forall j :: 0 <= j < size ==> live[j] == buf[head + j]
    {
      live := live[i := blank];
    }
    live := live[..size];
  }
}
