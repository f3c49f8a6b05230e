/**
 * Reading a stored object through a cache of blocks (api/cloudstorage/readerat.go). The cache evicts the
 * block whose use stamp is smallest; `Touched` says what that means without stamps.
 */
module RangeReaders {
  import opened Options
  import opened Frames

  const DEFAULT_BLOCK_SIZE := 8 * 1024 * 1024
  const DEFAULT_CACHE_BLOCKS := 4
  const MAX_BLOCK_SIZE := 128 * 1024 * 1024
  const MAX_CACHE_BLOCKS := 64
  const MAX_CACHE_BYTES := 256 * 1024 * 1024

  datatype Error = Eof | NegativeOffset | ReaderClosed | ContextDone | StorageFailed(code: nat) | ShortRange | UnexpectedEof

  /** What the storage says to one range request. */
  datatype Answer = Delivered(bytes: seq<Byte>) | Refused(code: nat)

  datatype Block = Block(data: seq<Byte>, idx: int, use: nat)

  datatype Fetched = Got(data: seq<Byte>) | Failed(error: Error)

  // ---------------------------------------------------------------- least recently used

  /** The cached indices, least recently used first, after index `idx` was used. */
  function Touched(recency: seq<int>, idx: int, capacity: nat): seq<int> {
    if idx in recency then
      var k := IndexOf(recency, idx);
      recency[..k] + recency[k + 1..] + [idx]
    else if |recency| < capacity || recency == [] then recency + [idx]
    else recency[1..] + [idx]
  }

  function IndexOf(xs: seq<int>, x: int): (k: nat)
    requires x in xs
    ensures k < |xs| && xs[k] == x && x !in xs[..k]
  {
    if xs[0] == x then 0
    else
      assert xs == [xs[0]] + xs[1..];
      var k := 1 + IndexOf(xs[1..], x);
      assert xs[..k] == [xs[0]] + xs[1..][..k - 1];
      k
  }

  // ---------------------------------------------------------------- stamps

  /** The block at place `a` was used before the one at place `b`. */
  ghost predicate Older(blocks: seq<Block>, a: nat, b: nat) {
    a < |blocks| && b < |blocks| ==> blocks[a].use < blocks[b].use
  }

  /** `order` lists the places of the blocks by their stamps, the smallest first. */
  ghost predicate Stamped(blocks: seq<Block>, order: seq<nat>, useSeq: nat) {
    && |order| == |blocks|
    && (forall m :: 0 <= m < |order| ==> order[m] < |blocks|)
    && (forall i {:trigger blocks[i].use} :: 0 <= i < |blocks| ==> blocks[i].use <= useSeq)
    && (forall m, n {:trigger Older(blocks, order[m], order[n])} :: 0 <= m < n < |order| ==> Older(blocks, order[m], order[n]))
    && (forall i: nat {:trigger i in order} :: i < |blocks| ==> i in order)
    && (forall i, j {:trigger blocks[i].idx, blocks[j].idx} :: 0 <= i < j < |blocks| ==> blocks[i].idx != blocks[j].idx)
  }

  ghost function Recency(blocks: seq<Block>, order: seq<nat>): seq<int>
    requires forall m :: 0 <= m < |order| ==> order[m] < |blocks|
  {
    seq(|order|, m requires 0 <= m < |order| => blocks[order[m]].idx)
  }

  /** The block with the smallest stamp is the one used least recently. */
  lemma OldestIsFirst(blocks: seq<Block>, order: seq<nat>, useSeq: nat, k: nat)
    requires Stamped(blocks, order, useSeq) && k < |blocks|
    requires forall i :: 0 <= i < |blocks| ==> blocks[k].use <= blocks[i].use
    ensures order != [] && order[0] == k
  {
    assert k in order;
    var m :| 0 <= m < |order| && order[m] == k;
    assert blocks[k].use <= blocks[order[0]].use;
    assert m > 0 ==> Older(blocks, order[0], order[m]);
  }

  lemma NoneStamped(useSeq: nat)
    ensures Stamped([], [], useSeq)
  {
  }

  /** The places with place `m` moved to the end. */
  function Moved<T>(xs: seq<T>, m: nat): seq<T>
    requires m < |xs|
  {
    xs[..m] + xs[m + 1..] + [xs[m]]
  }

  lemma MovedKeeps<T(!new)>(xs: seq<T>, m: nat)
    requires m < |xs|
    ensures |Moved(xs, m)| == |xs|
    ensures forall x :: x in xs ==> x in Moved(xs, m)
  {
    forall x | x in xs ensures x in Moved(xs, m) {
      var n :| 0 <= n < |xs| && xs[n] == x;
      var k := if n < m then n else if n == m then |xs| - 1 else n - 1;
      assert Moved(xs, m)[k] == x;
    }
  }

  lemma HitKeeps(blocks: seq<Block>, order: seq<nat>, useSeq: nat, m: nat)
    requires Stamped(blocks, order, useSeq) && m < |order|
    ensures Stamped(blocks[order[m] := blocks[order[m]].(use := useSeq + 1)], Moved(order, m), useSeq + 1)
  {
    var i := order[m];
    var after, next := blocks[i := blocks[i].(use := useSeq + 1)], Moved(order, m);
    MovedKeeps(order, m);
    forall n | 0 <= n < |next| - 1 ensures next[n] != i && next[n] < |blocks| && after[next[n]] == blocks[next[n]] && after[next[n]].use <= useSeq {
      var c := if n < m then n else n + 1;
      assert next[n] == order[c];
      OncePlaced(blocks, order, useSeq, c, m);
    }
    forall a, b | 0 <= a < b < |next| ensures Older(after, next[a], next[b]) {
      if b < |next| - 1 {
        var c, d := if a < m then a else a + 1, if b < m then b else b + 1;
        assert next[a] == order[c] && next[b] == order[d];
        assert Older(blocks, order[c], order[d]);
      }
    }
    forall j: nat | j < |after| ensures j in next { assert j in order; }
  }

  lemma OncePlaced(blocks: seq<Block>, order: seq<nat>, useSeq: nat, k: nat, m: nat)
    requires Stamped(blocks, order, useSeq) && k < |order| && m < |order|
    ensures order[k] == order[m] <==> k == m
  {
    assert k < m ==> Older(blocks, order[k], order[m]);
    assert m < k ==> Older(blocks, order[m], order[k]);
  }

  /** Only one place holds the index. */
  lemma PlaceOf(blocks: seq<Block>, order: seq<nat>, useSeq: nat, m: nat)
    requires Stamped(blocks, order, useSeq) && m < |order|
    ensures blocks[order[m]].idx in Recency(blocks, order) && IndexOf(Recency(blocks, order), blocks[order[m]].idx) == m
  {
    var r := Recency(blocks, order);
    assert r[m] == blocks[order[m]].idx;
    var k := IndexOf(r, r[m]);
    assert r[k] == blocks[order[k]].idx;
    assert order[k] == order[m];
    OncePlaced(blocks, order, useSeq, k, m);
  }

  lemma MovedRecency(blocks: seq<Block>, order: seq<nat>, m: nat, after: seq<Block>)
    requires m < |order| && (forall n :: 0 <= n < |order| ==> order[n] < |blocks|) && |after| == |blocks|
    requires forall i :: 0 <= i < |blocks| ==> after[i].idx == blocks[i].idx
    ensures |Moved(order, m)| == |order| && (forall n :: 0 <= n < |order| ==> Moved(order, m)[n] < |after|)
    ensures Recency(after, Moved(order, m)) == Moved(Recency(blocks, order), m)
  {
    forall n | 0 <= n < |order| ensures Moved(order, m)[n] == order[if n < m then n else if n < |order| - 1 then n + 1 else m] {}
  }

  /** A block used again becomes the most recently used. */
  lemma HitStamped(blocks: seq<Block>, order: seq<nat>, useSeq: nat, i: nat, capacity: nat) returns (next: seq<nat>)
    requires Stamped(blocks, order, useSeq) && i < |blocks|
    ensures var after := blocks[i := blocks[i].(use := useSeq + 1)];
      && Stamped(after, next, useSeq + 1)
      && Recency(after, next) == Touched(Recency(blocks, order), blocks[i].idx, capacity)
  {
    assert i in order;
    var m :| 0 <= m < |order| && order[m] == i;
    next := Moved(order, m);
    var after := blocks[i := blocks[i].(use := useSeq + 1)];
    HitKeeps(blocks, order, useSeq, m);
    PlaceOf(blocks, order, useSeq, m);
    MovedRecency(blocks, order, m, after);
    hide Stamped, Recency, IndexOf;
  }

  lemma AddStamped(blocks: seq<Block>, order: seq<nat>, useSeq: nat, b: Block, capacity: nat) returns (next: seq<nat>)
    requires Stamped(blocks, order, useSeq) && |blocks| < capacity && b.use == useSeq + 1
    requires forall i :: 0 <= i < |blocks| ==> blocks[i].idx != b.idx
    ensures Stamped(blocks + [b], next, useSeq + 1)
    ensures Recency(blocks + [b], next) == Touched(Recency(blocks, order), b.idx, capacity)
  {
    next := order + [|blocks|];
    var after := blocks + [b];
    forall j: nat | j < |after| ensures j in next {
      if j < |blocks| { assert j in order; } else { assert next[|order|] == j; }
    }
    forall m, n | 0 <= m < n < |next| ensures Older(after, next[m], next[n]) {
      if n < |order| { assert Older(blocks, order[m], order[n]); }
    }
    assert Recency(after, next) == Recency(blocks, order) + [b.idx];
  }

  lemma EvictStamped(blocks: seq<Block>, order: seq<nat>, useSeq: nat, k: nat, b: Block, capacity: nat) returns (next: seq<nat>)
    requires Stamped(blocks, order, useSeq) && |blocks| >= capacity && b.use == useSeq + 1
    requires order != [] && order[0] == k && k < |blocks|
    requires forall i :: 0 <= i < |blocks| ==> blocks[i].idx != b.idx
    ensures Stamped(blocks[k := b], next, useSeq + 1)
    ensures Recency(blocks[k := b], next) == Touched(Recency(blocks, order), b.idx, capacity)
  {
    next := order[1..] + [k];
    var after := blocks[k := b];
    forall j: nat | j < |after| ensures j in next {
      assert j in order;
      var n :| 0 <= n < |order| && order[n] == j;
      assert n > 0 ==> next[n - 1] == j;
      assert next[|next| - 1] == k;
    }
    forall m, n | 0 <= m < n < |next| ensures Older(after, next[m], next[n]) {
      assert m + 1 < |order| ==> Older(blocks, order[0], order[m + 1]);
      assert n + 1 < |order| ==> Older(blocks, order[m + 1], order[n + 1]) && Older(blocks, order[0], order[n + 1]);
    }
    forall m | 0 <= m < |next| - 1 ensures next[m] == order[m + 1] != k { OncePlaced(blocks, order, useSeq, 0, m + 1); }
    assert Recency(after, next) == Recency(blocks, order)[1..] + [b.idx];
  }

  // ---------------------------------------------------------------- blocks of the object

  function Min(a: int, b: int): int {
    if a < b then a else b
  }

  /** Where block `idx` starts: after the blocks before it. */
  function StartOf(idx: int, blockSize: nat): (start: nat) {
    if idx <= 0 then 0 else StartOf(idx - 1, blockSize) + blockSize
  }

  lemma {:induction false} StartIs(idx: nat, blockSize: nat)
    ensures StartOf(idx, blockSize) == idx * blockSize
  {
    if idx > 0 {
      StartIs(idx - 1, blockSize);
      Distributes(idx - 1, blockSize);
    }
  }

  /** The bytes of block `idx`. */
  function BlockOf(content: seq<Byte>, blockSize: nat, idx: int): seq<Byte> {
    var lo, hi := StartOf(idx, blockSize), Min(StartOf(idx, blockSize) + blockSize, |content|);
    if lo <= hi then content[lo..hi] else []
  }

  lemma InBlock(pos: nat, blockSize: nat)
    requires blockSize > 0
    ensures pos / blockSize >= 0
    ensures StartOf(pos / blockSize, blockSize) <= pos < StartOf(pos / blockSize, blockSize) + blockSize
  {
    StartIs(pos / blockSize, blockSize);
    assert pos == (pos / blockSize) * blockSize + pos % blockSize;
  }

  /** How long block `idx` of an object of that size is. */
  function BlockLength(size: int, blockSize: nat, idx: int): nat {
    var lo, hi := StartOf(idx, blockSize), Min(StartOf(idx, blockSize) + blockSize, size);
    if lo <= hi then hi - lo else 0
  }

  /** Cached blocks are as long as their place asks, whatever the storage delivered. */
  ghost predicate LengthsOk(blocks: seq<Block>, size: int, blockSize: nat) {
    forall i :: 0 <= i < |blocks| ==> |blocks[i].data| == BlockLength(size, blockSize, blocks[i].idx)
  }

  ghost predicate BlocksOk(blocks: seq<Block>, content: seq<Byte>, blockSize: nat) {
    forall i :: 0 <= i < |blocks| ==> blocks[i].data == BlockOf(content, blockSize, blocks[i].idx)
  }

  function CachedBytes(blocks: seq<Block>): nat {
    if blocks == [] then 0 else CachedBytes(blocks[..|blocks| - 1]) + |blocks[|blocks| - 1].data|
  }

  lemma Distributes(n: int, c: int)
    ensures (n + 1) * c == n * c + c
  {
  }

  lemma {:induction false} BytesBounded(blocks: seq<Block>, size: int, blockSize: nat)
    requires LengthsOk(blocks, size, blockSize)
    ensures CachedBytes(blocks) <= |blocks| * blockSize
  {
    if blocks != [] {
      var n := |blocks| - 1;
      BytesBounded(blocks[..n], size, blockSize);
      Distributes(n, blockSize);
    }
  }

  /** The storage answers each range of the object with its bytes, or fails. */
  ghost predicate Honest(storage: (nat, int, int) -> Answer, content: seq<Byte>) {
    forall t: nat, lo: int, hi: int :: 0 <= lo < hi <= |content| && storage(t, lo, hi).Delivered? ==>
      storage(t, lo, hi).bytes == content[lo..hi]
  }

  predicate SizesOk(blockSize: nat, capacity: nat) {
    1 <= blockSize <= MAX_BLOCK_SIZE && 1 <= capacity <= MAX_CACHE_BLOCKS && capacity * blockSize <= MAX_CACHE_BYTES
  }

  /** An option that is not positive means the default, and one too large the maximum. */
  function Chosen(asked: int, default: int, most: int): int {
    if asked <= 0 then default else Min(asked, most)
  }

  /** As many blocks as asked for, or as many as the cache's bytes allow if those are fewer. */
  predicate MostThatFit(capacity: nat, asked: int, blockSize: nat) {
    capacity <= asked && capacity * blockSize <= MAX_CACHE_BYTES && (capacity < asked ==> (capacity + 1) * blockSize > MAX_CACHE_BYTES)
  }

  class RangeReaderAt {
    const storage: (nat, int, int) -> Answer
    const blockSize: nat
    const capacity: nat
    const size: int
    var blocks: seq<Block>
    var useSeq: nat
    var closed: bool
    var canceled: bool
    /** Requests made so far; the storage may answer each differently. */
    var requests: nat

    /** The object read, and the places of its cached blocks from the least to the most recently used. */
    ghost const content: seq<Byte>
    ghost var order: seq<nat>

    /** The size is the object's, and the storage answers ranges with its bytes. */
    ghost predicate Trusted() {
      (size > 0 ==> size == |content|) && Honest(storage, content)
    }

    ghost predicate Valid()
      reads this
    {
      && blockSize >= 1 && capacity >= 1
      && |blocks| <= capacity && Stamped(blocks, order, useSeq) && LengthsOk(blocks, size, blockSize)
      && (Trusted() ==> BlocksOk(blocks, content, blockSize))
      && (closed ==> blocks == [])
    }

    /** An option that is not positive means the default; both are bounded. */
    static method Sizes(options: Option<(int, int)>) returns (bs: nat, cb: nat)
      ensures SizesOk(bs, cb) && bs > 0 && cb > 0
      ensures bs == Chosen(if options.Some? then options.value.0 else 0, DEFAULT_BLOCK_SIZE, MAX_BLOCK_SIZE)
      ensures MostThatFit(cb, Chosen(if options.Some? then options.value.1 else 0, DEFAULT_CACHE_BLOCKS, MAX_CACHE_BLOCKS), bs)
    {
      bs, cb := DEFAULT_BLOCK_SIZE, DEFAULT_CACHE_BLOCKS;
      if options.Some? {
        if options.value.0 > 0 { bs := options.value.0; }
        if bs > MAX_BLOCK_SIZE { bs := MAX_BLOCK_SIZE; }
        if options.value.1 > 0 { cb := options.value.1; }
        if cb > MAX_CACHE_BLOCKS { cb := MAX_CACHE_BLOCKS; }
      }
      Capacity(cb, bs);
      if cb > MAX_CACHE_BYTES / bs { cb := MAX_CACHE_BYTES / bs; }
    }

    constructor (source: (nat, int, int) -> Answer, length: int, options: Option<(int, int)>, ghost bytes: seq<Byte>)
      ensures Valid() && !closed && !canceled && blocks == []
      ensures storage == source && size == length && content == bytes && SizesOk(blockSize, capacity)
      ensures blockSize == Chosen(if options.Some? then options.value.0 else 0, DEFAULT_BLOCK_SIZE, MAX_BLOCK_SIZE)
      ensures MostThatFit(capacity, Chosen(if options.Some? then options.value.1 else 0, DEFAULT_CACHE_BLOCKS, MAX_CACHE_BLOCKS), blockSize)
    {
      NoneStamped(0);
      hide Stamped, Honest, SizesOk, BlockOf, BlockLength, MostThatFit;
      var bs, cb := Sizes(options);
      storage, size, content := source, length, bytes;
      blockSize, capacity := bs, cb;
      blocks, useSeq, closed, canceled, requests, order := [], 0, false, false, 0, [];
    }

    method Close()
      requires Valid()
      modifies this
      ensures Valid() && closed && canceled && blocks == []
    {
      NoneStamped(useSeq);
      hide Stamped, Trusted, BlockOf, BlockLength;
      canceled, closed, blocks, order := true, true, [], [];
    }

    /** One range request for block `idx`; an answer of another length is refused. */
    method Fetch(idx: int) returns (r: Fetched)
      requires Valid() && idx >= 0 && StartOf(idx, blockSize) < size
      modifies `requests
      ensures Valid()
      ensures r.Got? ==> |r.data| == BlockLength(size, blockSize, idx) && (Trusted() ==> r.data == BlockOf(content, blockSize, idx))
      ensures r.Failed? ==> StorageBlamed(r.error)
    {
      StartIs(idx, blockSize);
      var lo := idx * blockSize;
      var hi := Min(lo + blockSize, size);
      var answer := storage(requests, lo, hi);
      requests := requests + 1;
      if answer.Refused? { return Failed(StorageFailed(answer.code)); }
      if |answer.bytes| != hi - lo { return Failed(ShortRange); }
      r := Got(answer.bytes);
    }

    /** A failure that the storage caused: it refused a range, or delivered one of another length. */
    ghost predicate StorageBlamed(e: Error) {
      match e
      case StorageFailed(code) => RefusedOnce(storage, code)
      case ShortRange => !Trusted()
      case _ => false
    }

    /** Where block `idx` is cached. */
    method Find(idx: int) returns (i: nat)
      ensures i <= |blocks| && (i < |blocks| ==> blocks[i].idx == idx)
      ensures i == |blocks| ==> forall j :: 0 <= j < |blocks| ==> blocks[j].idx != idx
    {
      i := 0;
      while i < |blocks|
        invariant i <= |blocks| && forall j :: 0 <= j < i ==> blocks[j].idx != idx
      {
        if blocks[i].idx == idx { return; }
        i := i + 1;
      }
    }

    /** The place with the smallest stamp. */
    method LeastUsed() returns (lru: nat)
      requires |blocks| > 0
      ensures lru < |blocks| && forall i :: 0 <= i < |blocks| ==> blocks[lru].use <= blocks[i].use
    {
      lru := 0;
      for i := 1 to |blocks|
        invariant lru < i && forall j :: 0 <= j < i ==> blocks[lru].use <= blocks[j].use
      {
        if blocks[i].use < blocks[lru].use { lru := i; }
      }
    }

    /** The section that finds or fetches a block: the cache moves as a least-recently-used list does. */
    method GetBlock(idx: int) returns (r: Fetched)
      requires Valid() && idx >= 0 && StartOf(idx, blockSize) < size
      modifies `blocks, `useSeq, `order, `requests
      ensures Valid()
      ensures r.Got? ==> |r.data| == BlockLength(size, blockSize, idx) && (Trusted() ==> r.data == BlockOf(content, blockSize, idx))
      ensures r.Got? ==> Recency(blocks, order) == Touched(old(Recency(blocks, order)), idx, capacity)
      ensures r.Failed? ==> blocks == old(blocks) && order == old(order)
      ensures closed ==> r == Failed(ReaderClosed)
      ensures !closed && canceled ==> r == Failed(ContextDone)
      ensures !closed && !canceled && r.Failed? ==> StorageBlamed(r.error)
    {
      hide Trusted, BlockOf, BlockLength, StartOf, Touched, StorageBlamed;
      if closed { return Failed(ReaderClosed); }
      if canceled { return Failed(ContextDone); }
      var i := Find(idx);
      if i < |blocks| {
        Hit(i);
        return Got(blocks[i].data);
      }
      Later(blocks, order, useSeq);
      r := Fetch(idx);
      if r.Failed? {
        useSeq := useSeq + 1;
        return;
      }
      Admit(idx, r.data);
    }

    /** A cached block is stamped again. */
    method Hit(i: nat)
      requires Valid() && i < |blocks|
      modifies `blocks, `useSeq, `order
      ensures Valid() && |blocks| == |old(blocks)| && blocks[i].data == old(blocks)[i].data
      ensures Recency(blocks, order) == Touched(old(Recency(blocks, order)), old(blocks)[i].idx, capacity)
    {
      hide Trusted, BlockOf, BlockLength;
      ghost var next := HitStamped(blocks, order, useSeq, i, capacity);
      useSeq := useSeq + 1;
      blocks := blocks[i := blocks[i].(use := useSeq)];
      order := next;
      hide Stamped, Recency, Touched;
    }

    /** A fetched block is cached, in the place of the least recently used one when there is no other. */
    method Admit(idx: int, data: seq<Byte>)
      requires Valid() && !closed && forall i :: 0 <= i < |blocks| ==> blocks[i].idx != idx
      requires |data| == BlockLength(size, blockSize, idx) && (Trusted() ==> data == BlockOf(content, blockSize, idx))
      modifies `blocks, `useSeq, `order
      ensures Valid() && Recency(blocks, order) == Touched(old(Recency(blocks, order)), idx, capacity)
    {
      hide Trusted, BlockOf, BlockLength, Touched;
      var entry := Block(data, idx, useSeq + 1);
      if |blocks| < capacity {
        ghost var next := AddStamped(blocks, order, useSeq, entry, capacity);
        blocks, order := blocks + [entry], next;
      } else {
        var lru := LeastUsed();
        OldestIsFirst(blocks, order, useSeq, lru);
        ghost var next := EvictStamped(blocks, order, useSeq, lru, entry, capacity);
        blocks, order := blocks[lru := entry], next;
      }
      useSeq := useSeq + 1;
      hide Stamped, Recency;
    }

    /** Cached bytes stay within the limit the sizes were chosen for. */
    lemma CacheWithinLimit()
      requires Valid() && SizesOk(blockSize, capacity)
      ensures CachedBytes(blocks) <= MAX_CACHE_BYTES
    {
      BytesBounded(blocks, size, blockSize);
      Times(|blocks|, capacity, blockSize);
    }

    /**
     * ReadAt: the bytes of the object from `off` on, as a direct read would give them. How many there are and
     * what is reported does not depend on the storage being honest, and a block never ends early.
     */
    method ReadAt(p: array<Byte>, off: int) returns (n: nat, err: Option<Error>)
      requires Valid()
      modifies this, p
      ensures Valid() && closed == old(closed) && canceled == old(canceled)
      ensures n <= p.Length && p[n..] == old(p[n..]) && (n > 0 ==> 0 <= off && off + n <= size)
      ensures n > 0 && Trusted() ==> off + n <= |content| && p[..n] == content[off..off + n]
      ensures off < 0 <==> err == Some(NegativeOffset)
      // without a failure the read is complete, and the end of the object is reported when it is met
      ensures off >= 0 && (err.None? || err == Some(Eof)) ==> n == Reach(off, p.Length, size)
      ensures off >= 0 && (err.None? || err == Some(Eof)) ==> (err.None? <==> off < size && off + p.Length <= size)
      // and failures are the reader's or the storage's
      ensures err.Some? ==> err.value in {Eof, NegativeOffset, ReaderClosed, ContextDone} || StorageBlamed(err.value)
      ensures err == Some(ReaderClosed) ==> closed
      ensures err == Some(ContextDone) ==> canceled
      ensures err != Some(UnexpectedEof)
      // a closed or canceled reader reads nothing
      ensures closed && p.Length > 0 && 0 <= off < size ==> n == 0 && err == Some(ReaderClosed)
      ensures !closed && canceled && p.Length > 0 && 0 <= off < size ==> n == 0 && err == Some(ContextDone)
    {
      hide Honest, BlockOf, BlockLength, StartOf, Touched, Stamped, Recency, BlocksOk, LengthsOk, RefusedOnce;
      n, err := 0, None;
      if off < 0 { return 0, Some(NegativeOffset); }
      if p.Length == 0 {
        if off >= size { return 0, Some(Eof); }
        return 0, None;
      }
      if off >= size { return 0, Some(Eof); }
      while n < p.Length
        invariant Valid() && closed == old(closed) && canceled == old(canceled)
        invariant n <= p.Length && off + n <= size && p[n..] == old(p[n..])
        invariant Trusted() ==> p[..n] == content[off..off + n]
        invariant closed || canceled ==> n == 0
      {
        if off + n >= size { return n, Some(Eof); }
        ghost var before := p[n..];
        var next, e := ReadSome(p, off, n);
        if e.Some? { return n, e; }
        assert p[next..] == before[next - n..];
        n := next;
      }
    }

    /** One turn of ReadAt's loop: the block at the position, copied as far as it goes. */
    method ReadSome(p: array<Byte>, off: nat, n: nat) returns (next: nat, err: Option<Error>)
      requires Valid() && n < p.Length && off + n < size && (Trusted() ==> p[..n] == content[off..off + n])
      modifies `blocks, `useSeq, `order, `requests, p
      ensures Valid()
      ensures err.Some? ==> p[..] == old(p[..]) && ReadFails(err.value)
      ensures closed ==> err == Some(ReaderClosed)
      ensures !closed && canceled ==> err == Some(ContextDone)
      ensures err.None? ==> n < next <= p.Length && off + next <= size && p[next..] == old(p[next..])
      ensures err.None? && Trusted() ==> p[..next] == content[off..off + next]
    {
      hide Honest, BlockOf, BlockLength, StartOf, Touched, Stamped, Recency, BlocksOk, LengthsOk, RefusedOnce, StorageBlamed;
      next, err := n, None;
      var pos := off + n;
      InBlock(pos, blockSize);
      var idx := pos / blockSize;
      var r := GetBlock(idx);
      if r.Failed? { return n, Some(r.error); }
      StartIs(idx, blockSize);
      var lo := pos - idx * blockSize;
      LengthFrom(size, blockSize, idx, lo);
      if lo >= |r.data| { return n, Some(UnexpectedEof); }
      ghost var before := p[..n];
      next := Copy(p, n, r.data, lo);
      if Trusted() {
        BlockFrom(content, blockSize, idx, lo);
        Joined(content, off, before, r.data, lo, p[..next]);
      }
    }

    /** A failure of one block: the reader's, the context's or the storage's. */
    ghost predicate ReadFails(e: Error)
      reads this
    {
      (e == ReaderClosed && closed) || (e == ContextDone && canceled) || StorageBlamed(e)
    }

    /** copy of a block's tail into the rest of the buffer. */
    static method Copy(p: array<Byte>, n: nat, data: seq<Byte>, lo: nat) returns (next: nat)
      requires n < p.Length && lo < |data|
      modifies p
      ensures n < next <= p.Length && next == n + Min(p.Length - n, |data| - lo)
      ensures p[..next] == old(p[..n]) + data[lo..lo + next - n] && p[next..] == old(p[next..])
    {
      var count := Min(p.Length - n, |data| - lo);
      next := n + count;
      forall j | n <= j < next { p[j] := data[lo + j - n]; }
    }
  }

  /** Bytes read so far, followed by what was copied from a block, are the next bytes of the object. */
  lemma Joined(content: seq<Byte>, off: nat, before: seq<Byte>, data: seq<Byte>, lo: nat, after: seq<Byte>)
    requires off + |before| <= |content| && before == content[off..off + |before|]
    requires lo <= |data| && off + |before| + |data| - lo <= |content|
    requires data[lo..] == content[off + |before|..off + |before| + |data| - lo]
    requires |before| <= |after| <= |before| + |data| - lo && after == before + data[lo..lo + |after| - |before|]
    ensures after == content[off..off + |after|]
  {
    var m := |after| - |before|;
    assert data[lo..lo + m] == data[lo..][..m] == content[off + |before|..off + |before| + m];
    assert content[off..off + |after|] == content[off..off + |before|] + content[off + |before|..off + |after|];
  }

  /** How many bytes there are to read. */
  function Reach(off: int, length: nat, size: int): int {
    if off >= size then 0 else Min(length, size - off)
  }

  ghost predicate RefusedOnce(storage: (nat, int, int) -> Answer, code: nat) {
    exists t: nat, lo: int, hi: int :: storage(t, lo, hi) == Refused(code)
  }

  lemma Later(blocks: seq<Block>, order: seq<nat>, useSeq: nat)
    requires Stamped(blocks, order, useSeq)
    ensures Stamped(blocks, order, useSeq + 1)
  {
  }

  /** A position of the object inside a block has bytes there. */
  lemma LengthFrom(size: int, blockSize: nat, idx: int, lo: nat)
    requires lo < blockSize && StartOf(idx, blockSize) + lo < size
    ensures lo < BlockLength(size, blockSize, idx) && StartOf(idx, blockSize) + BlockLength(size, blockSize, idx) <= size
  {
    hide StartOf;
  }

  /** A position inside a block has bytes there. */
  lemma BlockFrom(content: seq<Byte>, blockSize: nat, idx: int, lo: nat)
    requires lo < blockSize && StartOf(idx, blockSize) + lo < |content|
    ensures var data, pos := BlockOf(content, blockSize, idx), StartOf(idx, blockSize) + lo;
      lo < |data| && pos + |data| - lo <= |content| && data[lo..] == content[pos..pos + |data| - lo]
  {
    hide StartOf;
  }

  lemma Capacity(cb: nat, bs: nat)
    requires 1 <= cb && 1 <= bs <= MAX_BLOCK_SIZE
    ensures 2 <= MAX_CACHE_BYTES / bs
    ensures MostThatFit(Min(cb, MAX_CACHE_BYTES / bs), cb, bs)
  {
    var q := MAX_CACHE_BYTES / bs;
    assert MAX_CACHE_BYTES == q * bs + MAX_CACHE_BYTES % bs;
    assert q <= 1 ==> q * bs <= 1 * bs by { if q <= 1 { Times(q, 1, bs); } }
    Times(Min(cb, q), q, bs);
    assert (q + 1) * bs == q * bs + bs;
  }

  lemma Times(a: int, b: int, c: nat)
    requires a <= b
    ensures a * c <= b * c
  {
  }
}
