/** The framed wire format: version, class, length, sequence number, ack, payload (cluster/internode/connection.go). */
module Wire {
  import opened Frames

  // ---------------------------------------------------------------- little-endian integers

  /** One more than the largest integer of `width` bytes. */
  function Limit(width: nat): (n: nat)
    ensures n >= 1
  {
    if width == 0 then 1 else 256 * Limit(width - 1)
  }

  function Encode(n: nat, width: nat): (bs: Data)
    ensures |bs| == width
  {
    if width == 0 then [] else [(n % 256) as Byte] + Encode(n / 256, width - 1)
  }

  function Decode(bs: Data): (n: nat)
    ensures n < Limit(|bs|)
  {
    if bs == [] then 0 else bs[0] as nat + 256 * Decode(bs[1..])
  }

  lemma {:induction false} DecodeEncode(n: nat, width: nat)
    requires n < Limit(width)
    ensures Decode(Encode(n, width)) == n
  {
    if width > 0 {
      DecodeEncode(n / 256, width - 1);
      assert Encode(n, width)[1..] == Encode(n / 256, width - 1);
    }
  }

  lemma {:induction false} EncodeDecode(bs: Data)
    ensures Encode(Decode(bs), |bs|) == bs
  {
    if bs != [] {
      EncodeDecode(bs[1..]);
    }
  }

  // ---------------------------------------------------------------- frames

  const VERSION: Byte := 3
  const HEADER: nat := 22
  const NUM_CLASSES: nat := 5
  const SURFACE: Byte := 4
  const GOSSIP: Byte := 1
  const RESUME: Byte := 0xFE
  const ACK: Byte := 0xFF

  datatype Frame = Frame(kind: Byte, num: nat, ack: nat, data: Data)

  datatype Violation = Version | AckPayload | BadResume | UnknownClass | SequenceRule | SurfaceTooLarge | TooLarge

  datatype Outcome = Got(frame: Frame, rest: Data) | Eof | UnexpectedEof | Violates(why: Violation)

  /** A frame whose integers fit their header fields. */
  predicate Fits(f: Frame) {
    f.num < Limit(8) && f.ack < Limit(8) && |f.data| < Limit(4)
  }

  /** What the writer puts on the wire. */
  function Encoded(f: Frame): Data {
    [VERSION, f.kind] + Encode(|f.data|, 4) + Encode(f.num, 8) + Encode(f.ack, 8) + f.data
  }

  datatype Verdict = Fine | Breaks(rule: Violation)

  /** The first rule a header breaks; `size` is the payload length it announces. */
  function Check(kind: Byte, size: nat, num: nat, maxSize: nat): Verdict {
    if kind == ACK && (size != 0 || num != 0) then Breaks(AckPayload)
    else if kind == RESUME && (size != 8 || num == 0) then Breaks(BadResume)
    else if kind != ACK && kind != RESUME && kind as nat >= NUM_CLASSES then Breaks(UnknownClass)
    else if kind as nat < NUM_CLASSES && (kind != GOSSIP) != (num != 0) then Breaks(SequenceRule)
    else if kind == SURFACE && size > MAX_SURFACE_FRAME_SIZE then Breaks(SurfaceTooLarge)
    else if size > maxSize then Breaks(TooLarge)
    else Fine
  }

  /** readFrame on the bytes a socket still delivers before it ends. */
  function Read(s: Data, maxSize: nat): Outcome {
    if s == [] then Eof
    else if |s| < HEADER then UnexpectedEof
    else if s[0] != VERSION then Violates(Version)
    else
      var kind, size, num, ack := s[1], Decode(s[2..6]), Decode(s[6..14]), Decode(s[14..22]);
      var verdict := Check(kind, size, num, maxSize);
      if verdict.Breaks? then Violates(verdict.rule)
      else if size == 0 then Got(Frame(kind, num, ack, []), s[22..])
      else if |s| == HEADER then Eof
      else if |s| < HEADER + size then UnexpectedEof
      else Got(Frame(kind, num, ack, s[22..22 + size]), s[22 + size..])
  }

  /** The frames the protocol sends: their integers fit and their header obeys the rules. */
  predicate WellFormed(f: Frame, maxSize: nat) {
    Fits(f) && Check(f.kind, |f.data|, f.num, maxSize) == Fine
  }

  /** Where the fields of a written frame lie, whatever follows it. */
  lemma Layout(f: Frame, rest: Data)
    requires Fits(f)
    ensures var s := Encoded(f) + rest;
      && |s| == HEADER + |f.data| + |rest|
      && s[0] == VERSION && s[1] == f.kind
      && Decode(s[2..6]) == |f.data| && Decode(s[6..14]) == f.num && Decode(s[14..22]) == f.ack
      && s[22..22 + |f.data|] == f.data && s[22 + |f.data|..] == rest
  {
    var s := Encoded(f) + rest;
    var a, b, c := Encode(|f.data|, 4), Encode(f.num, 8), Encode(f.ack, 8);
    DecodeEncode(|f.data|, 4);
    DecodeEncode(f.num, 8);
    DecodeEncode(f.ack, 8);
    hide Encode, Decode, Limit;
    assert s == [VERSION, f.kind] + a + b + c + f.data + rest;
    assert s[2..6] == a && s[6..14] == b && s[14..22] == c;
    assert s[22..22 + |f.data|] == f.data && s[22 + |f.data|..] == rest;
  }

  /**
   * Round trip: the reader gets back exactly the frame written, and what follows it, if and only if the
   * frame obeys the header rules; otherwise it reports the rule broken.
   */
  lemma RoundTrip(f: Frame, rest: Data, maxSize: nat)
    requires Fits(f)
    ensures Read(Encoded(f) + rest, maxSize) == Got(f, rest) <==> WellFormed(f, maxSize)
    ensures !WellFormed(f, maxSize) ==> Read(Encoded(f) + rest, maxSize).Violates?
  {
    Layout(f, rest);
    hide Encoded, Decode;
    if |f.data| == 0 {
      assert f.data == [];
    }
  }

  /** The format is not malleable: a frame is read only from the bytes its writer produces. */
  lemma ReadIsWritten(s: Data, maxSize: nat)
    requires Read(s, maxSize).Got?
    ensures var g := Read(s, maxSize); s == Encoded(g.frame) + g.rest && WellFormed(g.frame, maxSize)
  {
    var g := Read(s, maxSize);
    EncodeDecode(s[2..6]);
    EncodeDecode(s[6..14]);
    EncodeDecode(s[14..22]);
    hide Encode, Decode, Limit;
    var size := |g.frame.data|;
    assert size == Decode(s[2..6]);
    assert s == [VERSION, s[1]] + s[2..6] + s[6..14] + s[14..22] + s[22..22 + size] + s[22 + size..];
  }

  /** The header rules: of the ack and resume frames, then of the classes gossip, Raft control, broadcast, Raft RPC and surface. */
  predicate Obeys(kind: int, size: nat, num: nat) {
    || (kind == 0xFF && size == 0 && num == 0)
    || (kind == 0xFE && size == 8 && num > 0)
    || (kind == 1 && num == 0)
    || ((kind == 0 || kind == 2 || kind == 3) && num > 0)
    || (kind == 4 && num > 0 && size <= MAX_SURFACE_FRAME_SIZE)
  }

  /**
   * A frame is read exactly from a whole one of this version that obeys its class's rules and the size
   * limit; it is the one its header announces. A header that breaks them is a violation whatever follows.
   */
  lemma ReadIff(s: Data, maxSize: nat)
    requires |s| >= 22
    ensures var size, num, ack, r := Decode(s[2..6]), Decode(s[6..14]), Decode(s[14..22]), Read(s, maxSize);
      var fine := s[0] == 3 && Obeys(s[1] as int, size, num) && size <= maxSize;
      && (r.Got? <==> fine && |s| >= 22 + size)
      && (r.Got? ==> r.frame == Frame(s[1], num, ack, s[22..22 + size]) && r.rest == s[22 + size..])
      && (r.Violates? <==> !fine)
      && (r.Violates? && s[0] != 3 ==> r.why == Version)
      && (r.Violates? && s[0] == 3 ==>
            match s[1] as int
            case 0xFF => r.why == if size == 0 && num == 0 then TooLarge else AckPayload
            case 0xFE => r.why == if size == 8 && num > 0 then TooLarge else BadResume
            case k =>
              r.why == if k > 4 then UnknownClass
                       else if (k == 1) != (num == 0) then SequenceRule
                       else if k == 4 && size > MAX_SURFACE_FRAME_SIZE then SurfaceTooLarge
                       else TooLarge)
  {
    hide Decode;
  }

  // ---------------------------------------------------------------- streams and cuts

  function Stream(fs: seq<Frame>): Data {
    if fs == [] then [] else Encoded(fs[0]) + Stream(fs[1..])
  }

  datatype Session = Session(frames: seq<Frame>, end: Outcome)

  /** Reads frame after frame until the stream yields none. */
  function ReadAll(s: Data, maxSize: nat): Session
    decreases |s|
  {
    var r := Read(s, maxSize);
    if r.Got? then
      var more := ReadAll(r.rest, maxSize);
      Session([r.frame] + more.frames, more.end)
    else Session([], r)
  }

  ghost predicate AllWellFormed(fs: seq<Frame>, maxSize: nat) {
    forall i :: 0 <= i < |fs| ==> WellFormed(fs[i], maxSize)
  }

  /** A frame cut short anywhere reads as an ended stream, never as another frame or a violation. */
  lemma CutFrame(f: Frame, maxSize: nat, n: nat)
    requires WellFormed(f, maxSize) && n < |Encoded(f)|
    ensures Read(Encoded(f)[..n], maxSize).Eof? || Read(Encoded(f)[..n], maxSize).UnexpectedEof?
  {
    Layout(f, []);
    assert Encoded(f) + [] == Encoded(f);
    hide Encoded, Decode;
    var s := Encoded(f);
    var c := s[..n];
    if n >= HEADER {
      assert c[2..6] == s[2..6] && c[6..14] == s[6..14] && c[14..22] == s[14..22];
    }
  }

  lemma WellFormedFits(f: Frame, maxSize: nat)
    requires WellFormed(f, maxSize)
    ensures Fits(f)
  {
  }

  lemma NothingToRead(maxSize: nat)
    ensures Read([], maxSize).Eof?
  {
  }

  /**
   * A socket cut anywhere delivers exactly the frames written whole before the cut: a prefix of the
   * frames sent, followed by the end of the stream.
   */
  lemma {:induction false} CutDeliversPrefix(fs: seq<Frame>, maxSize: nat, n: nat)
    requires AllWellFormed(fs, maxSize) && n <= |Stream(fs)|
    ensures var got := ReadAll(Stream(fs)[..n], maxSize);
      && got.frames <= fs
      && (got.end.Eof? || got.end.UnexpectedEof?)
      && |Stream(got.frames)| <= n
      && (|got.frames| < |fs| ==> n < |Stream(got.frames)| + |Encoded(fs[|got.frames|])|)
    decreases |fs|
  {
    hide Encoded, Read, WellFormed;
    if fs == [] {
      assert Stream(fs)[..n] == [];
      NothingToRead(maxSize);
    } else {
      assert WellFormed(fs[0], maxSize);
      var s, head := Stream(fs), Encoded(fs[0]);
      if n < |head| {
        assert s[..n] == head[..n];
        CutFrame(fs[0], maxSize, n);
        assert ReadAll(s[..n], maxSize).frames == [];
      } else {
        var rest := Stream(fs[1..])[..n - |head|];
        assert s[..n] == head + rest;
        assert Fits(fs[0]) by { WellFormedFits(fs[0], maxSize); }
        RoundTrip(fs[0], rest, maxSize);
        CutDeliversPrefix(fs[1..], maxSize, n - |head|);
        var got := ReadAll(rest, maxSize);
        assert ReadAll(s[..n], maxSize).frames == [fs[0]] + got.frames;
        assert ([fs[0]] + got.frames)[1..] == got.frames;
      }
    }
  }

  // ---------------------------------------------------------------- writing

  method PutUint(a: array<Byte>, at: nat, width: nat, n: nat)
    requires at + width <= a.Length
    modifies a
    ensures a[at..at + width] == Encode(n, width)
    ensures forall k :: 0 <= k < a.Length && !(at <= k < at + width) ==> a[k] == old(a[k])
  {
    var m, i := n, 0;
    while i < width
      invariant 0 <= i <= width
      invariant a[at..at + i] + Encode(m, width - i) == Encode(n, width)
      invariant forall k :: 0 <= k < a.Length && !(at <= k < at + i) ==> a[k] == old(a[k])
    {
      ghost var done := a[at..at + i];
      a[at + i] := (m % 256) as Byte;
      assert a[at..at + i + 1] == done + [(m % 256) as Byte];
      m, i := m / 256, i + 1;
    }
  }

  /** writeFrame: a fixed header buffer, then the payload; nothing is written when the payload is too long. */
  method WriteFrame(f: Frame) returns (out: Data, ok: bool)
    ensures ok == (|f.data| < Limit(4))
    ensures out == if ok then Encoded(f) else []
  {
    hide Encode;
    if |f.data| > 0xFFFF_FFFF {
      return [], false;
    }
    var header := new Byte[HEADER];
    header[0], header[1] := VERSION, f.kind;
    PutUint(header, 2, 4, |f.data|);
    ghost var sizes := header[2..6];
    PutUint(header, 6, 8, f.num);
    ghost var nums := header[6..14];
    PutUint(header, 14, 8, f.ack);
    assert header[2..6] == sizes && header[6..14] == nums;
    assert header[..] == [VERSION, f.kind] + header[2..6] + header[6..14] + header[14..22];
    out, ok := header[..] + f.data, true;
  }
}
