/**
 * What the image store's sections do, and what the rules for images and placements mean in pixels and cells
 * (api/tty/image.go).
 */
module ImageEffects {
  import opened Options
  import opened Frames
  import opened Images
  import opened ImageStores

  // ---------------------------------------------------------------- sizes

  lemma QuotientIff(x: int, y: int, max: nat)
    requires y >= 1
    ensures x <= max / y <==> x * y <= max
  {
    var q := max / y;
    assert max == q * y + max % y;
    if x <= q {
      Times(x, q, y);
    } else {
      Times(q + 1, x, y);
      assert (q + 1) * y == q * y + y;
    }
  }

  /** An image's size is accepted exactly when both sides are positive and its pixels are within the limit. */
  lemma SizeOkIff(width: int, height: int)
    ensures SizeOk(width, height) <==> width >= 1 && height >= 1 && width * height <= MAX_IMAGE_PIXELS
  {
    if height >= 1 { QuotientIff(width, height, MAX_IMAGE_PIXELS); }
  }

  lemma ViewportOkIff(cols: int, rows: int)
    ensures ViewportOk(cols, rows) <==>
      1 <= cols <= MAX_VIEWPORT_DIMENSION && 1 <= rows <= MAX_VIEWPORT_DIMENSION && cols * rows <= MAX_VIEWPORT_CELLS
  {
    if cols >= 1 { QuotientIff(rows, cols, MAX_VIEWPORT_CELLS); }
  }

  /** Content is accepted as an image exactly when it is neither empty nor too long and its header names an accepted size. */
  lemma InspectIff(codec: Codec, encoded: seq<Byte>, info: ImageInfo)
    ensures Inspect(codec, encoded) == Some(info) <==>
      && 1 <= |encoded| <= MAX_IMAGE_BYTES && codec.config(encoded) == Some((info.width, info.height))
      && info.width >= 1 && info.height >= 1 && info.width * info.height <= MAX_IMAGE_PIXELS
      && info.id == encoded && info.format == "png" && info.bytes == |encoded|
  {
    SizeOkIff(info.width, info.height);
    hide SizeOk;
  }

  /** Resident content is charged its own bytes and eight for each pixel. */
  lemma ChargeIsMemory(limit: int, s: Store, d: nat)
    requires Reached(limit, s) && d < |s.datas|
    ensures var e := s.datas[d];
      e.charge == |e.encoded| + 8 * (e.info.width * e.info.height) && e.info.width >= 1 && e.info.height >= 1 && e.encoded == e.info.id
  {
    ReachedOk(limit, s);
    assert DataOk(s, d);
  }

  // ---------------------------------------------------------------- sections

  /** The content that a step yields a new handle to: retained from an open one, shared, or imported. */
  function Yields(s: Store, st: Step): Option<seq<Byte>> {
    match st
    case RetainImage(h) => if IsOpen(s, h) then Some(s.datas[s.handles[h].value].encoded) else None
    case Admit(info) => if !s.closed && info.id in s.entries then Some(info.id) else None
    case Finish(_, encoded, _) => if s.closed then None else Some(encoded)
    case _ => None
  }

  /**
   * In every reachable store exactly these steps make a handle, one, to that content. A handle made before
   * shows what it showed, and stays open until its own close.
   */
  lemma HandlesExactly(limit: int, s: Store, st: Step, h: nat)
    requires Reached(limit, s) && Enabled(s, st)
    ensures var t := Apply(s, st);
      && |t.handles| == |s.handles| + (if Yields(s, st).Some? then 1 else 0)
      && (Yields(s, st).Some? ==>
            IsOpen(t, |s.handles|) && t.datas[t.handles[|s.handles|].value].encoded == Yields(s, st).value)
      && (h < |s.handles| ==>
            && (IsOpen(t, h) <==> IsOpen(s, h) && st != CloseImage(h))
            && (IsOpen(t, h) ==> t.handles[h] == s.handles[h] && t.datas[t.handles[h].value].encoded == s.datas[s.handles[h].value].encoded))
  {
    hide Resident, Sum, Count, Reached;
    ReachedOk(limit, s);
    if st.Admit? && st.info.id in s.entries { assert DataOk(s, s.entries[st.info.id]); }
    if st.Finish? && st.info.id in s.entries { assert DataOk(s, s.entries[st.info.id]); }
    hide DataOk;
  }

  /** What the content declared in `info` weighs: its bytes, and eight for each pixel. */
  function Weight(info: ImageInfo): int {
    info.bytes + 8 * (info.width * info.height)
  }

  predicate Shared(s: Store, h: nat)
    requires h < |s.handles|
  {
    exists g: nat :: g < |s.handles| && g != h && s.handles[g] == s.handles[h]
  }

  /** What a step adds to what is used: reservations that fit an open store, and what is given back. */
  function Uses(s: Store, st: Step): int
    requires Enabled(s, st)
  {
    match st
    case Admit(info) => if !s.closed && info.id !in s.entries && s.used + Weight(info) <= s.limit then Weight(info) else 0
    case Reserve(info) => if !s.closed && s.used + Weight(info) <= s.limit then Weight(info) else 0
    case Abort(i) => var held: int := s.pending[i]; -held
    case Finish(_, _, info) => if s.closed || info.id in s.entries then -Weight(info) else 0
    case CloseImage(h) => if IsOpen(s, h) && !Shared(s, h) then -Weight(s.datas[s.handles[h].value].info) else 0
    case _ => 0
  }

  /** In every reachable store what is used moves exactly so. */
  lemma UsedExactly(limit: int, s: Store, st: Step)
    requires Reached(limit, s) && Enabled(s, st)
    ensures Apply(s, st).used == s.used + Uses(s, st)
  {
    hide Resident, Sum, Count, Reached, Shared;
    ReachedOk(limit, s);
    if st.CloseImage? && IsOpen(s, st.h) {
      assert DataOk(s, s.handles[st.h].value);
      OpenIsCounted(s, st.h);
      OthersCounted(s, st.h);
    }
    hide DataOk;
  }

  /**
   * Closing a handle closes it and no other. Its content leaves the store, and its charge is given back,
   * exactly when no other handle to it is open.
   */
  lemma CloseFrees(limit: int, s: Store, h: nat)
    requires Reached(limit, s) && IsOpen(s, h)
    ensures var t, d := Apply(s, CloseImage(h)), s.handles[h].value;
      && !IsOpen(t, h) && t.handles == s.handles[h := None]
      && t.used == (if Shared(s, h) then s.used else s.used - s.datas[d].charge)
      && (s.datas[d].info.id in t.entries <==> Shared(s, h))
      && (forall id :: id in s.entries && id != s.datas[d].info.id ==> id in t.entries && t.entries[id] == s.entries[id])
  {
    ReachedOk(limit, s);
    var d := s.handles[h].value;
    assert DataOk(s, d);
    OpenIsCounted(s, h);
    OthersCounted(s, h);
    hide Resident, Sum, Count, Reached, DataOk, Shared;
  }

  /** A second handle to the same content shows in its count. */
  lemma OthersCounted(s: Store, h: nat)
    requires Inv(s) && IsOpen(s, h)
    ensures s.datas[s.handles[h].value].refs > 1 <==> Shared(s, h)
  {
    var d := s.handles[h].value;
    var rest := s.handles[h := None];
    assert DataOk(s, d);
    CountUpdate(s.handles, h, None, d);
    if Shared(s, h) {
      var g: nat :| g < |s.handles| && g != h && s.handles[g] == s.handles[h];
      assert rest[g] == Some(d);
      CountPositive(rest, g, d);
    } else {
      CountNone(rest, d);
    }
  }

  // ---------------------------------------------------------------- what a placement shows

  predicate Covers(r: PixelRect, x: int, y: int) {
    r.x <= x < r.x + r.width && r.y <= y < r.y + r.height
  }

  predicate InImage(info: ImageInfo, x: int, y: int) {
    0 <= x < info.width && 0 <= y < info.height
  }

  /**
   * A retained placement names its image and shows the pixels of its source rectangle, and without one the whole
   * image; without a kind it is a rectangle; the rest is as given.
   */
  lemma ShowsPixels(p: Placement, info: ImageInfo, x: int, y: int)
    ensures var q := Resolved(p, info);
      && (Covers(q.source, x, y) <==>
            if p.source.x == 0 && p.source.y == 0 && p.source.width == 0 && p.source.height == 0 then InImage(info, x, y)
            else Covers(p.source, x, y))
      && q.image == info && q.kind == (if |p.kind| == 0 then "rect" else p.kind)
      && q.id == p.id && q.alt == p.alt && q.destination == p.destination && q.z == p.z
  {
    if p.source.x == 0 && p.source.y == 0 && p.source.width == 0 && p.source.height == 0 {
      assert p.source == PixelRect(0, 0, 0, 0);
    }
  }

  /** The source fits exactly when it shows something and nothing outside the image. */
  lemma InsideIff(src: PixelRect, info: ImageInfo)
    ensures Inside(src, info) <==>
      src.width >= 1 && src.height >= 1 && forall x, y :: Covers(src, x, y) ==> InImage(info, x, y)
  {
    if src.width >= 1 && src.height >= 1 && !Inside(src, info) {
      assert Covers(src, src.x, src.y);
      assert Covers(src, src.x + src.width - 1, src.y + src.height - 1);
    }
  }

  /**
   * What a placement must be, in its own terms: a short name and description, a rectangle of cells near the
   * screen and within the limits, and a part of an open image.
   */
  ghost predicate Presentable(s: Store, item: PlacedImage) {
    var p, d := item.placement, item.placement.destination;
    && 1 <= |p.id| <= 128 && |p.alt| <= 256 && (p.kind == "" || p.kind == "rect")
    && -65535 <= d.x <= 65535 && -65535 <= d.y <= 65535
    && 1 <= d.cols <= 65535 && 1 <= d.rows <= 65535 && d.cols * d.rows <= 262144
    && item.resource.Some? && IsOpen(s, item.resource.value)
    && var info := InfoOf(s, item.resource.value);
       p.source == PixelRect(0, 0, 0, 0)
       || (p.source.width >= 1 && p.source.height >= 1 && forall x, y :: Covers(p.source, x, y) ==> InImage(info, x, y))
  }

  lemma PresentableIff(s: Store, item: PlacedImage)
    requires Inv(s)
    ensures Presentable(s, item) <==>
      && WellPlaced(item) && IsOpen(s, item.resource.value)
      && Inside(SourceOf(item.placement, InfoOf(s, item.resource.value)), InfoOf(s, item.resource.value))
  {
    var p, d := item.placement, item.placement.destination;
    ViewportOkIff(d.cols, d.rows);
    InsideIff(p.source, if item.resource.Some? && IsOpen(s, item.resource.value) then InfoOf(s, item.resource.value) else ImageInfo([], "", 0, 0, 0));
    if item.resource.Some? && IsOpen(s, item.resource.value) {
      assert DataOk(s, s.handles[item.resource.value].value);
    }
    hide Inv, ViewportOk, Covers, InImage;
  }

  /**
   * In every reachable store a list of placements is accepted, called alone, if and only if there are at most 256,
   * each presentable, and no two of the same name.
   */
  lemma AcceptedIff(limit: int, s: Store, items: seq<PlacedImage>)
    requires Reached(limit, s)
    ensures Failure(s, items).None? <==>
      && |items| <= 256
      && (forall i :: 0 <= i < |items| ==> Presentable(s, items[i]))
      && (forall i, j :: 0 <= i < j < |items| ==> items[i].placement.id != items[j].placement.id)
  {
    ReachedOk(limit, s);
    PlaceableIff(s, items);
    hide Presentable, WellPlaced, Inside, SourceOf, FirstFailure, Inv, Reached, IsOpen;
    forall i | 0 <= i < |items|
      ensures Presentable(s, items[i]) <==>
        && WellPlaced(items[i]) && IsOpen(s, items[i].resource.value)
        && Inside(SourceOf(items[i].placement, InfoOf(s, items[i].resource.value)), InfoOf(s, items[i].resource.value))
    {
      PresentableIff(s, items[i]);
    }
  }
}
