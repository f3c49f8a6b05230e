/** The image store's methods, and retaining a whole list of placements or none (api/tty/image.go). */
module ImageStores {
  import opened Options
  import opened Frames
  import opened Images

  // ---------------------------------------------------------------- placements

  datatype PixelRect = PixelRect(x: int, y: int, width: int, height: int)
  datatype CellRect = CellRect(x: int, y: int, cols: int, rows: int)

  datatype Placement = Placement(
    id: string,
    kind: string,
    alt: string,
    image: ImageInfo,
    destination: CellRect,
    source: PixelRect,
    z: int)

  /** A placement and the handle it shows. */
  datatype PlacedImage = PlacedImage(resource: Option<nat>, placement: Placement)

  datatype Retaining = Kept(images: seq<PlacedImage>) | Failed(error: Error)

  predicate ViewportOk(cols: int, rows: int) {
    1 <= cols <= MAX_VIEWPORT_DIMENSION && 1 <= rows <= MAX_VIEWPORT_DIMENSION && rows <= MAX_VIEWPORT_CELLS / cols
  }

  function KindOf(p: Placement): string {
    if p.kind == "" then "rect" else p.kind
  }

  /** What is checked before the image is looked at. */
  predicate WellPlaced(item: PlacedImage) {
    var p, d := item.placement, item.placement.destination;
    && p.id != "" && |p.id| <= 128 && KindOf(p) == "rect" && item.resource.Some? && |p.alt| <= 256
    && -MAX_VIEWPORT_DIMENSION <= d.x <= MAX_VIEWPORT_DIMENSION && -MAX_VIEWPORT_DIMENSION <= d.y <= MAX_VIEWPORT_DIMENSION
    && ViewportOk(d.cols, d.rows)
  }

  /** An empty source rectangle means the whole image. */
  function SourceOf(p: Placement, info: ImageInfo): PixelRect {
    if p.source == PixelRect(0, 0, 0, 0) then PixelRect(0, 0, info.width, info.height) else p.source
  }

  predicate Inside(src: PixelRect, info: ImageInfo) {
    src.x >= 0 && src.y >= 0 && src.width >= 1 && src.height >= 1 && src.x <= info.width - src.width && src.y <= info.height - src.height
  }

  function Resolved(p: Placement, info: ImageInfo): Placement {
    p.(kind := KindOf(p), image := info, source := SourceOf(p, info))
  }

  function InfoOf(s: Store, h: nat): ImageInfo
    requires IsOpen(s, h)
  {
    s.datas[s.handles[h].value].info
  }

  predicate IdUsed(items: seq<PlacedImage>, id: string) {
    exists i :: 0 <= i < |items| && items[i].placement.id == id
  }

  /** Why an item cannot follow the items before it, if so. */
  function ItemFailure(s: Store, before: seq<PlacedImage>, item: PlacedImage): Option<Error> {
    if !WellPlaced(item) || IdUsed(before, item.placement.id) then Some(Invalid)
    else if !IsOpen(s, item.resource.value) then Some(IsClosed)
    else
      var info := InfoOf(s, item.resource.value);
      if Inside(SourceOf(item.placement, info), info) then None else Some(Invalid)
  }

  /** The first failure in the list, on the images as they are. */
  function FirstFailure(s: Store, items: seq<PlacedImage>): Option<Error> {
    if items == [] then None
    else
      var n := |items| - 1;
      var f := FirstFailure(s, items[..n]);
      if f.Some? then f else ItemFailure(s, items[..n], items[n])
  }

  function Failure(s: Store, items: seq<PlacedImage>): Option<Error> {
    if |items| > MAX_IMAGE_PLACEMENTS then Some(Budget) else FirstFailure(s, items)
  }

  /** A list is placeable exactly when each item is and no two share an id. */
  lemma {:induction false} PlaceableIff(s: Store, items: seq<PlacedImage>)
    ensures FirstFailure(s, items).None? <==>
      && (forall i :: 0 <= i < |items| ==>
            && WellPlaced(items[i]) && IsOpen(s, items[i].resource.value)
            && Inside(SourceOf(items[i].placement, InfoOf(s, items[i].resource.value)), InfoOf(s, items[i].resource.value)))
      && (forall i, j :: 0 <= i < j < |items| ==> items[i].placement.id != items[j].placement.id)
  {
    hide WellPlaced, Inside, SourceOf, IsOpen, ItemFailure;
    if items != [] {
      var n := |items| - 1;
      PlaceableIff(s, items[..n]);
      ItemPlaceable(s, items[..n], items[n]);
      forall i | 0 <= i < n ensures items[..n][i] == items[i] {}
    }
  }

  lemma ItemPlaceable(s: Store, before: seq<PlacedImage>, item: PlacedImage)
    ensures ItemFailure(s, before, item).None? <==>
      && WellPlaced(item) && IsOpen(s, item.resource.value)
      && Inside(SourceOf(item.placement, InfoOf(s, item.resource.value)), InfoOf(s, item.resource.value))
      && (forall i :: 0 <= i < |before| ==> before[i].placement.id != item.placement.id)
  {
    hide Inside, SourceOf, IsOpen;
  }

  // ---------------------------------------------------------------- more handles

  /** The store with more handles, and the counts that go with them. */
  function WithHandles(s: Store, extra: seq<Option<nat>>): Store {
    s.(handles := s.handles + extra,
       datas := seq(|s.datas|, d requires 0 <= d < |s.datas| => s.datas[d].(refs := s.datas[d].refs + Count(extra, d))))
  }

  function DatasOf(s: Store, items: seq<PlacedImage>): seq<Option<nat>> {
    seq(|items|, i requires 0 <= i < |items| =>
      if items[i].resource.Some? && items[i].resource.value < |s.handles| then s.handles[items[i].resource.value] else None)
  }

  function Nones(n: nat): seq<Option<nat>> {
    seq(n, _ => None)
  }

  lemma WithNothing(s: Store, n: nat)
    ensures WithHandles(s, Nones(n)) == s.(handles := s.handles + Nones(n))
    ensures WithHandles(s, []) == s
  {
    forall d: nat | d < |s.datas| ensures Count(Nones(n), d) == 0 { CountNone(Nones(n), d); }
    assert WithHandles(s, []).datas == s.datas;
    assert WithHandles(s, []).handles == s.handles;
    assert WithHandles(s, Nones(n)).datas == s.datas;
  }

  lemma RetainWith(s: Store, extra: seq<Option<nat>>, h: nat)
    requires IsOpen(s, h)
    ensures IsOpen(WithHandles(s, extra), h)
    ensures Retained(WithHandles(s, extra), h) == WithHandles(s, extra + [s.handles[h]])
  {
    var t, u := Retained(WithHandles(s, extra), h), WithHandles(s, extra + [s.handles[h]]);
    forall d: nat | d < |s.datas| ensures t.datas[d] == u.datas[d] { CountAppend(extra, s.handles[h], d); }
    assert t.datas == u.datas;
    assert t.handles == u.handles;
  }

  /** Old handles are as open as before, and a new one shows what it was made from. */
  lemma SameOpen(s: Store, extra: seq<Option<nat>>, h: nat)
    requires h < |s.handles|
    ensures IsOpen(WithHandles(s, extra), h) <==> IsOpen(s, h)
    ensures IsOpen(s, h) ==>
      var t := WithHandles(s, extra + [s.handles[h]]);
      IsOpen(t, |s.handles| + |extra|) && InfoOf(t, |s.handles| + |extra|) == InfoOf(s, h)
  {
  }

  lemma DatasAppend(s: Store, items: seq<PlacedImage>, item: PlacedImage)
    requires item.resource.Some? && item.resource.value < |s.handles|
    ensures DatasOf(s, items + [item]) == DatasOf(s, items) + [s.handles[item.resource.value]]
  {
  }

  /** Closing one of the new handles while an old one is open takes nothing out of the store. */
  lemma CloseWith(s: Store, extra: seq<Option<nat>>, j: nat)
    requires Inv(s) && j < |extra| && extra[j].Some? && extra[j].value < |s.datas| && s.datas[extra[j].value].refs > 0
    ensures HandleClosed(WithHandles(s, extra), |s.handles| + j) == WithHandles(s, extra[j := None])
  {
    var w := WithHandles(s, extra);
    var t, u := HandleClosed(w, |s.handles| + j), WithHandles(s, extra[j := None]);
    var d := extra[j].value;
    CountPositive(extra, j, d);
    assert w.handles[|s.handles| + j] == Some(d);
    forall i: nat | i < |s.datas| ensures t.datas[i] == u.datas[i] { CountUpdate(extra, j, None, i); }
    assert t.datas == u.datas;
    assert t.handles == u.handles;
  }

  function CloseMany(s: Store, hs: seq<nat>): Store {
    if hs == [] then s else HandleClosed(CloseMany(s, hs[..|hs| - 1]), hs[|hs| - 1])
  }

  /** Closing the first `k` new handles undoes them. */
  lemma {:induction false} CloseManyUndoes(s: Store, extra: seq<Option<nat>>, hs: seq<nat>)
    requires Inv(s) && |hs| <= |extra|
    requires forall j :: 0 <= j < |hs| ==> hs[j] == |s.handles| + j
    requires forall j :: 0 <= j < |hs| ==> extra[j].Some? && extra[j].value < |s.datas| && s.datas[extra[j].value].refs > 0
    ensures CloseMany(WithHandles(s, extra), hs) == WithHandles(s, Nones(|hs|) + extra[|hs|..])
  {
    hide Inv, WithHandles, HandleClosed, Count;
    if hs == [] {
      assert Nones(0) + extra[0..] == extra;
    } else {
      var n := |hs| - 1;
      CloseManyUndoes(s, extra, hs[..n]);
      var part := Nones(n) + extra[n..];
      assert part[n] == extra[n];
      CloseWith(s, part, n);
      assert part[n := None] == Nones(n + 1) + extra[n + 1..];
    }
  }

  lemma {:induction false} FailsAt(s: Store, items: seq<PlacedImage>, i: nat)
    requires i < |items| && FirstFailure(s, items[..i]).None? && ItemFailure(s, items[..i], items[i]).Some?
    ensures FirstFailure(s, items) == ItemFailure(s, items[..i], items[i])
  {
    var n := |items| - 1;
    if i < n {
      assert items[..n][..i] == items[..i];
      FailsAt(s, items[..n], i);
    }
  }

  /** The placements retained for the first items, each with a handle of its own. */
  ghost predicate Retains(s: Store, items: seq<PlacedImage>, out: seq<PlacedImage>) {
    && |out| == |items|
    && forall i :: 0 <= i < |items| ==>
         && items[i].resource.Some? && IsOpen(s, items[i].resource.value)
         && out[i] == PlacedImage(Some(|s.handles| + i), Resolved(items[i].placement, InfoOf(s, items[i].resource.value)))
  }

  lemma DatasOpen(s: Store, items: seq<PlacedImage>, out: seq<PlacedImage>, j: nat)
    requires Inv(s) && Retains(s, items, out) && j < |items|
    ensures DatasOf(s, items)[j].Some? && DatasOf(s, items)[j].value < |s.datas| && s.datas[DatasOf(s, items)[j].value].refs > 0
  {
    OpenIsCounted(s, items[j].resource.value);
  }

  /** Closing what was retained leaves the store as it was, with spent handles. */
  lemma ReleasedAll(s: Store, items: seq<PlacedImage>, out: seq<PlacedImage>, spent: nat, hs: seq<nat>)
    requires Inv(s) && Retains(s, items, out) && |hs| == |out| && forall j :: 0 <= j < |hs| ==> hs[j] == |s.handles| + j
    ensures CloseMany(WithHandles(s, DatasOf(s, items) + Nones(spent)), hs) == s.(handles := s.handles + Nones(|hs| + spent))
  {
    hide Inv, WithHandles, CloseMany, DatasOf, Resolved, Count;
    var extra := DatasOf(s, items) + Nones(spent);
    DatasLength(s, items);
    forall j | 0 <= j < |hs| ensures extra[j].Some? && extra[j].value < |s.datas| && s.datas[extra[j].value].refs > 0 {
      DatasOpen(s, items, out, j);
    }
    CloseManyUndoes(s, extra, hs);
    assert Nones(|hs|) + extra[|hs|..] == Nones(|hs| + spent);
    WithNothing(s, |hs| + spent);
  }

  // ---------------------------------------------------------------- the store

  datatype Admission = Refused(error: Error) | Shared(handle: nat) | Reserving

  datatype Result = Ok(handle: nat) | Err(error: Error)

  class ImageStore {
    var limit: nat
    var used: int
    var closed: bool
    var datas: seq<ImageData>
    var entries: map<seq<Byte>, nat>
    var handles: seq<Option<nat>>
    ghost var pending: seq<nat>

    ghost function View(): Store
      reads this
    {
      Store(limit, used, closed, datas, entries, handles, pending)
    }

    constructor (budget: int)
      ensures View() == NewStore(budget) && Inv(View())
    {
      limit := if budget < 0 then 0 else budget;
      used, closed, datas, entries, handles, pending := 0, false, [], map[], [], [];
    }

    /** A new handle to data `d`, under the lock. */
    method Open(d: nat) returns (h: nat)
      requires d < |datas|
      modifies `datas, `handles
      ensures View() == Opened(old(View()), d) && h == |old(handles)|
    {
      datas := datas[d := datas[d].(refs := datas[d].refs + 1)];
      h := |handles|;
      handles := handles + [Some(d)];
    }

    method Admit(info: ImageInfo) returns (a: Admission)
      requires Inv(View()) && DeclaredOk(info)
      modifies this
      ensures EntryOk(old(View()), info.id) && View() == Admitted(old(View()), info) && Inv(View())
      ensures a == (if old(closed) then Refused(IsClosed) else if info.id in old(entries) then Shared(|old(handles)|)
                    else if Fits(old(View()), ImageCharge(info)) then Reserving else Refused(Budget))
    {
      AdmittedOk(View(), info);
      hide Inv;
      if closed { return Refused(IsClosed); }
      if info.id in entries {
        var h := Open(entries[info.id]);
        return Shared(h);
      }
      a := Reserve(info);
    }

    method Reserve(info: ImageInfo) returns (a: Admission)
      requires DeclaredOk(info)
      modifies `used, `pending
      ensures View() == Reserved(old(View()), ImageCharge(info))
      ensures a == (if closed then Refused(IsClosed) else if Fits(old(View()), ImageCharge(info)) then Reserving else Refused(Budget))
    {
      var charge := ImageCharge(info);
      if closed { return Refused(IsClosed); }
      if charge > limit - used { return Refused(Budget); }
      used := used + charge;
      pending := pending + [charge];
      a := Reserving;
    }

    method ReleaseCharge(charge: nat, ghost i: nat)
      requires i < |pending| && pending[i] == charge
      modifies `used, `pending
      ensures View() == Aborted(old(View()), i)
    {
      used := used - charge;
      pending := pending[i := 0];
    }

    /** finishImport after the content decoded. */
    method FinishImport(encoded: seq<Byte>, info: ImageInfo, ghost i: nat) returns (r: Result)
      requires Inv(View()) && Finishes(View(), i, encoded, info)
      modifies this
      ensures EntryOk(old(View()), info.id) && View() == Completed(old(View()), i, encoded, info) && Inv(View())
      ensures r == if closed then Err(IsClosed) else Ok(|old(handles)|)
    {
      CompletedOk(View(), i, encoded, info);
      hide Inv;
      var charge := ImageCharge(info);
      if closed {
        ReleaseCharge(charge, i);
        return Err(IsClosed);
      }
      if info.id in entries {
        ReleaseCharge(charge, i);
        var h := Open(entries[info.id]);
        return Ok(h);
      }
      r := Ok(|handles|);
      pending := pending[i := 0];
      entries := entries[info.id := |datas|];
      handles := handles + [Some(|datas|)];
      datas := datas + [ImageData(encoded, info, 1, charge)];
    }

    /** ImportPNG with nothing else between its sections: what it leaves on every path. */
    method ImportPNG(codec: Codec, encoded: seq<Byte>) returns (r: Result)
      requires Inv(View())
      modifies this
      ensures Inv(View())
      ensures Inspect(codec, encoded).None? ==> r == Err(Invalid) && View() == old(View())
      ensures Inspect(codec, encoded).Some? && old(closed) ==> r == Err(IsClosed) && View() == old(View())
      ensures r.Err? ==> used == old(used) && datas == old(datas) && entries == old(entries) && handles == old(handles)
      ensures r.Ok? ==> Inspect(codec, encoded).Some? && IsOpen(View(), r.handle) && r.handle == |old(handles)|
      ensures r.Ok? ==> InfoOf(View(), r.handle) == Inspect(codec, encoded).value || encoded in old(entries)
      ensures r.Ok? ==> datas[handles[r.handle].value].encoded == encoded
      ensures r.Ok? ==> used == old(used) + (if encoded in old(entries) then 0 else ImageCharge(Inspect(codec, encoded).value))
      // it succeeds exactly when it must, and says which condition failed
      ensures r.Ok? <==>
        && Inspect(codec, encoded).Some? && !old(closed)
        && (encoded in old(entries) || (Fits(old(View()), ImageCharge(Inspect(codec, encoded).value)) && codec.decodes(encoded)))
      ensures r == Err(IsClosed) <==> Inspect(codec, encoded).Some? && old(closed)
      ensures r == Err(Budget) <==>
        && Inspect(codec, encoded).Some? && !old(closed) && encoded !in old(entries)
        && !Fits(old(View()), ImageCharge(Inspect(codec, encoded).value))
    {
      InspectedIsDeclared(codec, encoded);
      var seen := Inspect(codec, encoded);
      if seen.None? { return Err(Invalid); }
      var info := seen.value;
      assert info.id in entries ==> DataOk(View(), entries[info.id]);
      var a := Admit(info);
      hide Inv, Inspect, Count, Resident, Sum;
      match a {
        case Refused(e) => return Err(e);
        case Shared(h) => return Ok(h);
        case Reserving =>
          ghost var i := |pending| - 1;
          if !codec.decodes(encoded) {
            AbortedOk(View(), i);
            ReleaseCharge(ImageCharge(info), i);
            return Err(Invalid);
          }
          r := FinishImport(encoded, info, i);
      }
    }

    /**
     * ImportPNGReader: `data` is what the reader delivered of the declared length, if it did. The content
     * must be what was declared.
     */
    method ImportPNGReader(codec: Codec, info: ImageInfo, data: Option<seq<Byte>>) returns (r: Result)
      requires Inv(View())
      modifies this
      ensures Inv(View())
      ensures r.Err? ==> used == old(used) && datas == old(datas) && entries == old(entries) && handles == old(handles)
      ensures r.Ok? <==>
        && DeclaredOk(info) && !old(closed) && Fits(old(View()), ImageCharge(info))
        && data.Some? && Inspect(codec, data.value) == Some(info) && codec.decodes(data.value)
      ensures r == Err(IsClosed) <==> DeclaredOk(info) && old(closed)
      ensures r == Err(Budget) <==> DeclaredOk(info) && !old(closed) && !Fits(old(View()), ImageCharge(info))
      ensures r == Err(ReadFailed) <==> DeclaredOk(info) && !old(closed) && Fits(old(View()), ImageCharge(info)) && data.None?
      ensures r.Ok? ==> IsOpen(View(), r.handle) && datas[handles[r.handle].value].encoded == data.value
    {
      if !DeclaredOk(info) { return Err(Invalid); }
      assert info.id in entries ==> DataOk(View(), entries[info.id]);
      ReservedOk(View(), ImageCharge(info));
      var a := Reserve(info);
      hide Inv, Inspect, Count, Resident, Sum;
      if a.Refused? { return Err(a.error); }
      ghost var i := |pending| - 1;
      if data.None? || Inspect(codec, data.value) != Some(info) || !codec.decodes(data.value) {
        AbortedOk(View(), i);
        ReleaseCharge(ImageCharge(info), i);
        return Err(if data.None? then ReadFailed else Invalid);
      }
      InspectedIsDeclared(codec, data.value);
      r := FinishImport(data.value, info, i);
    }

    method Retain(h: nat) returns (r: Result)
      requires Inv(View())
      modifies `datas, `handles
      ensures View() == Retained(old(View()), h) && Inv(View())
      ensures r == if IsOpen(old(View()), h) then Ok(|old(handles)|) else Err(IsClosed)
      ensures r.Err? ==> View() == old(View())
      ensures r.Ok? ==> handles == old(handles) + [old(handles)[h]] && IsOpen(View(), r.handle)
    {
      RetainedOk(View(), h);
      if h >= |handles| || handles[h].None? { return Err(IsClosed); }
      var n := Open(handles[h].value);
      r := Ok(n);
    }

    method Close(h: nat)
      requires Inv(View())
      modifies `datas, `handles, `entries, `used
      ensures View() == HandleClosed(old(View()), h) && Inv(View())
      ensures h < |old(handles)| ==> handles == old(handles)[h := None]
    {
      HandleClosedOk(View(), h);
      if h >= |handles| || handles[h].None? { return; }
      var d := handles[h].value;
      handles := handles[h := None];
      var e := datas[d];
      datas := datas[d := e.(refs := e.refs - 1)];
      if datas[d].refs == 0 {
        entries := entries - {e.info.id};
        used := used - e.charge;
      }
    }

    method ClosePlacements(images: seq<PlacedImage>, ghost hs: seq<nat>)
      requires Inv(View()) && |hs| == |images| && forall i :: 0 <= i < |hs| ==> images[i].resource == Some(hs[i])
      modifies `datas, `handles, `entries, `used
      ensures View() == CloseMany(old(View()), hs) && Inv(View())
    {
      for i := 0 to |images|
        invariant Inv(View()) && View() == CloseMany(old(View()), hs[..i])
      {
        assert hs[..i + 1][..i] == hs[..i];
        Close(images[i].resource.value);
      }
      assert hs[..|hs|] == hs;
    }

    /** One item of the list: `e` says why not. A handle it retained in vain is closed again. */
    method RetainItem(item: PlacedImage, duplicate: bool, ghost s: Store, ghost before: seq<PlacedImage>, ghost out: seq<PlacedImage>)
      returns (e: Option<Error>, placed: PlacedImage, ghost spent: nat)
      requires Inv(s) && Inv(View()) && Retains(s, before, out) && View() == WithHandles(s, DatasOf(s, before))
      requires duplicate == IdUsed(before, item.placement.id) && (item.resource.Some? ==> item.resource.value < |s.handles|)
      modifies `datas, `handles, `entries, `used
      ensures Inv(View()) && e == ItemFailure(s, before, item)
      ensures e.None? ==> Retains(s, before + [item], out + [placed]) && View() == WithHandles(s, DatasOf(s, before + [item]))
      ensures e.Some? ==> View() == WithHandles(s, DatasOf(s, before) + Nones(spent))
    {
      hide Inv, WithHandles, HandleClosed, DatasOf, Retained, IdUsed, Count, Inside, SourceOf, Resolved;
      spent, placed := 0, item;
      ghost var extra := DatasOf(s, before);
      assert extra + Nones(0) == extra;
      if !WellPlaced(item) || duplicate { return Some(Invalid), item, 0; }
      hide WellPlaced;
      var h := item.resource.value;
      SameOpen(s, extra, h);
      assert |extra| == |before| by { DatasLength(s, before); }
      var r := Retain(h);
      if r.Err? { return Some(IsClosed), item, 0; }
      RetainWith(s, extra, h);
      DatasAppend(s, before, item);
      assert r.handle == |s.handles| + |before| by { HandlesLength(s, extra); }
      var info := datas[handles[r.handle].value].info;
      if !Inside(SourceOf(item.placement, info), info) {
        OpenIsCounted(s, h);
        CloseWith(s, extra + [s.handles[h]], |before|);
        Close(r.handle);
        assert (extra + [s.handles[h]])[|before| := None] == extra + Nones(1);
        return Some(Invalid), item, 1;
      }
      e, placed := None, PlacedImage(Some(r.handle), Resolved(item.placement, info));
    }

    /** All placements are retained, or none and the store is as it was but for spent handles. */
    method RetainPlacements(items: seq<PlacedImage>) returns (r: Retaining)
      requires Inv(View()) && forall i :: 0 <= i < |items| && items[i].resource.Some? ==> items[i].resource.value < |handles|
      modifies `datas, `handles, `entries, `used
      ensures Inv(View())
      ensures match Failure(old(View()), items)
              case None => r.Kept? && Retains(old(View()), items, r.images) && View() == WithHandles(old(View()), DatasOf(old(View()), items))
              case Some(e) => r == Failed(e) && exists n :: View() == old(View()).(handles := old(handles) + Nones(n))
    {
      hide Inv, WithHandles, DatasOf, IdUsed, Count, ItemFailure, CloseMany, WellPlaced, Resolved;
      ghost var s := View();
      NothingRetained(s);
      if |items| > MAX_IMAGE_PLACEMENTS { return Failed(Budget); }
      var out: seq<PlacedImage> := [];
      var ids: set<string> := {};
      for i := 0 to |items|
        invariant Inv(View()) && Retains(s, items[..i], out) && View() == WithHandles(s, DatasOf(s, items[..i]))
        invariant FirstFailure(s, items[..i]).None?
        invariant forall id :: id in ids <==> IdUsed(items[..i], id)
      {
        var e, placed, spent := RetainItem(items[i], items[i].placement.id in ids, s, items[..i], out);
        if e.Some? {
          FailsAt(s, items, i);
          ghost var hs := seq(|out|, j => |s.handles| + j);
          ReleasedAll(s, items[..i], out, spent, hs);
          ClosePlacements(out, hs);
          return Failed(e.value);
        }
        assert items[..i + 1] == items[..i] + [items[i]] && items[..i + 1][..i] == items[..i];
        out := out + [placed];
        ids := ids + {items[i].placement.id};
        IdAdded(items[..i], items[i]);
      }
      assert items[..|items|] == items;
      r := Kept(out);
    }
  }

  lemma DatasLength(s: Store, items: seq<PlacedImage>)
    ensures |DatasOf(s, items)| == |items|
  {
  }

  lemma HandlesLength(s: Store, extra: seq<Option<nat>>)
    ensures |WithHandles(s, extra).handles| == |s.handles| + |extra|
  {
  }

  lemma NothingRetained(s: Store)
    ensures WithHandles(s, DatasOf(s, [])) == s == s.(handles := s.handles + Nones(0))
    ensures forall id :: !IdUsed([], id)
  {
    WithNothing(s, 0);
    assert s.handles + Nones(0) == s.handles && DatasOf(s, []) == [];
  }

  lemma IdAdded(items: seq<PlacedImage>, item: PlacedImage)
    ensures forall id :: IdUsed(items + [item], id) <==> IdUsed(items, id) || id == item.placement.id
  {
    forall id ensures IdUsed(items + [item], id) <==> IdUsed(items, id) || id == item.placement.id {
      if IdUsed(items, id) {
        var i :| 0 <= i < |items| && items[i].placement.id == id;
        assert (items + [item])[i].placement.id == id;
      }
      assert (items + [item])[|items|] == item;
    }
  }
}
