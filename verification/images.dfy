/**
 * The terminal image store (api/tty/image.go): encoded images shared by content, counted by open handles
 * and bounded by a byte budget that imports reserve before they decode. An import's sections under the
 * store's lock interleave with those of other imports, retains and closes.
 */
module Images {
  import opened Options
  import opened Frames

  const MAX_IMAGE_BYTES := 0x80_0000
  const MAX_IMAGE_PIXELS := 0x40_0000
  const MAX_IMAGE_PLACEMENTS := 256
  const MAX_VIEWPORT_DIMENSION := 65535
  const MAX_VIEWPORT_CELLS := 0x4_0000

  datatype Error = Invalid | Budget | IsClosed | ReadFailed

  /** The content identity is injective, so the content itself stands for it. */
  datatype ImageInfo = ImageInfo(id: seq<Byte>, format: string, width: int, height: int, bytes: int)

  /** What the PNG library says of some bytes: their size in pixels, and whether they decode. */
  datatype Codec = Codec(config: seq<Byte> -> Option<(int, int)>, decodes: seq<Byte> -> bool)

  /** Image data as imported; `refs` counts the open handles. */
  datatype ImageData = ImageData(encoded: seq<Byte>, info: ImageInfo, refs: int, charge: nat)

  /**
   * `datas` are all image data ever admitted and `handles` all handles ever made, closed ones pointing
   * nowhere. `pending` are the charges of imports between their sections.
   */
  datatype Store = Store(
    limit: nat,
    used: int,
    closed: bool,
    datas: seq<ImageData>,
    entries: map<seq<Byte>, nat>,
    handles: seq<Option<nat>>,
    pending: seq<nat>)

  predicate SizeOk(width: int, height: int) {
    width >= 1 && height >= 1 && width <= MAX_IMAGE_PIXELS / height
  }

  /** inspectPNG */
  function Inspect(codec: Codec, encoded: seq<Byte>): Option<ImageInfo> {
    if |encoded| == 0 || |encoded| > MAX_IMAGE_BYTES then None
    else
      match codec.config(encoded)
      case None => None
      case Some(size) => if SizeOk(size.0, size.1) then Some(ImageInfo(encoded, "png", size.0, size.1, |encoded|)) else None
  }

  predicate DeclaredOk(info: ImageInfo) {
    info.format == "png" && 1 <= info.bytes <= MAX_IMAGE_BYTES && SizeOk(info.width, info.height)
  }

  function ImageCharge(info: ImageInfo): (c: nat)
    requires DeclaredOk(info)
    ensures info.bytes < c <= MAX_IMAGE_BYTES + 8 * MAX_IMAGE_PIXELS
  {
    PixelsBounded(info.width, info.height);
    info.bytes + info.width * info.height * 8
  }

  lemma PixelsBounded(width: int, height: int)
    requires SizeOk(width, height)
    ensures 1 <= width * height <= MAX_IMAGE_PIXELS
  {
    var q := MAX_IMAGE_PIXELS / height;
    assert MAX_IMAGE_PIXELS == q * height + MAX_IMAGE_PIXELS % height;
    assert width * height <= q * height by { Times(width, q, height); }
    assert 1 * height <= width * height by { Times(1, width, height); }
  }

  lemma Times(a: int, b: int, c: int)
    requires a <= b && c >= 0
    ensures a * c <= b * c
  {
  }

  // ---------------------------------------------------------------- sections

  /** A handle to image data `d`. */
  function Opened(s: Store, d: nat): Store
    requires d < |s.datas|
  {
    s.(datas := s.datas[d := s.datas[d].(refs := s.datas[d].refs + 1)], handles := s.handles + [Some(d)])
  }

  predicate EntryOk(s: Store, id: seq<Byte>) {
    id in s.entries ==> s.entries[id] < |s.datas|
  }

  predicate Fits(s: Store, charge: int) {
    charge <= s.limit - s.used
  }

  /** ImportPNG's first section: share resident content, or reserve its charge. */
  function Admitted(s: Store, info: ImageInfo): Store
    requires EntryOk(s, info.id) && DeclaredOk(info)
  {
    if s.closed then s
    else if info.id in s.entries then Opened(s, s.entries[info.id])
    else Reserved(s, ImageCharge(info))
  }

  /** ImportPNGReader's section, which shares nothing yet. */
  function Reserved(s: Store, charge: nat): Store {
    if s.closed || !Fits(s, charge) then s else s.(used := s.used + charge, pending := s.pending + [charge])
  }

  /** Import `i` is over. */
  function Settled(s: Store, i: nat): Store
    requires i < |s.pending|
  {
    s.(pending := s.pending[i := 0])
  }

  /** releaseCharge */
  function Aborted(s: Store, i: nat): Store
    requires i < |s.pending|
  {
    Settled(s, i).(used := s.used - s.pending[i])
  }

  /** finishImport's section, for content that decodes. */
  function Completed(s: Store, i: nat, encoded: seq<Byte>, info: ImageInfo): Store
    requires i < |s.pending| && EntryOk(s, info.id)
  {
    if s.closed then Aborted(s, i)
    else if info.id in s.entries then Opened(Aborted(s, i), s.entries[info.id])
    else
      Settled(s, i).(datas := s.datas + [ImageData(encoded, info, 1, s.pending[i])],
                     entries := s.entries[info.id := |s.datas|], handles := s.handles + [Some(|s.datas|)])
  }

  /** Import `i` reserved the charge of this content. */
  predicate Finishes(s: Store, i: nat, encoded: seq<Byte>, info: ImageInfo) {
    i < |s.pending| && info.id == encoded && info.bytes == |encoded| && DeclaredOk(info) && s.pending[i] == ImageCharge(info)
  }

  predicate IsOpen(s: Store, h: nat) {
    h < |s.handles| && s.handles[h].Some? && s.handles[h].value < |s.datas|
  }

  /** Image.Retain */
  function Retained(s: Store, h: nat): Store {
    if IsOpen(s, h) then Opened(s, s.handles[h].value) else s
  }

  /** Image.Close: the last handle takes the entry out. */
  function HandleClosed(s: Store, h: nat): Store {
    if !IsOpen(s, h) then s
    else
      var d := s.handles[h].value;
      var e := s.datas[d];
      var t := s.(handles := s.handles[h := None], datas := s.datas[d := e.(refs := e.refs - 1)]);
      if e.refs == 1 then t.(entries := s.entries - {e.info.id}, used := s.used - e.charge) else t
  }

  // ---------------------------------------------------------------- the invariant

  /** Open handles to image data `d`. */
  function Count(handles: seq<Option<nat>>, d: nat): nat {
    if handles == [] then 0 else Count(handles[..|handles| - 1], d) + (if handles[|handles| - 1] == Some(d) then 1 else 0)
  }

  function Resident(datas: seq<ImageData>): nat {
    if datas == [] then 0
    else Resident(datas[..|datas| - 1]) + (if datas[|datas| - 1].refs > 0 then datas[|datas| - 1].charge else 0)
  }

  function Sum(xs: seq<nat>): nat {
    if xs == [] then 0 else Sum(xs[..|xs| - 1]) + xs[|xs| - 1]
  }

  /** Data is resident exactly while a handle is open, holds the content it names and is charged for it. */
  ghost predicate DataOk(s: Store, d: nat)
    requires d < |s.datas|
  {
    var e := s.datas[d];
    && e.encoded == e.info.id && e.info.bytes == |e.encoded| && DeclaredOk(e.info) && e.charge == ImageCharge(e.info)
    && e.refs == Count(s.handles, d)
    && (e.refs > 0 <==> e.info.id in s.entries && s.entries[e.info.id] == d)
  }

  ghost predicate Shaped(s: Store) {
    && (forall h: nat :: h < |s.handles| && s.handles[h].Some? ==> s.handles[h].value < |s.datas|)
    && (forall id :: id in s.entries ==> s.entries[id] < |s.datas| && s.datas[s.entries[id]].info.id == id && s.datas[s.entries[id]].refs > 0)
  }

  ghost predicate Inv(s: Store) {
    && Shaped(s)
    && (forall d: nat :: d < |s.datas| ==> DataOk(s, d))
    && s.used == Resident(s.datas) + Sum(s.pending) <= s.limit
  }

  lemma {:induction false} CountUpdate(hs: seq<Option<nat>>, i: nat, x: Option<nat>, d: nat)
    requires i < |hs|
    ensures Count(hs[i := x], d) == Count(hs, d) + (if x == Some(d) then 1 else 0) - (if hs[i] == Some(d) then 1 else 0)
  {
    var n := |hs| - 1;
    if i == n {
      assert hs[i := x][..n] == hs[..n];
    } else {
      assert hs[i := x][..n] == hs[..n][i := x];
      CountUpdate(hs[..n], i, x, d);
    }
  }

  lemma CountAppend(hs: seq<Option<nat>>, x: Option<nat>, d: nat)
    ensures Count(hs + [x], d) == Count(hs, d) + (if x == Some(d) then 1 else 0)
  {
    assert (hs + [x])[..|hs|] == hs;
  }

  lemma {:induction false} ResidentUpdate(ds: seq<ImageData>, d: nat, e: ImageData)
    requires d < |ds|
    ensures Resident(ds[d := e]) == Resident(ds) + (if e.refs > 0 then e.charge else 0) - (if ds[d].refs > 0 then ds[d].charge else 0)
  {
    var n := |ds| - 1;
    if d == n {
      assert ds[d := e][..n] == ds[..n];
    } else {
      assert ds[d := e][..n] == ds[..n][d := e];
      ResidentUpdate(ds[..n], d, e);
    }
  }

  lemma {:induction false} SumUpdate(xs: seq<nat>, i: nat, x: nat)
    requires i < |xs|
    ensures Sum(xs[i := x]) == Sum(xs) + x - xs[i]
  {
    var n := |xs| - 1;
    if i == n {
      assert xs[i := x][..n] == xs[..n];
    } else {
      assert xs[i := x][..n] == xs[..n][i := x];
      SumUpdate(xs[..n], i, x);
    }
  }

  lemma {:induction false} CountPositive(hs: seq<Option<nat>>, i: nat, d: nat)
    requires i < |hs| && hs[i] == Some(d)
    ensures Count(hs, d) >= 1
  {
    if i < |hs| - 1 { CountPositive(hs[..|hs| - 1], i, d); }
  }

  lemma {:induction false} CountNone(hs: seq<Option<nat>>, d: nat)
    requires forall i: nat :: i < |hs| ==> hs[i] != Some(d)
    ensures Count(hs, d) == 0
  {
    if hs != [] { CountNone(hs[..|hs| - 1], d); }
  }

  // ---------------------------------------------------------------- sections keep it

  lemma OpenedOk(s: Store, d: nat)
    requires Inv(s) && d < |s.datas| && s.datas[d].refs > 0
    ensures Inv(Opened(s, d))
  {
    var t := Opened(s, d);
    ResidentUpdate(s.datas, d, t.datas[d]);
    assert DataOk(s, d);
    hide Resident, Sum;
    forall i: nat | i < |t.datas| ensures DataOk(t, i) {
      assert DataOk(s, i);
      CountAppend(s.handles, Some(d), i);
    }
    assert Shaped(t) by { hide DataOk, Count; }
  }

  lemma ReservedOk(s: Store, charge: nat)
    requires Inv(s)
    ensures Inv(Reserved(s, charge))
  {
    var t := Reserved(s, charge);
    if t != s { assert t.pending[..|s.pending|] == s.pending; }
    hide Resident;
    forall i: nat | i < |t.datas| ensures DataOk(t, i) { assert DataOk(s, i); }
  }

  lemma AbortedOk(s: Store, i: nat)
    requires Inv(s) && i < |s.pending|
    ensures Inv(Aborted(s, i))
  {
    var t := Aborted(s, i);
    SumUpdate(s.pending, i, 0);
    hide Resident, Sum;
    forall j: nat | j < |t.datas| ensures DataOk(t, j) { assert DataOk(s, j); }
  }

  lemma AdmittedOk(s: Store, info: ImageInfo)
    requires Inv(s) && DeclaredOk(info)
    ensures EntryOk(s, info.id) && Inv(Admitted(s, info))
  {
    if !s.closed && info.id in s.entries {
      OpenedOk(s, s.entries[info.id]);
    } else {
      ReservedOk(s, ImageCharge(info));
    }
    hide Resident, Sum, Count;
  }

  /** New content gets an entry with one handle. */
  lemma EnteredOk(s: Store, i: nat, encoded: seq<Byte>, info: ImageInfo, t: Store)
    requires Inv(s) && Finishes(s, i, encoded, info) && info.id !in s.entries && !s.closed && t == Completed(s, i, encoded, info)
    ensures Inv(t)
  {
    SumUpdate(s.pending, i, 0);
    assert t.datas[..|s.datas|] == s.datas;
    hide Sum;
    forall d: nat | d < |t.datas| ensures DataOk(t, d) {
      CountAppend(s.handles, Some(|s.datas|), d);
      if d < |s.datas| { assert DataOk(s, d); } else { CountNone(s.handles, d); }
    }
    assert Shaped(t) by { hide DataOk, Count, Resident; }
    assert Resident(t.datas) == Resident(s.datas) + s.pending[i];
    hide Resident, Count;
  }

  lemma CompletedOk(s: Store, i: nat, encoded: seq<Byte>, info: ImageInfo)
    requires Inv(s) && Finishes(s, i, encoded, info)
    ensures EntryOk(s, info.id) && Inv(Completed(s, i, encoded, info))
  {
    if !s.closed && info.id !in s.entries {
      EnteredOk(s, i, encoded, info, Completed(s, i, encoded, info));
    } else {
      AbortedOk(s, i);
      if !s.closed { OpenedOk(Aborted(s, i), s.entries[info.id]); }
    }
    hide Resident, Sum, Count;
  }

  lemma OpenIsCounted(s: Store, h: nat)
    requires Inv(s) && IsOpen(s, h)
    ensures s.datas[s.handles[h].value].refs > 0
  {
    CountPositive(s.handles, h, s.handles[h].value);
    assert DataOk(s, s.handles[h].value);
  }

  lemma RetainedOk(s: Store, h: nat)
    requires Inv(s)
    ensures Inv(Retained(s, h))
  {
    if IsOpen(s, h) {
      OpenIsCounted(s, h);
      hide Inv;
      OpenedOk(s, s.handles[h].value);
    }
  }

  lemma HandleClosedData(s: Store, h: nat, t: Store, i: nat)
    requires Inv(s) && IsOpen(s, h) && t == HandleClosed(s, h) && i < |t.datas|
    ensures DataOk(t, i)
  {
    hide Resident, Sum, Count;
    CountUpdate(s.handles, h, None, i);
    assert DataOk(s, i) && DataOk(s, s.handles[h].value);
  }

  lemma HandleClosedOk(s: Store, h: nat)
    requires Inv(s)
    ensures Inv(HandleClosed(s, h))
  {
    if IsOpen(s, h) {
      var t, d := HandleClosed(s, h), s.handles[h].value;
      OpenIsCounted(s, h);
      ResidentUpdate(s.datas, d, t.datas[d]);
      assert DataOk(s, d);
      hide Resident, Sum, Count;
      forall i: nat | i < |t.datas| ensures DataOk(t, i) { HandleClosedData(s, h, t, i); }
      assert Shaped(t) by { hide DataOk; }
      hide DataOk, Shaped;
    }
  }

  lemma InspectedIsDeclared(codec: Codec, encoded: seq<Byte>)
    ensures var seen := Inspect(codec, encoded);
      seen.Some? ==> DeclaredOk(seen.value) && seen.value.id == encoded && seen.value.bytes == |encoded|
  {
  }

  // ---------------------------------------------------------------- every interleaving

  datatype Step =
    | Admit(info: ImageInfo)
    | Reserve(info: ImageInfo)
    | Abort(i: nat)
    | Finish(i: nat, encoded: seq<Byte>, info: ImageInfo)
    | RetainImage(h: nat)
    | CloseImage(h: nat)
    | CloseStore

  predicate Enabled(s: Store, st: Step) {
    match st
    case Admit(info) => DeclaredOk(info) && EntryOk(s, info.id)
    case Reserve(info) => DeclaredOk(info)
    case Abort(i) => i < |s.pending| && s.pending[i] > 0
    case Finish(i, encoded, info) => Finishes(s, i, encoded, info) && EntryOk(s, info.id)
    case RetainImage(h) => true
    case CloseImage(h) => true
    case CloseStore => true
  }

  function Apply(s: Store, st: Step): Store
    requires Enabled(s, st)
  {
    match st
    case Admit(info) => Admitted(s, info)
    case Reserve(info) => Reserved(s, ImageCharge(info))
    case Abort(i) => Aborted(s, i)
    case Finish(i, encoded, info) => Completed(s, i, encoded, info)
    case RetainImage(h) => Retained(s, h)
    case CloseImage(h) => HandleClosed(s, h)
    case CloseStore => s.(closed := true)
  }

  predicate Runs(s: Store, steps: seq<Step>)
    decreases |steps|
  {
    steps != [] ==> Enabled(s, steps[0]) && Runs(Apply(s, steps[0]), steps[1..])
  }

  function Exec(s: Store, steps: seq<Step>): Store
    requires Runs(s, steps)
    decreases |steps|
  {
    if steps == [] then s else Exec(Apply(s, steps[0]), steps[1..])
  }

  lemma CloseStoreOk(s: Store)
    requires Inv(s)
    ensures Inv(s.(closed := true))
  {
    var t := s.(closed := true);
    hide Resident, Sum;
    forall d: nat | d < |t.datas| ensures DataOk(t, d) { assert DataOk(s, d); }
  }

  lemma StepKeeps(s: Store, st: Step)
    requires Inv(s) && Enabled(s, st)
    ensures Inv(Apply(s, st)) && Apply(s, st).limit == s.limit
  {
    hide Inv;
    match st {
      case Admit(info) => AdmittedOk(s, info);
      case Reserve(info) => ReservedOk(s, ImageCharge(info));
      case Abort(i) => AbortedOk(s, i);
      case Finish(i, encoded, info) => CompletedOk(s, i, encoded, info);
      case RetainImage(h) => RetainedOk(s, h);
      case CloseImage(h) => HandleClosedOk(s, h);
      case CloseStore => CloseStoreOk(s);
    }
  }

  lemma {:induction false} RunKeeps(s: Store, steps: seq<Step>)
    requires Inv(s) && Runs(s, steps)
    ensures Inv(Exec(s, steps)) && Exec(s, steps).limit == s.limit
    decreases |steps|
  {
    if steps != [] {
      StepKeeps(s, steps[0]);
      hide Inv, Apply, Enabled;
      RunKeeps(Apply(s, steps[0]), steps[1..]);
    }
  }

  function NewStore(limit: int): Store {
    Store(if limit < 0 then 0 else limit, 0, false, [], map[], [], [])
  }

  ghost predicate Reached(limit: int, s: Store) {
    exists steps :: Runs(NewStore(limit), steps) && Exec(NewStore(limit), steps) == s
  }

  lemma ReachedOk(limit: int, s: Store)
    requires Reached(limit, s)
    ensures Inv(s) && s.limit == NewStore(limit).limit
  {
    var steps :| Runs(NewStore(limit), steps) && Exec(NewStore(limit), steps) == s;
    RunKeeps(NewStore(limit), steps);
  }

  /** What is used is what is resident plus what imports in flight reserved, and never more than the limit. */
  lemma UsedIsAccounted(limit: int, s: Store)
    requires Reached(limit, s)
    ensures s.used == Resident(s.datas) + Sum(s.pending) <= if limit < 0 then 0 else limit
  {
    ReachedOk(limit, s);
  }

  /** Image data is resident exactly while its reference count, the number of its open handles, is positive. */
  lemma ResidentWhileOpen(limit: int, s: Store, d: nat)
    requires Reached(limit, s) && d < |s.datas|
    ensures s.datas[d].refs == Count(s.handles, d)
    ensures s.datas[d].refs > 0 <==> s.datas[d].info.id in s.entries && s.entries[s.datas[d].info.id] == d
    ensures s.datas[d].refs > 0 <==> exists h: nat :: IsOpen(s, h) && s.handles[h] == Some(d)
  {
    ReachedOk(limit, s);
    assert DataOk(s, d);
    if s.datas[d].refs > 0 {
      if forall h: nat :: h < |s.handles| ==> s.handles[h] != Some(d) { CountNone(s.handles, d); }
    }
    if exists h: nat :: IsOpen(s, h) && s.handles[h] == Some(d) {
      var h: nat :| IsOpen(s, h) && s.handles[h] == Some(d);
      OpenIsCounted(s, h);
    }
  }

  /** No two resident images have the same content. */
  lemma ContentIsShared(limit: int, s: Store, d: nat, e: nat)
    requires Reached(limit, s) && d < |s.datas| && e < |s.datas| && s.datas[d].refs > 0 && s.datas[e].refs > 0
    requires s.datas[d].encoded == s.datas[e].encoded
    ensures d == e
  {
    ReachedOk(limit, s);
    assert DataOk(s, d) && DataOk(s, e);
  }

  /** A finished import yields a handle to exactly the bytes imported, whether new or shared. */
  lemma ImportYieldsContent(limit: int, s: Store, i: nat, encoded: seq<Byte>, info: ImageInfo)
    requires Reached(limit, s) && Enabled(s, Finish(i, encoded, info)) && !s.closed
    ensures var t := Completed(s, i, encoded, info);
      && |t.handles| == |s.handles| + 1 && IsOpen(t, |s.handles|)
      && t.datas[t.handles[|s.handles|].value].encoded == encoded
      && t.used == s.used - (if info.id in s.entries then s.pending[i] else 0)
  {
    ReachedOk(limit, s);
    if info.id in s.entries { assert DataOk(s, s.entries[info.id]); }
    hide Resident, Sum, Count;
  }
}
