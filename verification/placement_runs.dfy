/**
 * Retaining a list of placements while other calls use the store (api/tty/image.go). No lock is held
 * across the items: each Retain and each Close is its own section, and imports, retains, closes and
 * other such calls come between. The handles a call makes are its own until it returns.
 */
module PlacementRuns {
  import opened Options
  import opened Images
  import opened ImageStores

  /** A call before its next item, past the Retain of one, closing what it made, or over. */
  datatype Phase =
    | Walking
    | Looking
    | Failing(error: Error, at: nat)
    | Returned(result: Retaining)

  /** `made` are all the handles the call has made, in order. */
  datatype Call = Call(items: seq<PlacedImage>, out: seq<PlacedImage>, made: seq<nat>, phase: Phase)

  datatype World = World(store: Store, calls: seq<Call>)

  datatype Step =
    | Other(st: Images.Step)
    | Begin(items: seq<PlacedImage>)
    | Go(c: nat)

  /** The call still counts on its handle `i`. */
  predicate Holds(c: Call, i: nat)
    requires i < |c.made|
  {
    match c.phase
    case Walking => true
    case Looking => true
    case Failing(_, at) => at <= i < |c.out|
    case Returned(_) => false
  }

  /** The call has closed its handle `i`. */
  predicate LetGo(c: Call, i: nat)
    requires i < |c.made|
  {
    match c.phase
    case Failing(_, at) => i < at || i >= |c.out|
    case Returned(r) => r.Failed?
    case _ => false
  }

  /** Nobody else can name a handle that a call in progress holds. */
  predicate Private(w: World, h: nat) {
    exists c: nat, i: nat :: c < |w.calls| && i < |w.calls[c].made| && Holds(w.calls[c], i) && w.calls[c].made[i] == h
  }

  predicate KnownItems(s: Store, items: seq<PlacedImage>) {
    forall i :: 0 <= i < |items| && items[i].resource.Some? ==> items[i].resource.value < |s.handles|
  }

  ghost predicate Enabled(w: World, st: Step) {
    match st
    case Other(a) => Images.Enabled(w.store, a) && (a.CloseImage? ==> !Private(w, a.h))
    case Begin(items) => KnownItems(w.store, items)
    case Go(c) =>
      && c < |w.calls| && !w.calls[c].phase.Returned?
      && (w.calls[c].phase.Looking? ==> w.calls[c].made != [] && |w.calls[c].out| < |w.calls[c].items|)
  }

  const NO_INFO: ImageInfo := ImageInfo([], "", 0, 0, 0)

  /** Image.Info, which a closed handle answers with nothing. */
  function InfoSeen(s: Store, h: nat): ImageInfo {
    if IsOpen(s, h) then InfoOf(s, h) else NO_INFO
  }

  /** The item the call is at, checked and retained. */
  function Entered(s: Store, c: Call): (Store, Call)
    requires |c.out| < |c.items|
  {
    var item := c.items[|c.out|];
    if !WellPlaced(item) || IdUsed(c.items[..|c.out|], item.placement.id) then (s, c.(phase := Failing(Invalid, 0)))
    else if !IsOpen(s, item.resource.value) then (s, c.(phase := Failing(IsClosed, 0)))
    else (Retained(s, item.resource.value), c.(made := c.made + [|s.handles|], phase := Looking))
  }

  /** The new handle's image must contain the source rectangle; otherwise the handle is closed at once. */
  function Looked(s: Store, c: Call): (Store, Call)
    requires |c.out| < |c.items| && c.made != []
  {
    var p, h := c.items[|c.out|].placement, c.made[|c.made| - 1];
    var info := InfoSeen(s, h);
    if Inside(SourceOf(p, info), info) then (s, c.(out := c.out + [PlacedImage(Some(h), Resolved(p, info))], phase := Walking))
    else (HandleClosed(s, h), c.(phase := Failing(Invalid, 0)))
  }

  /** ClosePlacements, one handle at a time. */
  function Unwound(s: Store, c: Call): (Store, Call)
    requires c.phase.Failing?
  {
    var at := c.phase.at;
    if at < |c.out| && c.out[at].resource.Some? then (HandleClosed(s, c.out[at].resource.value), c.(phase := Failing(c.phase.error, at + 1)))
    else (s, c.(phase := Returned(Failed(c.phase.error))))
  }

  function Advanced(s: Store, c: Call): (Store, Call)
    requires !c.phase.Returned? && (c.phase.Looking? ==> c.made != [] && |c.out| < |c.items|)
  {
    match c.phase
    case Walking => if |c.out| < |c.items| then Entered(s, c) else (s, c.(phase := Returned(Kept(c.out))))
    case Looking => Looked(s, c)
    case Failing(_, _) => Unwound(s, c)
  }

  function Begun(items: seq<PlacedImage>): Call {
    Call(items, [], [], if |items| > MAX_IMAGE_PLACEMENTS then Returned(Failed(Budget)) else Walking)
  }

  ghost function Apply(w: World, st: Step): World
    requires Enabled(w, st)
  {
    match st
    case Other(a) => w.(store := Images.Apply(w.store, a))
    case Begin(items) => w.(calls := w.calls + [Begun(items)])
    case Go(c) => World(Advanced(w.store, w.calls[c]).0, w.calls[c := Advanced(w.store, w.calls[c]).1])
  }

  ghost predicate Runs(w: World, steps: seq<Step>)
    decreases |steps|
  {
    steps != [] ==> Enabled(w, steps[0]) && Runs(Apply(w, steps[0]), steps[1..])
  }

  ghost function Exec(w: World, steps: seq<Step>): World
    requires Runs(w, steps)
    decreases |steps|
  {
    if steps == [] then w else Exec(Apply(w, steps[0]), steps[1..])
  }

  // ---------------------------------------------------------------- the invariant

  /** How far the call is: a handle for every item placed, and one more while it looks. */
  ghost predicate Placing(c: Call) {
    && |c.out| <= |c.items| && |c.out| <= |c.made| <= |c.out| + 1
    && (c.phase.Walking? ==> |c.made| == |c.out|)
    && (c.phase.Looking? ==> |c.made| == |c.out| + 1 && |c.out| < |c.items|)
    && (c.phase.Failing? ==> c.phase.at <= |c.out| < |c.items|)
    && (c.phase.Returned? && c.phase.result.Kept? ==> c.phase.result.images == c.out && |c.made| == |c.out| == |c.items|)
    && (forall i :: 0 <= i < |c.out| ==> c.out[i].resource == Some(c.made[i]))
    && |c.made| <= |c.items|
  }

  /** Handle `i` of the call is open or closed as the call left it, and shows the image of item `i`. */
  ghost predicate MadeOk(s: Store, c: Call, i: nat)
    requires Placing(c) && i < |c.made|
  {
    var h, item := c.made[i], c.items[i];
    && h < |s.handles|
    && (Holds(c, i) ==> s.handles[h].Some?)
    && (LetGo(c, i) ==> s.handles[h].None?)
    && WellPlaced(item) && !IdUsed(c.items[..i], item.placement.id) && item.resource.Some? && item.resource.value < |s.handles|
    && (s.handles[h].Some? && s.handles[item.resource.value].Some? ==> s.handles[h] == s.handles[item.resource.value])
    && (i < |c.out| && IsOpen(s, h) ==>
          && c.out[i].placement == Resolved(item.placement, InfoOf(s, h))
          && Inside(SourceOf(item.placement, InfoOf(s, h)), InfoOf(s, h)))
  }

  /** Why the call fails: its own items, or the resource of the item it was at. */
  ghost predicate Blamed(s: Store, c: Call, e: Error) {
    match e
    case Budget => |c.items| > MAX_IMAGE_PLACEMENTS
    case IsClosed =>
      && |c.out| < |c.items| && c.items[|c.out|].resource.Some? && c.items[|c.out|].resource.value < |s.handles|
      && s.handles[c.items[|c.out|].resource.value].None?
    case Invalid =>
      && |c.out| < |c.items|
      && var item := c.items[|c.out|];
         || !WellPlaced(item) || IdUsed(c.items[..|c.out|], item.placement.id)
         || exists d: nat :: Misfit(s, item, d)
    case ReadFailed => false
  }

  /** The source rectangle is not inside image data `d`, which is what the item's resource shows while open. */
  ghost predicate Misfit(s: Store, item: PlacedImage, d: nat) {
    && d < |s.datas| && !Inside(SourceOf(item.placement, s.datas[d].info), s.datas[d].info)
    && item.resource.Some? && item.resource.value < |s.handles|
    && (s.handles[item.resource.value].Some? ==> s.handles[item.resource.value] == Some(d))
  }

  ghost predicate CallOk(s: Store, c: Call) {
    && Placing(c) && KnownItems(s, c.items)
    && (forall i: nat :: i < |c.made| ==> MadeOk(s, c, i))
    && (forall i: nat, j: nat :: i < j < |c.made| ==> c.made[i] != c.made[j])
    && (c.phase.Failing? ==> Blamed(s, c, c.phase.error))
    && (c.phase.Returned? && c.phase.result.Failed? ==> Blamed(s, c, c.phase.result.error))
  }

  /** No two calls make the same handle. */
  ghost predicate Apart(c: Call, d: Call) {
    forall i: nat, j: nat :: i < |c.made| && j < |d.made| ==> c.made[i] != d.made[j]
  }

  ghost predicate Inv(w: World) {
    && Images.Inv(w.store)
    && (forall c: nat :: c < |w.calls| ==> CallOk(w.store, w.calls[c]))
    && (forall c: nat, d: nat :: c < d < |w.calls| ==> Apart(w.calls[c], w.calls[d]))
  }

  // ---------------------------------------------------------------- what sections do to handles

  /** New handles come at the end, at most `x` is closed, and images stay what they are. */
  ghost predicate Moves(s: Store, t: Store, x: Option<nat>) {
    && |s.handles| <= |t.handles| && |s.datas| <= |t.datas|
    && (forall h: nat :: h < |s.handles| ==> t.handles[h] == s.handles[h] || (x == Some(h) && t.handles[h].None?))
    && (forall d: nat :: d < |s.datas| ==> t.datas[d].info == s.datas[d].info)
  }

  lemma StepMoves(s: Store, st: Images.Step)
    requires Images.Enabled(s, st)
    ensures Moves(s, Images.Apply(s, st), if st.CloseImage? then Some(st.h) else None)
  {
  }

  lemma CloseMoves(s: Store, h: nat)
    ensures Moves(s, HandleClosed(s, h), Some(h))
    ensures h < |s.handles| && (s.handles[h].Some? ==> s.handles[h].value < |s.datas|) ==> HandleClosed(s, h).handles[h].None?
  {
  }

  lemma RetainMoves(s: Store, h: nat)
    requires IsOpen(s, h)
    ensures Moves(s, Retained(s, h), None) && Retained(s, h).handles == s.handles + [s.handles[h]]
  {
  }

  lemma MadeMoves(s: Store, t: Store, x: Option<nat>, c: Call, i: nat)
    requires Placing(c) && i < |c.made| && MadeOk(s, c, i) && Moves(s, t, x) && (Holds(c, i) ==> x != Some(c.made[i]))
    requires forall h: nat :: h < |s.handles| && s.handles[h].Some? ==> s.handles[h].value < |s.datas|
    ensures MadeOk(t, c, i)
  {
    hide WellPlaced, IdUsed, Inside, SourceOf, Resolved;
    var h, r := c.made[i], c.items[i].resource.value;
    assert t.handles[h].Some? ==> t.handles[h] == s.handles[h];
    assert t.handles[r].Some? ==> t.handles[r] == s.handles[r];
    assert i < |c.out| && IsOpen(t, h) ==> IsOpen(s, h) && InfoOf(t, h) == InfoOf(s, h);
  }

  lemma BlamedMoves(s: Store, t: Store, x: Option<nat>, c: Call, e: Error)
    requires Blamed(s, c, e) && Moves(s, t, x)
    ensures Blamed(t, c, e)
  {
    hide WellPlaced, IdUsed, Inside, SourceOf;
    if e == Invalid && |c.out| < |c.items| && exists d: nat :: Misfit(s, c.items[|c.out|], d) {
      var d: nat :| Misfit(s, c.items[|c.out|], d);
      assert Misfit(t, c.items[|c.out|], d);
    }
  }

  /** A section that closes none of the handles a call holds keeps the call in order. */
  lemma CallMoves(s: Store, t: Store, x: Option<nat>, c: Call)
    requires CallOk(s, c) && Images.Inv(s) && Moves(s, t, x)
    requires forall i: nat :: i < |c.made| && Holds(c, i) ==> x != Some(c.made[i])
    ensures CallOk(t, c)
  {
    hide MadeOk, Blamed, Moves, Placing, Holds;
    assert KnownItems(t, c.items) by { KnownMoves(s, t, x, c.items); }
    forall i: nat | i < |c.made| ensures MadeOk(t, c, i) { MadeMoves(s, t, x, c, i); }
    if c.phase.Failing? { BlamedMoves(s, t, x, c, c.phase.error); }
    if c.phase.Returned? && c.phase.result.Failed? { BlamedMoves(s, t, x, c, c.phase.result.error); }
  }

  lemma KnownMoves(s: Store, t: Store, x: Option<nat>, items: seq<PlacedImage>)
    requires KnownItems(s, items) && Moves(s, t, x)
    ensures KnownItems(t, items)
  {
  }

  // ---------------------------------------------------------------- a call's own steps

  lemma EnteredOk(s: Store, c: Call)
    requires CallOk(s, c) && Images.Inv(s) && c.phase.Walking? && |c.out| < |c.items|
    ensures CallOk(Entered(s, c).0, Entered(s, c).1) && Images.Inv(Entered(s, c).0)
    ensures Moves(s, Entered(s, c).0, None)
    ensures Entered(s, c).1.made == c.made || Entered(s, c).1.made == c.made + [|s.handles|]
  {
    var item := c.items[|c.out|];
    var (t, d) := Entered(s, c);
    hide WellPlaced, IdUsed, Inside, SourceOf, Resolved;
    if d.phase.Looking? {
      var h := item.resource.value;
      RetainedOk(s, h);
      RetainMoves(s, h);
      hide Images.Inv, Retained;
      RetainedCallOk(s, c, h, t, d);
    } else {
      hide Images.Inv;
      FailingOk(s, c, d.phase.error, d);
    }
  }

  /** A call that has walked so far and gives up holds all it made. */
  lemma FailingOk(s: Store, c: Call, e: Error, d: Call)
    requires CallOk(s, c) && c.phase.Walking? && d == c.(phase := Failing(e, 0)) && Blamed(s, d, e) && |c.out| < |c.items|
    ensures CallOk(s, d)
  {
    hide WellPlaced, IdUsed, Inside, SourceOf, Resolved, Blamed;
    forall i: nat | i < |d.made| ensures MadeOk(s, d, i) { assert MadeOk(s, c, i); }
  }

  lemma RetainedCallOk(s: Store, c: Call, h: nat, t: Store, d: Call)
    requires CallOk(s, c) && c.phase.Walking? && |c.out| < |c.items| && IsOpen(s, h)
    requires Shaped(s) && Moves(s, t, None) && t.handles == s.handles + [s.handles[h]]
    requires var item := c.items[|c.out|]; WellPlaced(item) && !IdUsed(c.items[..|c.out|], item.placement.id) && item.resource == Some(h)
    requires d == c.(made := c.made + [|s.handles|], phase := Looking)
    ensures CallOk(t, d)
  {
    hide WellPlaced, IdUsed, Inside, SourceOf, Resolved;
    KnownMoves(s, t, None, c.items);
    forall i: nat | i < |d.made| ensures MadeOk(t, d, i) {
      if i < |c.made| {
        MadeMoves(s, t, None, c, i);
        assert MadeOk(t, c, i);
      }
    }
    forall i: nat, j: nat | i < j < |d.made| ensures d.made[i] != d.made[j] { assert MadeOk(s, c, i); }
  }

  lemma LookedOk(s: Store, c: Call)
    requires CallOk(s, c) && Images.Inv(s) && c.phase.Looking?
    ensures CallOk(Looked(s, c).0, Looked(s, c).1) && Images.Inv(Looked(s, c).0)
    ensures Moves(s, Looked(s, c).0, Some(c.made[|c.made| - 1])) && Looked(s, c).1.made == c.made
  {
    var n := |c.out|;
    var p, h := c.items[n].placement, c.made[n];
    var (t, d) := Looked(s, c);
    assert MadeOk(s, c, n) && s.handles[h].value < |s.datas|;
    hide WellPlaced, IdUsed, Inside, SourceOf, Resolved;
    if d.phase.Walking? {
      forall i: nat | i < |d.made| ensures MadeOk(s, d, i) { assert MadeOk(s, c, i); }
    } else {
      HandleClosedOk(s, h);
      CloseMoves(s, h);
      assert Misfit(s, c.items[n], s.handles[h].value) by { assert MadeOk(s, c, n); MadeShows(s, c, n); }
      hide Images.Inv, HandleClosed;
      ClosedCallOk(s, c, t, d);
    }
  }

  /** An open resource of item `i` shows what the call's own open handle does. */
  lemma MadeShows(s: Store, c: Call, i: nat)
    requires Placing(c) && i < |c.made| && MadeOk(s, c, i) && s.handles[c.made[i]].Some?
    ensures c.items[i].resource.Some? && c.items[i].resource.value < |s.handles|
    ensures s.handles[c.items[i].resource.value].Some? ==> s.handles[c.items[i].resource.value] == s.handles[c.made[i]]
  {
  }

  /** The handle just made is closed again, and the call gives up. */
  lemma ClosedCallOk(s: Store, c: Call, t: Store, d: Call)
    requires CallOk(s, c) && c.phase.Looking? && Shaped(s) && d == c.(phase := Failing(Invalid, 0))
    requires Moves(s, t, Some(c.made[|c.out|])) && c.made[|c.out|] < |t.handles| && t.handles[c.made[|c.out|]].None?
    requires exists g: nat :: Misfit(s, c.items[|c.out|], g)
    ensures CallOk(t, d)
  {
    hide WellPlaced, IdUsed, Inside, SourceOf, Resolved;
    var x := Some(c.made[|c.out|]);
    KnownMoves(s, t, x, c.items);
    assert Blamed(s, d, Invalid);
    BlamedMoves(s, t, x, d, Invalid);
    forall i: nat | i < |d.made| ensures MadeOk(t, d, i) {
      assert MadeOk(s, c, i);
      if i < |c.out| {
        assert MadeOk(s, d, i);
        assert c.made[i] != c.made[|c.out|];
      }
      ClosedMade(s, t, x, c, d, i);
    }
    hide Moves, MadeOk, Blamed, Misfit;
  }

  lemma ClosedMade(s: Store, t: Store, x: Option<nat>, c: Call, d: Call, i: nat)
    requires Placing(c) && Placing(d) && d == c.(phase := d.phase) && i < |c.made| && MadeOk(s, c, i) && Moves(s, t, x)
    requires forall h: nat :: h < |s.handles| && s.handles[h].Some? ==> s.handles[h].value < |s.datas|
    requires Holds(d, i) ==> Holds(c, i) && x != Some(c.made[i])
    requires LetGo(d, i) ==> LetGo(c, i) || (x == Some(c.made[i]) && t.handles[c.made[i]].None?)
    ensures MadeOk(t, d, i)
  {
    hide WellPlaced, IdUsed, Inside, SourceOf, Resolved, Holds, LetGo;
    var h, r := c.made[i], c.items[i].resource.value;
    assert t.handles[h].Some? ==> t.handles[h] == s.handles[h];
    assert t.handles[r].Some? ==> t.handles[r] == s.handles[r];
    assert i < |c.out| && IsOpen(t, h) ==> IsOpen(s, h) && InfoOf(t, h) == InfoOf(s, h);
  }

  lemma FailedOk(s: Store, c: Call)
    requires CallOk(s, c) && Images.Inv(s) && c.phase.Failing?
    ensures CallOk(Unwound(s, c).0, Unwound(s, c).1) && Images.Inv(Unwound(s, c).0) && Unwound(s, c).1.made == c.made
    ensures Moves(s, Unwound(s, c).0, if c.phase.at < |c.out| then Some(c.made[c.phase.at]) else None)
  {
    var at := c.phase.at;
    var (t, d) := Unwound(s, c);
    hide WellPlaced, IdUsed, Inside, SourceOf, Resolved, Blamed;
    if at < |c.out| {
      var h := c.made[at];
      assert MadeOk(s, c, at);
      HandleClosedOk(s, h);
      CloseMoves(s, h);
      hide Images.Inv, HandleClosed;
      KnownMoves(s, t, Some(h), c.items);
      BlamedMoves(s, t, Some(h), c, c.phase.error);
      assert Blamed(t, d, c.phase.error) by { BlamedAlike(t, c, d, c.phase.error); }
      forall i: nat | i < |d.made| ensures MadeOk(t, d, i) {
        assert MadeOk(s, c, i);
        assert i < at ==> c.made[i] != c.made[at];
        assert at < i ==> c.made[at] != c.made[i];
        ClosedMade(s, t, Some(h), c, d, i);
      }
    } else {
      hide Images.Inv;
      assert Blamed(s, d, c.phase.error) by { BlamedAlike(s, c, d, c.phase.error); }
      forall i: nat | i < |d.made| ensures MadeOk(s, d, i) { assert MadeOk(s, c, i); }
    }
  }

  lemma BlamedAlike(s: Store, c: Call, d: Call, e: Error)
    requires Blamed(s, c, e) && d == c.(phase := d.phase)
    ensures Blamed(s, d, e)
  {
    hide WellPlaced, IdUsed, Misfit;
  }

  lemma KeptOk(s: Store, c: Call)
    requires CallOk(s, c) && c.phase.Walking? && |c.out| == |c.items|
    ensures CallOk(s, c.(phase := Returned(Kept(c.out))))
  {
    hide WellPlaced, IdUsed, Inside, SourceOf, Resolved, Blamed;
    var d := c.(phase := Returned(Kept(c.out)));
    forall i: nat | i < |d.made| ensures MadeOk(s, d, i) { assert MadeOk(s, c, i); }
  }

  /** The handle a call's step closes, if any: one it holds. */
  ghost predicate OwnMove(s: Store, t: Store, c: Call) {
    Moves(s, t, None) || exists i: nat :: i < |c.made| && Holds(c, i) && Moves(s, t, Some(c.made[i]))
  }

  lemma AdvancedOk(s: Store, c: Call)
    requires CallOk(s, c) && Images.Inv(s) && !c.phase.Returned?
    ensures c.phase.Looking? ==> c.made != [] && |c.out| < |c.items|
    ensures CallOk(Advanced(s, c).0, Advanced(s, c).1) && Images.Inv(Advanced(s, c).0) && OwnMove(s, Advanced(s, c).0, c)
    ensures Advanced(s, c).1.made == c.made || Advanced(s, c).1.made == c.made + [|s.handles|]
  {
    hide Images.Inv, Entered, Looked, Unwound, MadeOk, Blamed, Moves;
    match c.phase {
      case Walking => if |c.out| < |c.items| { EnteredOk(s, c); } else { KeptOk(s, c); Still(s); }
      case Looking => LookedOk(s, c); assert Holds(c, |c.made| - 1);
      case Failing(_, at) => FailedOk(s, c); assert at < |c.out| ==> Holds(c, at);
    }
  }

  lemma Still(s: Store)
    ensures Moves(s, s, None)
  {
  }

  // ---------------------------------------------------------------- every interleaving

  lemma OtherKeeps(w: World, st: Images.Step)
    requires Inv(w) && Enabled(w, Other(st))
    ensures Inv(Apply(w, Other(st)))
  {
    hide CallOk, Apart, Images.Inv, Images.Apply, Images.Enabled, Moves, Holds;
    var v := Apply(w, Other(st));
    Images.StepKeeps(w.store, st);
    StepMoves(w.store, st);
    var x := if st.CloseImage? then Some(st.h) else None;
    forall c: nat | c < |v.calls| ensures CallOk(v.store, v.calls[c]) {
      assert CallOk(w.store, w.calls[c]);
      CallMoves(w.store, v.store, x, w.calls[c]);
    }
  }

  lemma BeginKeeps(w: World, items: seq<PlacedImage>)
    requires Inv(w) && Enabled(w, Begin(items))
    ensures Inv(Apply(w, Begin(items)))
  {
    hide Images.Inv;
    var v := Apply(w, Begin(items));
    assert CallOk(v.store, Begun(items));
    hide CallOk;
    forall c: nat | c < |v.calls| ensures CallOk(v.store, v.calls[c]) {
      if c < |w.calls| { assert CallOk(w.store, w.calls[c]); }
    }
  }

  lemma GoKeeps(w: World, c: nat)
    requires Inv(w) && Enabled(w, Go(c))
    ensures Inv(Apply(w, Go(c)))
  {
    hide CallOk, Apart, Images.Inv, Moves, Advanced;
    var v := Apply(w, Go(c));
    var s := w.store;
    assert CallOk(s, w.calls[c]);
    AdvancedOk(s, w.calls[c]);
    forall d: nat | d < |v.calls| ensures CallOk(v.store, v.calls[d]) {
      if d != c {
        assert CallOk(s, w.calls[d]);
        assert Apart(w.calls[c], w.calls[d]) || Apart(w.calls[d], w.calls[c]);
        OthersKept(s, v.store, w.calls[c], w.calls[d]);
      }
    }
    forall a: nat, b: nat | a < b < |v.calls| ensures Apart(v.calls[a], v.calls[b]) {
      assert Apart(w.calls[a], w.calls[b]);
      if a == c { StillApart(s, w.calls[a], w.calls[b], v.calls[a]); }
      if b == c { StillApart(s, w.calls[b], w.calls[a], v.calls[b]); }
    }
  }

  /** A call's own step does not touch what another call holds. */
  lemma OthersKept(s: Store, t: Store, c: Call, d: Call)
    requires OwnMove(s, t, c) && CallOk(s, d) && Images.Inv(s) && (Apart(c, d) || Apart(d, c))
    ensures CallOk(t, d)
  {
    hide CallOk, Images.Inv, Moves, Holds;
    if Moves(s, t, None) {
      CallMoves(s, t, None, d);
    } else {
      var i: nat :| i < |c.made| && Holds(c, i) && Moves(s, t, Some(c.made[i]));
      CallMoves(s, t, Some(c.made[i]), d);
    }
  }

  lemma StillApart(s: Store, c: Call, d: Call, e: Call)
    requires (Apart(c, d) || Apart(d, c)) && CallOk(s, d) && (e.made == c.made || e.made == c.made + [|s.handles|])
    ensures Apart(e, d) && Apart(d, e)
  {
    hide WellPlaced, IdUsed, Inside, SourceOf, Resolved, Blamed;
    forall i: nat, j: nat | i < |e.made| && j < |d.made| ensures e.made[i] != d.made[j] {
      assert MadeOk(s, d, j);
    }
  }

  lemma StepKeeps(w: World, st: Step)
    requires Inv(w) && Enabled(w, st)
    ensures Inv(Apply(w, st))
  {
    hide Inv, Apply, Enabled;
    match st {
      case Other(a) => OtherKeeps(w, a);
      case Begin(items) => BeginKeeps(w, items);
      case Go(c) => GoKeeps(w, c);
    }
  }

  lemma {:induction false} RunKeeps(w: World, steps: seq<Step>)
    requires Inv(w) && Runs(w, steps)
    ensures Inv(Exec(w, steps))
    decreases |steps|
  {
    if steps != [] {
      StepKeeps(w, steps[0]);
      hide Inv, Apply, Enabled;
      RunKeeps(Apply(w, steps[0]), steps[1..]);
    }
  }

  /** A world some run reaches from an empty store of that limit, with no call begun. */
  ghost predicate Reached(limit: int, w: World) {
    exists steps :: Runs(World(NewStore(limit), []), steps) && Exec(World(NewStore(limit), []), steps) == w
  }

  lemma ReachedOk(limit: int, w: World)
    requires Reached(limit, w)
    ensures Inv(w)
  {
    hide Inv, Enabled, Apply, NewStore;
    StartOk(limit);
    var start := World(NewStore(limit), []);
    var steps :| Runs(start, steps) && Exec(start, steps) == w;
    RunKeeps(start, steps);
  }

  lemma StartOk(limit: int)
    ensures Inv(World(NewStore(limit), []))
  {
  }

  // ---------------------------------------------------------------- all or nothing

  /** The open handles to image data `d`. */
  function OpenTo(handles: seq<Option<nat>>, d: nat): set<nat> {
    set h: nat | h < |handles| && handles[h] == Some(d)
  }

  lemma {:induction false} CountIsOpen(handles: seq<Option<nat>>, d: nat)
    ensures Count(handles, d) == |OpenTo(handles, d)|
  {
    if handles == [] {
      assert OpenTo(handles, d) == {};
    } else {
      var n := |handles| - 1;
      CountIsOpen(handles[..n], d);
      assert OpenTo(handles, d) == OpenTo(handles[..n], d) + (if handles[n] == Some(d) then {n} else {});
    }
  }

  function HandleSet(made: seq<nat>): set<nat> {
    set i | 0 <= i < |made| :: made[i]
  }

  /** The items whose own handle shows image data `d`. */
  function Showing(handles: seq<Option<nat>>, made: seq<nat>, d: nat): set<nat> {
    set i: nat | i < |made| && made[i] < |handles| && handles[made[i]] == Some(d)
  }

  lemma LastHandle(made: seq<nat>)
    requires made != [] && forall i: nat, j: nat :: i < j < |made| ==> made[i] != made[j]
    ensures var n := |made| - 1; made[n] !in HandleSet(made[..n]) && HandleSet(made) == HandleSet(made[..n]) + {made[n]}
  {
  }

  lemma LastShowing(handles: seq<Option<nat>>, made: seq<nat>, d: nat)
    requires made != []
    ensures var n := |made| - 1; Showing(handles, made, d) == Showing(handles, made[..n], d) + (if made[n] in OpenTo(handles, d) then {n} else {})
    ensures |made| - 1 !in Showing(handles, made[..|made| - 1], d)
  {
  }

  lemma OneMore(open: set<nat>, own: set<nat>, h: nat)
    requires h !in own
    ensures |open * (own + {h})| == |open * own| + (if h in open then 1 else 0)
  {
    assert open * (own + {h}) == (open * own) + (if h in open then {h} else {});
  }

  lemma NoHandles(handles: seq<Option<nat>>, d: nat)
    ensures HandleSet([]) == {} && Showing(handles, [], d) == {}
  {
  }

  /** Distinct handles: as many of them are open to `d` as items show it. */
  lemma {:induction false} OwnHandles(handles: seq<Option<nat>>, made: seq<nat>, d: nat)
    requires forall i: nat, j: nat :: i < j < |made| ==> made[i] != made[j]
    ensures |OpenTo(handles, d) * HandleSet(made)| == |Showing(handles, made, d)|
  {
    hide HandleSet, OpenTo, Showing;
    if made == [] {
      NoHandles(handles, d);
      assert OpenTo(handles, d) * {} == {};
    } else {
      var n := |made| - 1;
      OwnHandles(handles, made[..n], d);
      LastHandle(made);
      LastShowing(handles, made, d);
      OneMore(OpenTo(handles, d), HandleSet(made[..n]), made[n]);
    }
  }

  /**
   * After a failed call every handle it made is closed, whatever came between, so that each image's count
   * is that of the handles of others.
   */
  lemma FailedHoldsNothing(limit: int, w: World, c: nat, d: nat)
    requires Reached(limit, w) && c < |w.calls| && w.calls[c].phase.Returned? && w.calls[c].phase.result.Failed? && d < |w.store.datas|
    ensures var made, s := w.calls[c].made, w.store;
      && (forall i :: 0 <= i < |made| ==> made[i] < |s.handles| && s.handles[made[i]].None?)
      && s.datas[d].refs == |OpenTo(s.handles, d) - HandleSet(made)|
  {
    ReachedOk(limit, w);
    var made, s := w.calls[c].made, w.store;
    assert CallOk(s, w.calls[c]);
    forall i | 0 <= i < |made| ensures made[i] < |s.handles| && s.handles[made[i]].None? { assert MadeOk(s, w.calls[c], i); }
    assert DataOk(s, d);
    CountIsOpen(s.handles, d);
    assert OpenTo(s.handles, d) - HandleSet(made) == OpenTo(s.handles, d);
  }

  /** What a failed call reports is true of its items: too many, a resource closed meanwhile, or one that does not fit. */
  lemma FailureIsBlamed(limit: int, w: World, c: nat)
    requires Reached(limit, w) && c < |w.calls| && w.calls[c].phase.Returned? && w.calls[c].phase.result.Failed?
    ensures Blamed(w.store, w.calls[c], w.calls[c].phase.result.error)
  {
    ReachedOk(limit, w);
    assert CallOk(w.store, w.calls[c]);
  }

  /**
   * When a call returns its placements, it has made exactly one handle per item, all distinct and open, each
   * showing the image its item's resource shows while open. Each image's count is that of the handles of
   * others plus one for every item that shows it.
   */
  lemma KeptHoldsEach(limit: int, w: World, c: nat, d: nat)
    requires Reached(limit, w) && Enabled(w, Go(c)) && w.calls[c].phase.Walking? && |w.calls[c].out| == |w.calls[c].items| && d < |w.store.datas|
    ensures var v := Apply(w, Go(c));
      var call, s := v.calls[c], v.store;
      && call.phase == Returned(Kept(call.out)) && s == w.store
      && |call.out| == |call.made| == |call.items| && (forall i, j :: 0 <= i < j < |call.made| ==> call.made[i] != call.made[j])
      && (forall i: nat :: i < |call.items| ==> Shown(s, call.items[i], call.made[i], call.out[i]))
      && s.datas[d].refs == |OpenTo(s.handles, d) - HandleSet(call.made)| + |Showing(s.handles, call.made, d)|
  {
    ReachedOk(limit, w);
    var call, s := w.calls[c], w.store;
    assert CallOk(s, call);
    hide WellPlaced, IdUsed, SourceOf, Resolved;
    forall i: nat | i < |call.items| ensures Shown(s, call.items[i], call.made[i], call.out[i]) {
      assert MadeOk(s, call, i);
      MadeShows(s, call, i);
    }
    assert DataOk(s, d);
    CountIsOpen(s.handles, d);
    var open := OpenTo(s.handles, d);
    OwnHandles(s.handles, call.made, d);
    assert open == (open - HandleSet(call.made)) + (open * HandleSet(call.made));
    hide Images.Inv, DataOk;
  }

  /** Handle `h` is open and shows the item's image, and the placement is resolved against that image. */
  ghost predicate Shown(s: Store, item: PlacedImage, h: nat, placed: PlacedImage) {
    && IsOpen(s, h) && placed == PlacedImage(Some(h), Resolved(item.placement, InfoOf(s, h)))
    && Inside(SourceOf(item.placement, InfoOf(s, h)), InfoOf(s, h))
    && item.resource.Some? && item.resource.value < |s.handles|
    && (s.handles[item.resource.value].Some? ==> s.handles[item.resource.value] == s.handles[h])
  }

  /** How many steps of its own a call has left, at most. */
  function Left(c: Call): int {
    match c.phase
    case Walking => 3 * (|c.items| - |c.out|) + |c.items| + 2
    case Looking => 3 * (|c.items| - |c.out|) + |c.items| + 1
    case Failing(_, at) => |c.out| - at + 1
    case Returned(_) => 0
  }

  /** A call that has not returned can always go on, and returns after finitely many steps of its own. */
  lemma AlwaysReturns(limit: int, w: World, c: nat)
    requires Reached(limit, w) && c < |w.calls| && !w.calls[c].phase.Returned?
    ensures Enabled(w, Go(c)) && 0 <= Left(Apply(w, Go(c)).calls[c]) < Left(w.calls[c])
  {
    ReachedOk(limit, w);
    var call := w.calls[c];
    assert CallOk(w.store, call);
    AdvancedOk(w.store, call);
    assert CallOk(Advanced(w.store, call).0, Advanced(w.store, call).1);
    hide Inv, MadeOk, Blamed, WellPlaced, IdUsed, Inside, SourceOf, Resolved, HandleClosed, Retained, OwnMove;
  }
}
