/**
 Following a rotating log by polling. Names move and files are unlinked between
 and during polls; a file number may be reused once nothing refers to the old
 file. One event is an append, a rotation, or one step of a poll.
 */
module LogFollower {
  import opened Options

  /** A file and the number that identifies it while it is named or open. */
  datatype File = File(id: nat, bytes: string)

  /** A handle with the size it was captured with. */
  datatype Input = Input(file: nat, size: nat)

  /** Between polls, with the boundary read, or at the i-th retained or captured handle. */
  datatype Pc = Idle | Armed | Draining(i: nat) | Copying(i: nat)

  /**
   `offsets` and `retained` are the follower's; `next`, `live` and `view` belong to
   the poll in progress. `boundary` is the saved view boundary, `clearing` the
   handles of a clear in progress. History, per file: `pos` is how far it has been
   dealt with, `out` what was written of it, `fate` which bytes before `pos` were
   written; `mark` and `before` are its length and `pos` at the last capture;
   `cleared` is how far a saved clear covered it, `heir` what its number inherited
   when it appeared. `rotations` counts rotations since the last capture, one more
   if that found no current file; `fast` tells that there were more than two.
   */
  datatype World = World(
    files: seq<File>,
    previous: Option<nat>,
    current: Option<nat>,
    offsets: map<nat, nat>,
    retained: seq<Input>,
    next: seq<Input>,
    live: map<nat, nat>,
    view: map<nat, nat>,
    boundary: map<nat, nat>,
    clearing: Option<seq<Input>>,
    pc: Pc,
    pos: seq<nat>,
    out: seq<string>,
    fate: seq<seq<bool>>,
    mark: seq<nat>,
    before: seq<nat>,
    cleared: seq<nat>,
    heir: seq<nat>,
    rotations: nat,
    fast: bool)

  function Present(file: Option<File>): seq<File> { if file.Some? then [file.value] else [] }

  /** A follower starts on whatever generations and boundary it finds; until its first capture no rotation is free. */
  function Start(previous: Option<File>, current: Option<File>, boundary: map<nat, nat>): World {
    var files := Present(previous) + Present(current);
    var n := |files|;
    World(files,
          if previous.Some? then Some(0) else None,
          if current.Some? then Some(|Present(previous)|) else None,
          map[], [], [], map[], map[], boundary, None, Idle,
          seq(n, _ => 0), seq(n, _ => ""), seq(n, _ => []), [], [],
          seq(n, _ => 0), seq(n, f requires 0 <= f < n => Get(boundary, files[f].id)), 2, false)
  }

  datatype Event =
    | Create(id: nat)
    | Append(bytes: string)
    | Rotate
    | ClearCapture
    | ClearSave
    | ClearFails
    | Read
    | Capture
    | Drain
    | Copy

  function Get(offsets: map<nat, nat>, id: nat): nat { if id in offsets then offsets[id] else 0 }

  function Max(a: nat, b: nat): nat { if a > b then a else b }

  predicate Named(w: World, f: nat) { w.previous == Some(f) || w.current == Some(f) }

  predicate Holds(inputs: seq<Input>, f: nat) { exists k :: 0 <= k < |inputs| && inputs[k].file == f }

  predicate Resting(w: World) { w.pc.Idle? || w.pc.Armed? }

  /** A file that is named or open keeps its number to itself. */
  predicate InUse(w: World, f: nat) {
    Named(w, f) || (!w.pc.Copying? && Holds(w.retained, f)) || (!Resting(w) && Holds(w.next, f))
    || (w.clearing.Some? && Holds(w.clearing.value, f))
  }

  predicate Free(w: World, id: nat) { forall f :: 0 <= f < |w.files| && InUse(w, f) ==> w.files[f].id != id }

  /** The current generation is opened, and created if it is missing. */
  function CreateStep(w: World, id: nat): World {
    if w.current.Some? || !Free(w, id) then w
    else
      var heir := if w.pc.Armed? then Max(Get(w.boundary, id), Get(w.view, id)) else Get(w.boundary, id);
      w.(files := w.files + [File(id, "")], current := Some(|w.files|), pos := w.pos + [0], out := w.out + [""],
         fate := w.fate + [[]], cleared := w.cleared + [0], heir := w.heir + [heir])
  }

  function AppendStep(w: World, bytes: string): World {
    if w.current == None || w.current.value >= |w.files| then w
    else
      var f := w.current.value;
      w.(files := w.files[f := w.files[f].(bytes := w.files[f].bytes + bytes)])
  }

  /** The previous generation loses its name, the current one becomes previous. */
  function RotateStep(w: World): World {
    if w.current == None then w
    else w.(previous := w.current, current := None, rotations := w.rotations + 1, fast := w.fast || w.rotations >= 2)
  }

  function CaptureOne(w: World, name: Option<nat>): seq<Input> {
    if name.Some? && name.value < |w.files| then [Input(name.value, |w.files[name.value].bytes|)] else []
  }

  /** Both names are opened under the lock, previous first. */
  function Snapshot(w: World): seq<Input> { CaptureOne(w, w.previous) + CaptureOne(w, w.current) }

  /** Clearing the view captures the names and keeps the handles open until it has saved their sizes. */
  function ClearCaptureStep(w: World): World {
    if w.clearing.Some? then w else w.(clearing := Some(Snapshot(w)))
  }

  function Sizes(files: seq<File>, inputs: seq<Input>): map<nat, nat> {
    if inputs == [] then map[]
    else
      var last := inputs[|inputs| - 1];
      var sizes := Sizes(files, inputs[..|inputs| - 1]);
      if last.file < |files| then sizes[files[last.file].id := last.size] else sizes
  }

  /** How far the clear in progress covers a file. */
  function Covers(inputs: seq<Input>, f: nat): nat {
    if inputs == [] then 0
    else
      var last, rest := inputs[|inputs| - 1], Covers(inputs[..|inputs| - 1], f);
      if last.file == f then Max(last.size, rest) else rest
  }

  /** The new boundary replaces the old one as a whole. */
  function ClearSaveStep(w: World): World {
    if w.clearing == None then w
    else
      var inputs := w.clearing.value;
      w.(boundary := Sizes(w.files, inputs), clearing := None,
         cleared := seq(|w.cleared|, f requires 0 <= f < |w.cleared| => Max(w.cleared[f], Covers(inputs, f))))
  }

  /** Every poll begins by reading the boundary. */
  function ReadStep(w: World): World { if w.pc != Idle then w else w.(view := w.boundary, pc := Armed) }

  function CaptureStep(w: World): World {
    if w.pc != Armed then w
    else
      w.(next := Snapshot(w), live := map[], pc := Draining(0),
         mark := seq(|w.files|, f requires 0 <= f < |w.files| => |w.files[f].bytes|), before := w.pos,
         rotations := if w.current == None then 1 else 0)
  }

  /**
   copyInput: the offset is the larger of the view's own and the boundary's for this
   number; what lies from there to the size is written, and the offset moves past it.
   */
  function CopyInput(w: World, f: nat, size: nat): World
    requires f < |w.files| && f < |w.pos| && f < |w.out| && f < |w.fate| && size <= |w.files[f].bytes|
  {
    var id := w.files[f].id;
    var own := Get(w.offsets, id);
    var offset := Max(own, Get(w.view, id));
    var fate := w.fate[f] + Repeat(false, offset - own);
    if offset >= size then w.(offsets := w.offsets[id := offset], pos := w.pos[f := offset], fate := w.fate[f := fate])
    else
      w.(offsets := w.offsets[id := size], pos := w.pos[f := size],
         out := w.out[f := w.out[f] + w.files[f].bytes[offset..size]],
         fate := w.fate[f := fate + Repeat(true, size - offset)])
  }

  function Repeat(written: bool, n: nat): seq<bool> { seq(n, _ => written) }

  /** Retained handles first, with their sizes refreshed; then they are closed. */
  function DrainStep(w: World): World {
    if !w.pc.Draining? then w
    else
      var i := w.pc.i;
      if i >= |w.retained| then w.(pc := Copying(0))
      else
        var f := w.retained[i].file;
        if f < |w.files| && f < |w.pos| && f < |w.out| && f < |w.fate| then CopyInput(w, f, |w.files[f].bytes|).(pc := Draining(i + 1))
        else w
  }

  /** Captured inputs next; only their offsets survive, and their handles are retained. */
  function CopyStep(w: World): World {
    if !w.pc.Copying? then w
    else
      var i := w.pc.i;
      if i >= |w.next| then w.(offsets := w.live, retained := w.next, pc := Idle)
      else
        var f := w.next[i].file;
        if f < |w.files| && f < |w.pos| && f < |w.out| && f < |w.fate| && w.next[i].size <= |w.files[f].bytes| then
          var v := CopyInput(w, f, w.next[i].size);
          v.(live := v.live[w.files[f].id := Get(v.offsets, w.files[f].id)], pc := Copying(i + 1))
        else w
  }

  function Next(w: World, e: Event): World {
    match e
    case Create(id) => CreateStep(w, id)
    case Append(bytes) => AppendStep(w, bytes)
    case Rotate => RotateStep(w)
    case ClearCapture => ClearCaptureStep(w)
    case ClearSave => ClearSaveStep(w)
    case ClearFails => w.(clearing := None)
    case Read => ReadStep(w)
    case Capture => CaptureStep(w)
    case Drain => DrainStep(w)
    case Copy => CopyStep(w)
  }

  function Run(w: World, events: seq<Event>): World
    decreases |events|
  {
    if events == [] then w else Run(Next(w, events[0]), events[1..])
  }

  // ---------------------------------------------------------------- invariant

  predicate Shape(w: World) {
    && |w.pos| == |w.out| == |w.fate| == |w.files| && |w.mark| <= |w.files|
    && (w.previous.Some? ==> w.previous.value < |w.files|) && (w.current.Some? ==> w.current.value < |w.files|)
    && (forall k :: 0 <= k < |w.retained| ==> w.retained[k].file < |w.files|)
    && (forall k :: 0 <= k < |w.next| ==> w.next[k].file < |w.files| && w.next[k].size <= |w.files[w.next[k].file].bytes|)
    && (w.previous.Some? ==> w.previous != w.current)
  }

  /** The bytes whose fate is to be written, in their order. */
  function Shown(bytes: string, fate: seq<bool>): string {
    if fate == [] then ""
    else
      var n := |fate| - 1;
      Shown(bytes, fate[..n]) + if fate[n] && n < |bytes| then [bytes[n]] else ""
  }

  /** Of the bytes before the position each was written once, in order, or skipped. */
  predicate Delivered(file: File, pos: nat, out: string, fate: seq<bool>) {
    && |fate| == pos && out == Shown(file.bytes, fate)
    && (forall p :: 0 <= p < pos && fate[p] ==> p < |file.bytes|)
  }

  predicate NumbersApart(w: World) {
    forall f, g :: 0 <= f < g < |w.files| && InUse(w, f) && InUse(w, g) ==> w.files[f].id != w.files[g].id
  }

  /** The handles whose offsets the view still needs. */
  predicate Tracked(w: World, f: nat) {
    match w.pc
    case Idle => Holds(w.retained, f)
    case Armed => Holds(w.retained, f)
    case Draining(_) => Holds(w.retained, f) || Holds(w.next, f)
    case Copying(_) => Holds(w.next, f)
  }

  /** The handles of the last capture. */
  predicate Handled(w: World, f: nat) { if Resting(w) then Holds(w.retained, f) else Holds(w.next, f) }

  predicate Undrained(w: World, f: nat) {
    w.pc.Draining? && exists k :: w.pc.i <= k < |w.retained| && w.retained[k].file == f
  }

  predicate Copied(w: World, f: nat) {
    Resting(w) || (w.pc.Copying? && exists k :: 0 <= k < w.pc.i && k < |w.next| && w.next[k].file == f)
  }

  /** What the follower knows of one file. */
  predicate FileOk(w: World, f: nat)
    requires Shape(w) && f < |w.files|
  {
    && Delivered(w.files[f], w.pos[f], w.out[f], w.fate[f])
    && (Tracked(w, f) ==> Get(w.offsets, w.files[f].id) == w.pos[f])
    && (if f < |w.mark| then
          && w.mark[f] <= |w.files[f].bytes|
          && (Handled(w, f) && Copied(w, f) ==> w.pos[f] >= w.mark[f])
          && (!Handled(w, f) ==> !Named(w, f) && (!w.fast && !Undrained(w, f) ==> w.pos[f] >= |w.files[f].bytes|))
        else
          w.pos[f] == 0 && (!w.fast ==> Named(w, f)))
  }

  predicate HandlesOk(w: World) {
    && (forall k :: 0 <= k < |w.retained| ==> w.retained[k].file < |w.mark|)
    && (!Resting(w) ==> forall k :: 0 <= k < |w.next| ==>
          w.next[k].file < |w.mark| && w.next[k].size == w.mark[w.next[k].file])
    && (w.pc.Draining? ==> w.pc.i <= |w.retained|) && (w.pc.Copying? ==> w.pc.i <= |w.next|)
  }

  predicate OffsetsOk(w: World)
    requires Shape(w)
  {
    && (!w.pc.Copying? ==> forall id :: id in w.offsets ==> exists k :: 0 <= k < |w.retained| && w.files[w.retained[k].file].id == id)
    && (w.pc.Draining? ==> w.live == map[])
    && (w.pc.Copying? ==>
          && (forall id :: id in w.live ==> exists k :: 0 <= k < w.pc.i && k < |w.next| && w.files[w.next[k].file].id == id)
          && (forall k :: 0 <= k < w.pc.i && k < |w.next| ==> Get(w.live, w.files[w.next[k].file].id) == w.pos[w.next[k].file]))
  }

  predicate CountsOk(w: World) {
    && (w.previous.Some? && w.previous.value >= |w.mark| ==> w.rotations >= 2)
    && (w.current.Some? && w.current.value >= |w.mark| ==> w.rotations >= 1)
    && (w.current == None ==> w.rotations >= 1)
  }

  predicate Inv(w: World) {
    && Shape(w) && NumbersApart(w) && HandlesOk(w) && OffsetsOk(w) && CountsOk(w)
    && (forall f :: 0 <= f < |w.files| ==> FileOk(w, f))
  }

  lemma CreateFile(w: World, id: nat, f: nat)
    requires Inv(w) && f < |w.files| && FileOk(w, f)
    ensures Shape(CreateStep(w, id)) && FileOk(CreateStep(w, id), f)
  {
    hide NumbersApart, OffsetsOk, CountsOk;
  }

  lemma CreateInv(w: World, id: nat)
    requires Inv(w)
    ensures Inv(CreateStep(w, id))
  {
    var v := CreateStep(w, id);
    forall f | 0 <= f < |v.files|
      ensures Shape(v) && FileOk(v, f)
    {
      if f < |w.files| {
        assert FileOk(w, f);
        CreateFile(w, id, f);
      }
    }
    hide FileOk;
  }

  lemma DeliveredStays(file: File, more: string, pos: nat, out: string, fate: seq<bool>)
    requires Delivered(file, pos, out, fate)
    ensures Delivered(file.(bytes := file.bytes + more), pos, out, fate)
  {
    ShownStays(file.bytes, more, fate);
  }

  lemma AppendKeeps(w: World, bytes: string, f: nat)
    requires f < |w.files|
    ensures var v := AppendStep(w, bytes);
      && |v.files| == |w.files| && (v.files[f] == w.files[f] || v.files[f] == w.files[f].(bytes := w.files[f].bytes + bytes))
      && v.pos == w.pos && v.out == w.out && v.fate == w.fate && v.mark == w.mark && v.offsets == w.offsets && v.pc == w.pc
      && v.retained == w.retained && v.next == w.next && v.previous == w.previous && v.current == w.current && v.fast == w.fast
  {
  }

  lemma AppendShape(w: World, bytes: string)
    requires Shape(w)
    ensures Shape(AppendStep(w, bytes))
  {
  }

  lemma AppendFile(w: World, bytes: string, f: nat)
    requires Inv(w) && f < |w.files| && FileOk(w, f)
    ensures Shape(AppendStep(w, bytes)) && f < |AppendStep(w, bytes).files| && FileOk(AppendStep(w, bytes), f)
  {
    AppendShape(w, bytes);
    hide Delivered, Inv, AppendStep, Shape;
    AppendKeeps(w, bytes, f);
    DeliveredStays(w.files[f], bytes, w.pos[f], w.out[f], w.fate[f]);
  }

  lemma AppendInv(w: World, bytes: string)
    requires Inv(w)
    ensures Inv(AppendStep(w, bytes))
  {
    var v := AppendStep(w, bytes);
    forall f | 0 <= f < |v.files|
      ensures Shape(v) && FileOk(v, f)
    {
      assert FileOk(w, f);
      AppendFile(w, bytes, f);
    }
    hide FileOk;
    SameNumbers(w, v);
    AppendHandles(w, bytes);
    hide Shape, HandlesOk, CountsOk, NumbersApart, OffsetsOk, AppendStep;
  }

  lemma AppendHandles(w: World, bytes: string)
    requires HandlesOk(w) && CountsOk(w)
    ensures HandlesOk(AppendStep(w, bytes)) && CountsOk(AppendStep(w, bytes))
  {
  }

  /** Growing a file changes no number. */
  lemma SameNumbers(w: World, v: World)
    requires Shape(w) && Shape(v) && NumbersApart(w) && OffsetsOk(w) && v == w.(files := v.files) && |v.files| == |w.files|
    requires forall f :: 0 <= f < |w.files| ==> v.files[f].id == w.files[f].id
    ensures NumbersApart(v) && OffsetsOk(v)
  {
    forall f, g | 0 <= f < g < |v.files| && InUse(v, f) && InUse(v, g)
      ensures v.files[f].id != v.files[g].id
    {
      assert InUse(w, f) && InUse(w, g);
    }
    hide InUse, NumbersApart;
  }

  lemma RotateInv(w: World)
    requires Inv(w)
    ensures Inv(RotateStep(w))
  {
    var v := RotateStep(w);
    forall f | 0 <= f < |v.files|
      ensures FileOk(v, f)
    {
      assert FileOk(w, f);
    }
  }

  /** Steps of a clear, and reading the boundary, touch nothing the follower relies on but the handles of the clear. */
  lemma AsideInv(w: World, e: Event)
    requires Inv(w) && (e.ClearCapture? || e.ClearSave? || e.ClearFails? || e.Read?)
    ensures Inv(Next(w, e))
  {
    var v := Next(w, e);
    AsideNumbers(w, e);
    hide FileOk, NumbersApart, Snapshot, Sizes, Covers;
    forall f | 0 <= f < |v.files|
      ensures Shape(v) && FileOk(v, f)
    {
      assert FileOk(w, f);
      AsideFile(w, e, f);
    }
    hide OffsetsOk, CountsOk, HandlesOk, Shape;
    AsideRest(w, e);
    hide Inv, Next;
  }

  lemma AsideRest(w: World, e: Event)
    requires Shape(w) && HandlesOk(w) && OffsetsOk(w) && CountsOk(w)
    requires e.ClearCapture? || e.ClearSave? || e.ClearFails? || e.Read?
    ensures var v := Next(w, e); Shape(v) && HandlesOk(v) && OffsetsOk(v) && CountsOk(v)
  {
    hide Shape, HandlesOk, OffsetsOk, CountsOk;
    if e.Read? {
      ReadRest(w);
    } else {
      ClearRest(w, e);
    }
  }

  lemma ReadRest(w: World)
    requires Shape(w) && HandlesOk(w) && OffsetsOk(w) && CountsOk(w)
    ensures var v := ReadStep(w); Shape(v) && HandlesOk(v) && OffsetsOk(v) && CountsOk(v)
  {
    hide Get;
  }

  lemma ClearRest(w: World, e: Event)
    requires Shape(w) && HandlesOk(w) && OffsetsOk(w) && CountsOk(w) && (e.ClearCapture? || e.ClearSave? || e.ClearFails?)
    ensures var v := Next(w, e); Shape(v) && HandlesOk(v) && OffsetsOk(v) && CountsOk(v)
  {
    hide Snapshot, Sizes, Covers, Get, Max;
  }

  lemma AsideFile(w: World, e: Event, f: nat)
    requires Inv(w) && (e.ClearCapture? || e.ClearSave? || e.ClearFails? || e.Read?) && f < |w.files| && FileOk(w, f)
    ensures Shape(Next(w, e)) && FileOk(Next(w, e), f)
  {
    hide NumbersApart, Snapshot, Sizes, Covers, Delivered, OffsetsOk, CountsOk, HandlesOk, InUse, Max;
  }

  lemma AsideNumbers(w: World, e: Event)
    requires Inv(w) && (e.ClearCapture? || e.ClearSave? || e.ClearFails? || e.Read?)
    ensures NumbersApart(Next(w, e))
  {
    var v := Next(w, e);
    SnapshotNamed(w);
    forall f, g | 0 <= f < g < |v.files| && InUse(v, f) && InUse(v, g)
      ensures v.files[f].id != v.files[g].id
    {
      assert InUse(w, f) && InUse(w, g);
    }
  }

  lemma SnapshotNamed(w: World)
    requires Shape(w)
    ensures forall f: nat :: Holds(Snapshot(w), f) <==> Named(w, f)
  {
    var a, b := CaptureOne(w, w.previous), CaptureOne(w, w.current);
    forall f: nat
      ensures Holds(Snapshot(w), f) <==> Named(w, f)
    {
      if w.previous == Some(f) {
        assert Snapshot(w)[0].file == f;
      }
      if w.current == Some(f) {
        assert Snapshot(w)[|a|].file == f;
      }
    }
  }

  lemma CaptureInv(w: World)
    requires Inv(w)
    ensures Inv(CaptureStep(w))
  {
    var v := CaptureStep(w);
    if v != w {
      SnapshotNamed(w);
      forall f | 0 <= f < |v.files|
        ensures FileOk(v, f)
      {
        assert FileOk(w, f);
        CaptureFile(w, f);
      }
    }
  }

  /** A file that has no offset yet was never seen, and its number is not that of a retained handle. */
  lemma CaptureFile(w: World, f: nat)
    requires Inv(w) && w.pc == Armed && f < |w.files| && FileOk(w, f)
    requires forall g: nat :: Holds(Snapshot(w), g) <==> Named(w, g)
    ensures Shape(CaptureStep(w)) && FileOk(CaptureStep(w), f)
  {
    var v := CaptureStep(w);
    if Named(w, f) && w.files[f].id in w.offsets {
      var k :| 0 <= k < |w.retained| && w.files[w.retained[k].file].id == w.files[f].id;
      var g := w.retained[k].file;
      assert Holds(w.retained, g) && InUse(w, g) && InUse(w, f);
      assert g == f && Holds(w.retained, f);
    }
    assert Undrained(v, f) <==> Holds(w.retained, f) by {
      if Holds(w.retained, f) {
        var k :| 0 <= k < |w.retained| && w.retained[k].file == f;
        assert v.pc.i <= k;
      }
    }
  }

  lemma {:induction false} ShownSkips(bytes: string, fate: seq<bool>, n: nat)
    ensures Shown(bytes, fate + Repeat(false, n)) == Shown(bytes, fate)
  {
    if n == 0 {
      assert fate + Repeat(false, n) == fate;
    } else {
      var whole := fate + Repeat(false, n);
      assert whole[..|whole| - 1] == fate + Repeat(false, n - 1);
      ShownSkips(bytes, fate, n - 1);
    }
  }

  lemma {:induction false} ShownGrows(bytes: string, fate: seq<bool>, n: nat)
    requires |fate| + n <= |bytes|
    ensures Shown(bytes, fate + Repeat(true, n)) == Shown(bytes, fate) + bytes[|fate|..|fate| + n]
  {
    if n == 0 {
      assert fate + Repeat(true, n) == fate;
    } else {
      var whole := fate + Repeat(true, n);
      assert whole[..|whole| - 1] == fate + Repeat(true, n - 1);
      ShownGrows(bytes, fate, n - 1);
      assert bytes[|fate|..|fate| + n] == bytes[|fate|..|fate| + n - 1] + [bytes[|fate| + n - 1]];
    }
  }

  /** Appending to a file changes nothing about what was written of it. */
  lemma {:induction false} ShownStays(bytes: string, more: string, fate: seq<bool>)
    requires forall p :: 0 <= p < |fate| && fate[p] ==> p < |bytes|
    ensures Shown(bytes + more, fate) == Shown(bytes, fate)
  {
    if fate != [] {
      ShownStays(bytes, more, fate[..|fate| - 1]);
    }
  }

  lemma DeliverMore(file: File, pos: nat, out: string, fate: seq<bool>, offset: nat, size: nat)
    requires Delivered(file, pos, out, fate) && pos <= offset && size <= |file.bytes|
    ensures offset >= size ==> Delivered(file, offset, out, fate + Repeat(false, offset - pos))
    ensures offset < size ==>
              Delivered(file, size, out + file.bytes[offset..size], fate + Repeat(false, offset - pos) + Repeat(true, size - offset))
  {
    ShownSkips(file.bytes, fate, offset - pos);
    if offset < size {
      ShownGrows(file.bytes, fate + Repeat(false, offset - pos), size - offset);
    }
    hide Shown;
  }

  /** A position that a copy passes is written exactly if the boundary of the poll does not cover it. */
  predicate Extends(fate: seq<bool>, more: seq<bool>, covered: nat) {
    fate <= more && forall p :: |fate| <= p < |more| ==> (more[p] <==> p >= covered)
  }

  lemma CopyInputFrame(w: World, f: nat, size: nat)
    requires f < |w.files| && f < |w.pos| && f < |w.out| && f < |w.fate| && size <= |w.files[f].bytes|
    ensures var v := CopyInput(w, f, size);
      && v == w.(offsets := v.offsets, pos := v.pos, out := v.out, fate := v.fate)
      && |v.pos| == |w.pos| && |v.out| == |w.out| && |v.fate| == |w.fate|
      && (forall g :: 0 <= g < |w.pos| && g != f ==> v.pos[g] == w.pos[g])
      && (forall g :: 0 <= g < |w.out| && g != f ==> v.out[g] == w.out[g])
      && (forall g :: 0 <= g < |w.fate| && g != f ==> v.fate[g] == w.fate[g])
  {
    hide Get, Repeat;
  }

  lemma CopyInputDelivers(w: World, f: nat, size: nat)
    requires f < |w.files| && f < |w.pos| && f < |w.out| && f < |w.fate| && size <= |w.files[f].bytes|
    requires Delivered(w.files[f], w.pos[f], w.out[f], w.fate[f]) && Get(w.offsets, w.files[f].id) == w.pos[f]
    ensures var v := CopyInput(w, f, size);
      && f < |v.pos| && f < |v.out| && f < |v.fate|
      && Delivered(w.files[f], v.pos[f], v.out[f], v.fate[f])
      && Extends(w.fate[f], v.fate[f], Get(w.view, w.files[f].id))
      && v.offsets == w.offsets[w.files[f].id := v.pos[f]] && v.pos[f] >= size && v.pos[f] >= w.pos[f]
  {
    assert |w.fate[f]| == w.pos[f];
    var offset := Max(w.pos[f], Get(w.view, w.files[f].id));
    DeliverMore(w.files[f], w.pos[f], w.out[f], w.fate[f], offset, size);
    ExtendsBoth(w.fate[f], offset, size);
    hide Delivered, Extends, Repeat;
  }

  /** Skipping up to the boundary and writing from there on. */
  lemma ExtendsBoth(fate: seq<bool>, offset: nat, size: nat)
    requires |fate| <= offset
    ensures forall covered :: offset == Max(|fate|, covered) ==>
              && Extends(fate, fate + Repeat(false, offset - |fate|), covered)
              && (offset < size ==> Extends(fate, fate + Repeat(false, offset - |fate|) + Repeat(true, size - offset), covered))
  {
  }

  lemma CopyInputEffect(w: World, f: nat, size: nat)
    requires f < |w.files| && f < |w.pos| && f < |w.out| && f < |w.fate| && size <= |w.files[f].bytes|
    requires Delivered(w.files[f], w.pos[f], w.out[f], w.fate[f]) && Get(w.offsets, w.files[f].id) == w.pos[f]
    ensures var v := CopyInput(w, f, size);
      && v == w.(offsets := v.offsets, pos := v.pos, out := v.out, fate := v.fate)
      && |v.pos| == |w.pos| && |v.out| == |w.out| && |v.fate| == |w.fate|
      && Delivered(w.files[f], v.pos[f], v.out[f], v.fate[f])
      && Extends(w.fate[f], v.fate[f], Get(w.view, w.files[f].id))
      && v.offsets == w.offsets[w.files[f].id := v.pos[f]] && v.pos[f] >= size && v.pos[f] >= w.pos[f]
      && (forall g :: 0 <= g < |w.pos| && g != f ==> v.pos[g] == w.pos[g])
      && (forall g :: 0 <= g < |w.out| && g != f ==> v.out[g] == w.out[g])
      && (forall g :: 0 <= g < |w.fate| && g != f ==> v.fate[g] == w.fate[g])
  {
    hide CopyInput, Delivered, Extends, Get;
    CopyInputFrame(w, f, size);
    CopyInputDelivers(w, f, size);
  }

  lemma DrainInv(w: World)
    requires Inv(w)
    ensures Inv(DrainStep(w))
  {
    var v := DrainStep(w);
    if w.pc.Draining? {
      if w.pc.i >= |w.retained| {
        forall f | 0 <= f < |v.files|
          ensures FileOk(v, f)
        {
          assert FileOk(w, f);
        }
      } else {
        DrainOne(w);
      }
    }
  }

  /** One retained handle: only its file and its offset move. */
  lemma DrainMoves(w: World)
    requires Inv(w) && w.pc.Draining? && w.pc.i < |w.retained|
    ensures var v, f := DrainStep(w), w.retained[w.pc.i].file;
      && f < |w.files| && |v.pos| == |v.out| == |v.fate| == |w.files|
      && v.files == w.files && v.previous == w.previous && v.current == w.current && v.retained == w.retained && v.next == w.next
      && v.mark == w.mark && v.fast == w.fast && v.rotations == w.rotations && v.clearing == w.clearing && v.pc == Draining(w.pc.i + 1)
      && Delivered(w.files[f], v.pos[f], v.out[f], v.fate[f]) && v.pos[f] >= |w.files[f].bytes| && v.pos[f] >= w.pos[f]
      && Extends(w.fate[f], v.fate[f], Get(w.view, w.files[f].id))
      && v.offsets == w.offsets[w.files[f].id := v.pos[f]] && v.live == w.live
      && (forall g :: 0 <= g < |w.files| && g != f ==> v.pos[g] == w.pos[g] && v.out[g] == w.out[g] && v.fate[g] == w.fate[g])
  {
    var f := w.retained[w.pc.i].file;
    assert FileOk(w, f) && Holds(w.retained, f);
    CopyInputEffect(w, f, |w.files[f].bytes|);
    hide CopyInput, Inv, FileOk, Delivered, NumbersApart, OffsetsOk, CountsOk, HandlesOk, Extends;
  }

  lemma DrainShape(w: World)
    requires Inv(w) && w.pc.Draining? && w.pc.i < |w.retained|
    ensures Shape(DrainStep(w))
  {
    DrainMoves(w);
    hide DrainStep, FileOk, Delivered, NumbersApart, OffsetsOk, CountsOk, HandlesOk;
  }

  lemma DrainFile(w: World, g: nat)
    requires Inv(w) && w.pc.Draining? && w.pc.i < |w.retained| && g < |w.files| && FileOk(w, g)
    ensures Shape(DrainStep(w)) && g < |DrainStep(w).files| && FileOk(DrainStep(w), g)
  {
    var v, f := DrainStep(w), w.retained[w.pc.i].file;
    DrainShape(w);
    DrainMoves(w);
    hide DrainStep, OffsetsOk, CountsOk, Delivered, HandlesOk, Shape, Extends;
    assert Holds(w.retained, f);
    if g != f {
      if Tracked(w, g) {
        Apart(w, f, g);
      }
      assert Undrained(v, g) == Undrained(w, g);
    }
    hide Inv, InUse, NumbersApart, Named;
  }

  lemma DrainOne(w: World)
    requires Inv(w) && w.pc.Draining? && w.pc.i < |w.retained|
    ensures Inv(DrainStep(w))
  {
    var v := DrainStep(w);
    forall g | 0 <= g < |v.files|
      ensures Shape(v) && FileOk(v, g)
    {
      assert FileOk(w, g);
      DrainFile(w, g);
    }
    DrainGlobals(w);
    hide FileOk, DrainStep, Shape, NumbersApart, HandlesOk, OffsetsOk, CountsOk;
  }

  lemma DrainGlobals(w: World)
    requires Inv(w) && w.pc.Draining? && w.pc.i < |w.retained|
    ensures var v := DrainStep(w); Shape(v) && NumbersApart(v) && HandlesOk(v) && OffsetsOk(v) && CountsOk(v)
  {
    DrainShape(w);
    DrainMoves(w);
    hide DrainStep, FileOk, Delivered, Extends;
  }

  lemma CopyInv(w: World)
    requires Inv(w)
    ensures Inv(CopyStep(w))
  {
    var v := CopyStep(w);
    if w.pc.Copying? {
      if w.pc.i >= |w.next| {
        CopyEnds(w);
      } else {
        CopyOne(w);
      }
    }
  }

  lemma CopyEnds(w: World)
    requires Inv(w) && w.pc.Copying? && w.pc.i >= |w.next|
    ensures Inv(CopyStep(w))
  {
    var v := CopyStep(w);
    forall f | 0 <= f < |v.files|
      ensures FileOk(v, f)
    {
      assert FileOk(w, f);
      if Holds(w.next, f) {
        var k :| 0 <= k < |w.next| && w.next[k].file == f;
        assert Copied(w, f);
        assert Get(w.live, w.files[f].id) == w.pos[f];
      }
    }
  }

  /** A handle's number is nobody else's. */
  lemma Apart(w: World, f: nat, g: nat)
    requires NumbersApart(w) && f < |w.files| && g < |w.files| && f != g && InUse(w, f) && InUse(w, g)
    ensures w.files[f].id != w.files[g].id
  {
  }

  /** One captured handle: only its file, its offset and the live offsets move. */
  lemma CopyMoves(w: World)
    requires Inv(w) && w.pc.Copying? && w.pc.i < |w.next|
    ensures var v, f := CopyStep(w), w.next[w.pc.i].file;
      && f < |w.files| && |v.pos| == |v.out| == |v.fate| == |w.files|
      && v.files == w.files && v.previous == w.previous && v.current == w.current && v.retained == w.retained && v.next == w.next
      && v.mark == w.mark && v.fast == w.fast && v.rotations == w.rotations && v.clearing == w.clearing && v.pc == Copying(w.pc.i + 1)
      && Delivered(w.files[f], v.pos[f], v.out[f], v.fate[f]) && v.pos[f] >= w.next[w.pc.i].size && v.pos[f] >= w.pos[f]
      && Extends(w.fate[f], v.fate[f], Get(w.view, w.files[f].id))
      && v.offsets == w.offsets[w.files[f].id := v.pos[f]] && v.live == w.live[w.files[f].id := v.pos[f]]
      && (forall g :: 0 <= g < |w.files| && g != f ==> v.pos[g] == w.pos[g] && v.out[g] == w.out[g] && v.fate[g] == w.fate[g])
  {
    var f := w.next[w.pc.i].file;
    assert FileOk(w, f) && Holds(w.next, f);
    CopyInputEffect(w, f, w.next[w.pc.i].size);
    hide CopyInput, Inv, FileOk, Delivered, NumbersApart, OffsetsOk, CountsOk, HandlesOk, Extends;
  }

  lemma CopyShape(w: World)
    requires Inv(w) && w.pc.Copying? && w.pc.i < |w.next|
    ensures Shape(CopyStep(w))
  {
    CopyMoves(w);
    hide CopyStep, FileOk, Delivered, NumbersApart, OffsetsOk, CountsOk, HandlesOk;
  }

  lemma CopyOther(w: World, g: nat)
    requires Inv(w) && w.pc.Copying? && w.pc.i < |w.next| && g < |w.files| && FileOk(w, g)
    requires g != w.next[w.pc.i].file
    ensures Shape(CopyStep(w)) && g < |CopyStep(w).files| && FileOk(CopyStep(w), g)
  {
    var f := w.next[w.pc.i].file;
    CopyShape(w);
    CopyMoves(w);
    hide CopyStep, OffsetsOk, CountsOk, Delivered, Named, Get, HandlesOk, Undrained, Shape;
    assert Holds(w.next, f);
    if Holds(w.next, g) {
      Apart(w, f, g);
    }
    hide Inv, InUse, NumbersApart;
  }

  lemma CopySame(w: World)
    requires Inv(w) && w.pc.Copying? && w.pc.i < |w.next|
    ensures var f := w.next[w.pc.i].file; Shape(CopyStep(w)) && f < |CopyStep(w).files| && FileOk(CopyStep(w), f)
  {
    var f := w.next[w.pc.i].file;
    CopyShape(w);
    CopyMoves(w);
    assert FileOk(w, f) && Holds(w.next, f);
    hide CopyStep, NumbersApart, OffsetsOk, CountsOk, Delivered, InUse, Named, Inv;
  }

  lemma CopyFile(w: World, g: nat)
    requires Inv(w) && w.pc.Copying? && w.pc.i < |w.next| && g < |w.files| && FileOk(w, g)
    ensures Shape(CopyStep(w)) && g < |CopyStep(w).files| && FileOk(CopyStep(w), g)
  {
    hide Inv, CopyStep, FileOk;
    if g == w.next[w.pc.i].file {
      CopySame(w);
    } else {
      CopyOther(w, g);
    }
  }

  lemma CopyLive(w: World, k: nat)
    requires Inv(w) && w.pc.Copying? && w.pc.i < |w.next| && k <= w.pc.i
    ensures var v := CopyStep(w);
      Shape(v) && Get(v.live, v.files[v.next[k].file].id) == v.pos[v.next[k].file]
  {
    var f, g := w.next[w.pc.i].file, w.next[k].file;
    CopyShape(w);
    CopyMoves(w);
    assert Holds(w.next, f) && Holds(w.next, g);
    hide CopyStep, CountsOk, Delivered, FileOk;
    if g != f {
      Apart(w, f, g);
    }
    hide NumbersApart, InUse;
  }

  lemma CopyOne(w: World)
    requires Inv(w) && w.pc.Copying? && w.pc.i < |w.next|
    ensures Inv(CopyStep(w))
  {
    var v := CopyStep(w);
    forall g | 0 <= g < |v.files|
      ensures Shape(v) && FileOk(v, g)
    {
      assert FileOk(w, g);
      CopyFile(w, g);
    }
    CopyGlobals(w);
    hide FileOk, CopyStep, Shape, NumbersApart, HandlesOk, OffsetsOk, CountsOk;
  }

  lemma CopyGlobals(w: World)
    requires Inv(w) && w.pc.Copying? && w.pc.i < |w.next|
    ensures var v := CopyStep(w);
      Shape(v) && NumbersApart(v) && HandlesOk(v) && OffsetsOk(v) && CountsOk(v)
  {
    var v, f := CopyStep(w), w.next[w.pc.i].file;
    CopyShape(w);
    CopyMoves(w);
    hide CopyStep, FileOk, Delivered;
    forall k | 0 <= k < v.pc.i && k < |v.next|
      ensures Shape(v) && Get(v.live, v.files[v.next[k].file].id) == v.pos[v.next[k].file]
    {
      CopyLive(w, k);
    }
    hide Get, Inv, OffsetsOk;
    LiveOffsets(w, v, f);
    SameUse(w, v);
    hide NumbersApart;
  }

  lemma LiveOffsets(w: World, v: World, f: nat)
    requires Shape(w) && OffsetsOk(w) && Shape(v) && w.pc.Copying? && w.pc.i < |w.next| && w.next[w.pc.i].file == f
    requires v.files == w.files && v.next == w.next && v.pc == Copying(w.pc.i + 1)
    requires v.live.Keys == w.live.Keys + {w.files[f].id}
    requires forall k :: 0 <= k < v.pc.i && k < |v.next| ==> Get(v.live, v.files[v.next[k].file].id) == v.pos[v.next[k].file]
    ensures OffsetsOk(v)
  {
    LiveKeys(w, v, f);
    hide Get, Shape;
  }

  lemma LiveKeys(w: World, v: World, f: nat)
    requires Shape(w) && Shape(v) && w.pc.Copying? && w.pc.i < |w.next| && w.next[w.pc.i].file == f
    requires v.files == w.files && v.next == w.next && v.pc == Copying(w.pc.i + 1)
    requires v.live.Keys == w.live.Keys + {w.files[f].id}
    requires forall id :: id in w.live ==> exists k :: 0 <= k < w.pc.i && k < |w.next| && w.files[w.next[k].file].id == id
    ensures forall id :: id in v.live ==> exists k :: 0 <= k < v.pc.i && k < |v.next| && v.files[v.next[k].file].id == id
  {
    forall id | id in v.live
      ensures exists k :: 0 <= k < v.pc.i && k < |v.next| && v.files[v.next[k].file].id == id
    {
      if id == w.files[f].id {
        assert v.files[v.next[w.pc.i].file].id == id;
      } else {
        assert id in w.live;
        var k :| 0 <= k < w.pc.i && k < |w.next| && w.files[w.next[k].file].id == id;
        assert v.files[v.next[k].file].id == id;
      }
    }
  }

  lemma SameUse(w: World, v: World)
    requires NumbersApart(w) && w.pc.Copying? && v.pc.Copying? && v.files == w.files
    requires v.previous == w.previous && v.current == w.current && v.next == w.next && v.clearing == w.clearing
    ensures NumbersApart(v)
  {
    forall f, g | 0 <= f < g < |v.files| && InUse(v, f) && InUse(v, g)
      ensures v.files[f].id != v.files[g].id
    {
      assert InUse(w, f) && InUse(w, g);
    }
  }

  lemma StepInv(w: World, e: Event)
    requires Inv(w)
    ensures Inv(Next(w, e))
  {
    match e
    case Create(id) => CreateInv(w, id);
    case Append(bytes) => AppendInv(w, bytes);
    case Rotate => RotateInv(w);
    case ClearCapture => AsideInv(w, e);
    case ClearSave => AsideInv(w, e);
    case ClearFails => AsideInv(w, e);
    case Read => AsideInv(w, e);
    case Capture => CaptureInv(w);
    case Drain => DrainInv(w);
    case Copy => CopyInv(w);
  }

  lemma {:induction false} RunInv(w: World, events: seq<Event>)
    requires Inv(w)
    ensures Inv(Run(w, events))
    decreases |events|
  {
    if events != [] {
      StepInv(w, events[0]);
      RunInv(Next(w, events[0]), events[1..]);
    }
  }

  // --------------------------------------------------- what was not written

  /** As far as a saved clear covered the file, or its number carried a boundary when it appeared. */
  function Cap(w: World, f: nat): nat
    requires f < |w.cleared| && f < |w.heir|
  {
    Max(w.cleared[f], w.heir[f])
  }

  /** No boundary that can still meet the file reaches further, and in this poll the boundary alone decides. */
  predicate CapOk(w: World, f: nat)
    requires Shape(w) && f < |w.files| && f < |w.cleared| && f < |w.heir| && |w.before| == |w.mark|
  {
    var id := w.files[f].id;
    && (forall p :: 0 <= p < |w.fate[f]| && !w.fate[f][p] ==> p < Cap(w, f))
    && (InUse(w, f) ==> Get(w.boundary, id) <= Cap(w, f))
    && ((if Resting(w) then w.pc.Armed? && InUse(w, f) else Tracked(w, f)) ==> Get(w.view, id) <= Cap(w, f))
    && (f < |w.mark| && !w.pc.Armed? ==>
          && w.before[f] <= |w.fate[f]|
          && forall p :: w.before[f] <= p < |w.fate[f]| ==> (w.fate[f][p] <==> p >= Get(w.view, id)))
  }

  /** A clear covers only bytes that were there when it captured the file. */
  predicate ClearsOk(w: World) {
    && (forall f :: 0 <= f < |w.cleared| && f < |w.files| ==> w.cleared[f] <= |w.files[f].bytes|)
    && (w.clearing.Some? ==> forall k :: 0 <= k < |w.clearing.value| ==>
          w.clearing.value[k].file < |w.files| && w.clearing.value[k].size <= |w.files[w.clearing.value[k].file].bytes|)
  }

  predicate Caps(w: World) {
    && Shape(w) && |w.cleared| == |w.heir| == |w.files| && |w.before| == |w.mark| && ClearsOk(w)
    && (forall f :: 0 <= f < |w.files| ==> CapOk(w, f))
  }

  lemma {:induction false} SizesCovered(files: seq<File>, inputs: seq<Input>, f: nat)
    requires f < |files|
    requires forall k :: 0 <= k < |inputs| && inputs[k].file < |files| && files[inputs[k].file].id == files[f].id ==> inputs[k].file == f
    ensures Get(Sizes(files, inputs), files[f].id) <= Covers(inputs, f)
  {
    if inputs != [] {
      var rest := inputs[..|inputs| - 1];
      assert forall k :: 0 <= k < |rest| ==> rest[k] == inputs[k];
      SizesCovered(files, rest, f);
    }
  }

  lemma {:induction false} CoversWithin(inputs: seq<Input>, f: nat, n: nat)
    requires forall k :: 0 <= k < |inputs| && inputs[k].file == f ==> inputs[k].size <= n
    ensures Covers(inputs, f) <= n
  {
    if inputs != [] {
      var rest := inputs[..|inputs| - 1];
      assert forall k :: 0 <= k < |rest| ==> rest[k] == inputs[k];
      CoversWithin(rest, f, n);
    }
  }

  lemma SaveCaps(w: World)
    requires Inv(w) && Caps(w) && w.clearing.Some?
    ensures Caps(ClearSaveStep(w))
  {
    var v, inputs := ClearSaveStep(w), w.clearing.value;
    forall f | 0 <= f < |v.files|
      ensures v.cleared[f] <= |v.files[f].bytes| && CapOk(v, f)
    {
      assert CapOk(w, f);
      CoversWithin(inputs, f, |w.files[f].bytes|);
      if InUse(v, f) {
        assert InUse(w, f);
        forall k | 0 <= k < |inputs| && inputs[k].file < |w.files| && w.files[inputs[k].file].id == w.files[f].id
          ensures inputs[k].file == f
        {
          assert Holds(inputs, inputs[k].file) && InUse(w, inputs[k].file);
        }
        SizesCovered(w.files, inputs, f);
      }
      hide Sizes, Covers, Inv, Holds;
    }
  }

  lemma CaptureCaps(w: World)
    requires Inv(w) && Caps(w)
    ensures Caps(CaptureStep(w))
  {
    var v := CaptureStep(w);
    SnapshotNamed(w);
    CaptureInv(w);
    hide FileOk, NumbersApart, OffsetsOk, CountsOk, HandlesOk, Snapshot;
    forall f | 0 <= f < |v.files|
      ensures CapOk(v, f)
    {
      assert CapOk(w, f) && FileOk(w, f);
      CaptureCap(w, f);
    }
  }

  lemma CaptureCap(w: World, f: nat)
    requires Shape(w) && |w.cleared| == |w.heir| == |w.files| && |w.before| == |w.mark| && Shape(CaptureStep(w))
    requires f < |w.files| && CapOk(w, f) && FileOk(w, f)
    requires forall g: nat :: Holds(Snapshot(w), g) <==> Named(w, g)
    ensures CapOk(CaptureStep(w), f)
  {
    hide Snapshot, Handled, Copied, Undrained, Max;
  }

  lemma ClearKeeps(w: World)
    ensures var v := ClearCaptureStep(w);
      && v.files == w.files && v.boundary == w.boundary && v.view == w.view && v.fate == w.fate && v.pc == w.pc
      && v.cleared == w.cleared && v.heir == w.heir && v.mark == w.mark && v.before == w.before
      && v.previous == w.previous && v.current == w.current && v.retained == w.retained && v.next == w.next
      && v.clearing == Some(if w.clearing.Some? then w.clearing.value else Snapshot(w))
  {
    hide Snapshot;
  }

  lemma ClearCap(w: World, f: nat)
    requires Shape(w) && |w.cleared| == |w.heir| == |w.files| && |w.before| == |w.mark| && Shape(ClearCaptureStep(w))
    requires f < |w.files| && CapOk(w, f)
    requires forall g: nat :: Holds(Snapshot(w), g) <==> Named(w, g)
    ensures var v := ClearCaptureStep(w);
      |v.files| == |v.cleared| == |v.heir| && |v.before| == |v.mark| && f < |v.files| && CapOk(v, f)
  {
    ClearKeeps(w);
    hide ClearCaptureStep, Snapshot, Max, Get, Shape, Holds;
  }

  lemma ClearCaps(w: World)
    requires Inv(w) && Caps(w)
    ensures Caps(ClearCaptureStep(w))
  {
    var v := ClearCaptureStep(w);
    SnapshotNamed(w);
    ClearKeeps(w);
    AsideInv(w, ClearCapture);
    ClearClears(w);
    hide ClearCaptureStep, ClearsOk, CapOk, Shape;
    forall f | 0 <= f < |v.files|
      ensures CapOk(v, f)
    {
      assert CapOk(w, f);
      ClearCap(w, f);
    }
    hide Inv;
  }

  lemma ClearClears(w: World)
    requires |w.cleared| == |w.files| && ClearsOk(w)
    ensures ClearsOk(ClearCaptureStep(w))
  {
    ClearKeeps(w);
    hide ClearCaptureStep;
  }

  lemma CreateCaps(w: World, id: nat)
    requires Inv(w) && Caps(w)
    ensures Caps(CreateStep(w, id))
  {
    var v := CreateStep(w, id);
    CreateInv(w, id);
    hide NumbersApart, OffsetsOk, CountsOk, FileOk, Undrained;
    forall f | 0 <= f < |v.files|
      ensures CapOk(v, f)
    {
      if f < |w.files| {
        assert CapOk(w, f);
      }
    }
  }

  lemma MoveCaps(w: World, e: Event)
    requires Inv(w) && Caps(w) && (e.Append? || e.Rotate? || e.ClearFails? || e.Read?)
    ensures Caps(Next(w, e))
  {
    var v := Next(w, e);
    StepInv(w, e);
    MoveKeeps(w, e);
    MoveClears(w, e);
    hide Next, ClearsOk, CapOk;
    forall f | 0 <= f < |v.files|
      ensures CapOk(v, f)
    {
      assert CapOk(w, f);
      MoveCap(w, e, f);
    }
    hide Shape, Inv;
  }

  lemma MoveKeeps(w: World, e: Event)
    requires e.Append? || e.Rotate? || e.ClearFails? || e.Read?
    ensures var v := Next(w, e);
      |v.files| == |w.files| && v.cleared == w.cleared && v.heir == w.heir && v.mark == w.mark && v.before == w.before
  {
  }

  lemma MoveClears(w: World, e: Event)
    requires |w.cleared| == |w.files| && ClearsOk(w) && (e.Append? || e.Rotate? || e.ClearFails? || e.Read?)
    ensures ClearsOk(Next(w, e))
  {
  }

  lemma MoveCap(w: World, e: Event, f: nat)
    requires Shape(w) && |w.cleared| == |w.heir| == |w.files| && |w.before| == |w.mark| && Shape(Next(w, e))
    requires (e.Append? || e.Rotate? || e.ClearFails? || e.Read?) && f < |w.files| && CapOk(w, f)
    ensures CapOk(Next(w, e), f)
  {
    hide Max;
  }

  lemma DrainKeeps(w: World)
    ensures var v := DrainStep(w);
      && v.files == w.files && v.boundary == w.boundary && v.clearing == w.clearing && v.view == w.view
      && v.cleared == w.cleared && v.heir == w.heir && v.mark == w.mark && v.before == w.before
  {
    if w.pc.Draining? && w.pc.i < |w.retained| {
      var f := w.retained[w.pc.i].file;
      if f < |w.files| && f < |w.pos| && f < |w.out| && f < |w.fate| {
        CopyInputKeeps(w, f, |w.files[f].bytes|);
      }
    }
    hide CopyInput;
  }

  lemma DrainCap(w: World, g: nat)
    requires Inv(w) && Caps(w) && w.pc.Draining? && w.pc.i < |w.retained| && g < |w.files| && CapOk(w, g) && Shape(DrainStep(w))
    ensures var v := DrainStep(w);
      |v.files| == |v.cleared| == |v.heir| && |v.before| == |v.mark| && g < |v.files| && CapOk(v, g)
  {
    DrainMoves(w);
    DrainKeeps(w);
    hide DrainStep, NumbersApart, OffsetsOk, CountsOk, FileOk, HandlesOk, Delivered, ClearsOk, Shape, Get, Max;
    assert Holds(w.retained, w.retained[w.pc.i].file);
    hide Inv, Caps;
  }

  lemma DrainEndCap(w: World, g: nat)
    requires Shape(w) && |w.cleared| == |w.heir| == |w.files| && |w.before| == |w.mark| && g < |w.files| && CapOk(w, g)
    requires !w.pc.Draining? || w.pc.i >= |w.retained|
    requires Shape(DrainStep(w))
    ensures CapOk(DrainStep(w), g)
  {
    hide Max, Get;
  }

  lemma DrainCaps(w: World)
    requires Inv(w) && Caps(w)
    ensures Caps(DrainStep(w))
  {
    var v := DrainStep(w);
    DrainInv(w);
    DrainKeeps(w);
    assert Shape(v) && ClearsOk(v);
    hide DrainStep, Shape, ClearsOk, CapOk;
    forall f | 0 <= f < |v.files|
      ensures CapOk(v, f)
    {
      assert CapOk(w, f);
      if w.pc.Draining? && w.pc.i < |w.retained| {
        DrainCap(w, f);
      } else {
        DrainEndCap(w, f);
      }
    }
    hide Inv;
  }

  lemma CopyCap(w: World, g: nat)
    requires Inv(w) && Caps(w) && w.pc.Copying? && w.pc.i < |w.next| && g < |w.files| && CapOk(w, g) && Shape(CopyStep(w))
    ensures var v := CopyStep(w);
      |v.files| == |v.cleared| == |v.heir| && |v.before| == |v.mark| && g < |v.files| && CapOk(v, g)
  {
    CopyMoves(w);
    CopyKeeps(w);
    hide CopyStep, NumbersApart, OffsetsOk, CountsOk, FileOk, HandlesOk, Delivered, ClearsOk, Shape, Get, Max;
    assert Holds(w.next, w.next[w.pc.i].file);
    hide Inv, Caps;
  }

  /** Copying leaves the log, the boundary and a clear in progress alone. */
  lemma CopyKeeps(w: World)
    ensures var v := CopyStep(w);
      && v.files == w.files && v.boundary == w.boundary && v.clearing == w.clearing && v.view == w.view
      && v.cleared == w.cleared && v.heir == w.heir && v.mark == w.mark && v.before == w.before
  {
    if w.pc.Copying? && w.pc.i < |w.next| {
      var f, size := w.next[w.pc.i].file, w.next[w.pc.i].size;
      if f < |w.files| && f < |w.pos| && f < |w.out| && f < |w.fate| && size <= |w.files[f].bytes| {
        CopyInputKeeps(w, f, size);
      }
    }
    hide CopyInput, Get;
  }

  lemma CopyEndCap(w: World, g: nat)
    requires Shape(w) && |w.cleared| == |w.heir| == |w.files| && |w.before| == |w.mark| && g < |w.files| && CapOk(w, g)
    requires !w.pc.Copying? || w.pc.i >= |w.next|
    requires Shape(CopyStep(w))
    ensures CapOk(CopyStep(w), g)
  {
    hide Max, Get;
  }

  lemma CopyCaps(w: World)
    requires Inv(w) && Caps(w)
    ensures Caps(CopyStep(w))
  {
    var v := CopyStep(w);
    CopyInv(w);
    CopyKeeps(w);
    assert Shape(v) && ClearsOk(v);
    hide CopyStep, Shape, ClearsOk, CapOk;
    forall f | 0 <= f < |v.files|
      ensures CapOk(v, f)
    {
      assert CapOk(w, f);
      if w.pc.Copying? && w.pc.i < |w.next| {
        CopyCap(w, f);
      } else {
        CopyEndCap(w, f);
      }
    }
    hide Inv;
  }

  lemma StepCaps(w: World, e: Event)
    requires Inv(w) && Caps(w)
    ensures Caps(Next(w, e))
  {
    hide Inv, Caps;
    match e
    case Create(id) => CreateCaps(w, id);
    case ClearCapture => ClearCaps(w);
    case ClearSave => if w.clearing.Some? { SaveCaps(w); }
    case Capture => CaptureCaps(w);
    case Drain => DrainCaps(w);
    case Copy => CopyCaps(w);
    case _ => MoveCaps(w, e);
  }
  // ----------------------------------------------------------------- theorems

  predicate Distinct(previous: Option<File>, current: Option<File>) {
    previous.Some? && current.Some? ==> previous.value.id != current.value.id
  }

  lemma StartOk(previous: Option<File>, current: Option<File>, boundary: map<nat, nat>)
    requires Distinct(previous, current)
    ensures Inv(Start(previous, current, boundary))
  {
    var w := Start(previous, current, boundary);
    forall f | 0 <= f < |w.files|
      ensures FileOk(w, f)
    {
    }
    hide FileOk;
  }

  lemma StartCaps(previous: Option<File>, current: Option<File>, boundary: map<nat, nat>)
    requires Shape(Start(previous, current, boundary))
    ensures Caps(Start(previous, current, boundary))
  {
  }

  lemma StartInv(previous: Option<File>, current: Option<File>, boundary: map<nat, nat>)
    requires Distinct(previous, current)
    ensures Inv(Start(previous, current, boundary)) && Caps(Start(previous, current, boundary))
  {
    StartOk(previous, current, boundary);
    StartCaps(previous, current, boundary);
    hide Start;
  }

  lemma {:induction false} RunCaps(w: World, events: seq<Event>)
    requires Inv(w) && Caps(w)
    ensures Inv(Run(w, events)) && Caps(Run(w, events))
    decreases |events|
  {
    if events != [] {
      StepInv(w, events[0]);
      StepCaps(w, events[0]);
      hide Inv, Caps, Next;
      RunCaps(Next(w, events[0]), events[1..]);
    }
  }

  /**
   At every moment of every run each byte of a file that the follower has passed was
   written once, in order, or skipped, although names move, files are unlinked,
   numbers are used again and the view is cleared. What was skipped a clear had
   covered, or it lay below what the number of the file inherited when it appeared.
   */
  lemma OnceAndInOrder(previous: Option<File>, current: Option<File>, boundary: map<nat, nat>, events: seq<Event>, f: nat)
    requires Distinct(previous, current)
    ensures var w := Run(Start(previous, current, boundary), events);
      f < |w.files| ==>
        && |w.pos| == |w.out| == |w.fate| == |w.cleared| == |w.heir| == |w.files|
        && Delivered(w.files[f], w.pos[f], w.out[f], w.fate[f])
        && (forall p :: 0 <= p < w.pos[f] && !w.fate[f][p] ==> p < Max(w.cleared[f], w.heir[f]))
        && w.cleared[f] <= |w.files[f].bytes|
  {
    StartInv(previous, current, boundary);
    RunCaps(Start(previous, current, boundary), events);
    var w := Run(Start(previous, current, boundary), events);
    if f < |w.files| {
      assert FileOk(w, f) && CapOk(w, f);
    }
  }

  lemma {:induction false} AllShown(bytes: string, fate: seq<bool>)
    requires |fate| <= |bytes| && forall p :: 0 <= p < |fate| ==> fate[p]
    ensures Shown(bytes, fate) == bytes[..|fate|]
  {
    if fate != [] {
      AllShown(bytes, fate[..|fate| - 1]);
      assert bytes[..|fate|] == bytes[..|fate| - 1] + [bytes[|fate| - 1]];
    }
  }

  /** No file takes a number that the saved boundary, or the one a poll has read, still names. */
  predicate FreshNumbers(w: World, events: seq<Event>)
    decreases |events|
  {
    events != [] ==>
    && (events[0].Create? ==> Get(w.boundary, events[0].id) == 0 && (w.pc.Armed? ==> Get(w.view, events[0].id) == 0))
    && FreshNumbers(Next(w, events[0]), events[1..])
  }

  lemma HeirStep(w: World, e: Event, f: nat)
    requires |w.heir| == |w.files|
    requires e.Create? ==> Get(w.boundary, e.id) == 0 && (w.pc.Armed? ==> Get(w.view, e.id) == 0)
    requires f < |w.heir| ==> w.heir[f] == 0
    ensures var v := Next(w, e); |v.heir| == |v.files| && (f < |v.heir| ==> v.heir[f] == 0)
  {
    hide Shown, Snapshot, Sizes, Covers;
  }

  lemma {:induction false} HeirRun(w: World, events: seq<Event>, f: nat)
    requires |w.heir| == |w.files| && FreshNumbers(w, events) && (f < |w.heir| ==> w.heir[f] == 0)
    ensures var v := Run(w, events); f < |v.heir| ==> v.heir[f] == 0
    decreases |events|
  {
    if events != [] {
      HeirStep(w, events[0], f);
      hide Next;
      HeirRun(Next(w, events[0]), events[1..], f);
    }
  }

  /**
   As long as no number that a boundary names is used again, a file created during
   the run loses nothing but what was cleared: written of it is everything up to
   the position, if it never was.
   */
  lemma NothingElseIsSkipped(previous: Option<File>, current: Option<File>, boundary: map<nat, nat>, events: seq<Event>, f: nat)
    requires Distinct(previous, current) && FreshNumbers(Start(previous, current, boundary), events)
    ensures var w := Run(Start(previous, current, boundary), events);
      |Start(previous, current, boundary).files| <= f < |w.files| ==>
        && |w.pos| == |w.out| == |w.fate| == |w.cleared| == |w.files| && |w.fate[f]| == w.pos[f]
        && (forall p :: 0 <= p < w.pos[f] && !w.fate[f][p] ==> p < w.cleared[f])
        && (w.cleared[f] == 0 ==> w.pos[f] <= |w.files[f].bytes| && w.out[f] == w.files[f].bytes[..w.pos[f]])
  {
    OnceAndInOrder(previous, current, boundary, events, f);
    var start := Start(previous, current, boundary);
    if |start.files| <= f {
      HeirRun(start, events, f);
    }
    var w := Run(start, events);
    hide Run;
    if f < |w.files| && |start.files| <= f && w.cleared[f] == 0 {
      assert w.pos[f] > 0 ==> w.fate[f][w.pos[f] - 1];
      AllShown(w.files[f].bytes, w.fate[f]);
    }
  }

  /**
   With at most two rotations from one capture to the next, a completed poll has
   passed every byte of every file that existed when it captured, also of files
   that have lost their names since. It wrote all of them that were new to it
   exactly if the boundary it had read, looked up by the number of the file, did
   not reach beyond what earlier polls had passed; for a new file, if that was zero.
   */
  lemma PollsCatchUp(previous: Option<File>, current: Option<File>, boundary: map<nat, nat>, events: seq<Event>, f: nat)
    requires Distinct(previous, current)
    ensures var w := Run(Start(previous, current, boundary), events);
      w.pc == Idle && !w.fast && f < |w.mark| ==>
        && f < |w.pos| && f < |w.fate| && f < |w.files| && f < |w.before|
        && w.mark[f] <= w.pos[f] == |w.fate[f]|
        && ((forall p :: w.before[f] <= p < w.mark[f] ==> w.fate[f][p]) <==>
              w.mark[f] <= w.before[f] || Get(w.view, w.files[f].id) <= w.before[f])
  {
    StartInv(previous, current, boundary);
    RunCaps(Start(previous, current, boundary), events);
    var w := Run(Start(previous, current, boundary), events);
    hide Run, Start;
    if w.pc == Idle && !w.fast && f < |w.mark| {
      assert Shape(w) && FileOk(w, f) && CapOk(w, f) && |w.before| == |w.mark|;
      hide Inv, Caps;
      PollShows(w, f);
    }
  }

  lemma PollShows(w: World, f: nat)
    requires Shape(w) && f < |w.mark| && f < |w.cleared| && f < |w.heir| && |w.before| == |w.mark| && w.pc == Idle && !w.fast
    requires FileOk(w, f) && CapOk(w, f)
    ensures w.mark[f] <= w.pos[f] == |w.fate[f]|
    ensures (forall p :: w.before[f] <= p < w.mark[f] ==> w.fate[f][p]) <==>
              w.mark[f] <= w.before[f] || Get(w.view, w.files[f].id) <= w.before[f]
  {
    if w.before[f] < w.mark[f] && (forall p :: w.before[f] <= p < w.mark[f] ==> w.fate[f][p]) {
      assert w.fate[f][w.before[f]];
    }
    hide InUse, Cap;
  }

  lemma SizesBoth(files: seq<File>)
    requires files == [File(7, "old"), File(1, "")]
    ensures Sizes(files, [Input(0, 3), Input(1, 0)]) == map[7 := 3, 1 := 0]
  {
    var inputs := [Input(0, 3), Input(1, 0)];
    assert inputs[..1] == [Input(0, 3)] && inputs[..1][..0] == [];
    assert Sizes(files, []) == map[];
    assert Sizes(files, [Input(0, 3)]) == map[7 := 3];
  }

  lemma SaveKeeps(w: World)
    requires w.clearing.Some?
    ensures var v := ClearSaveStep(w);
      && v.files == w.files && v.boundary == Sizes(w.files, w.clearing.value) && v.clearing == None && v.pc == w.pc
      && v.previous == w.previous && v.current == w.current && v.retained == w.retained && v.next == w.next
  {
    hide Sizes, Covers, Max;
  }

  /** A clear saves the sizes of both generations by their numbers. */
  lemma ClearBoth(a: World)
    requires a.files == [File(7, "old"), File(1, "")] && a.previous == Some(0) && a.current == Some(1)
    requires a.clearing == None && a.pc == Idle && a.retained == [] && a.next == []
    ensures var c := ClearSaveStep(ClearCaptureStep(a));
      && c.files == a.files && c.boundary == map[7 := 3, 1 := 0] && c.clearing == None && c.pc == Idle
      && c.previous == a.previous && c.current == a.current && c.retained == [] && c.next == []
  {
    hide ClearCaptureStep, ClearSaveStep, Sizes;
    assert CaptureOne(a, a.previous) == [Input(0, 3)] && CaptureOne(a, a.current) == [Input(1, 0)];
    assert Snapshot(a) == [Input(0, 3), Input(1, 0)];
    ClearKeeps(a);
    hide Snapshot, CaptureOne;
    SaveKeeps(ClearCaptureStep(a));
    SizesBoth(a.files);
  }

  /** The file with number 7 loses its name, and the next one gets the number. */
  lemma ReuseSeven(c: World)
    requires c.files == [File(7, "old"), File(1, "")] && c.previous == Some(0) && c.current == Some(1)
    requires c.clearing == None && c.pc == Idle && c.retained == [] && c.next == []
    ensures var f := Next(Next(Next(c, Rotate), Create(7)), Append("abcd"));
      && f.files == [File(7, "old"), File(1, ""), File(7, "abcd")] && f.boundary == c.boundary
      && f.previous == Some(1) && f.current == Some(2)
  {
    assert Free(RotateStep(c), 7);
    hide Free;
    var e := Next(Next(c, Rotate), Create(7));
    RotateCreate(c, 7);
    assert e.boundary == c.boundary && e.files == [File(7, "old"), File(1, ""), File(7, "")];
    hide RotateStep, CreateStep;
    assert "" + "abcd" == "abcd";
  }

  lemma ClearAndReuse()
    ensures var log := Run(Start(Some(File(7, "old")), Some(File(1, "")), map[]), [ClearCapture, ClearSave, Rotate, Create(7), Append("abcd")]);
      && log.boundary == map[7 := 3, 1 := 0] && log.previous == Some(1) && log.current == Some(2)
      && log.files == [File(7, "old"), File(1, ""), File(7, "abcd")]
  {
    var a := Start(Some(File(7, "old")), Some(File(1, "")), map[]);
    assert a.files == [File(7, "old"), File(1, "")] && a.previous == Some(0) && a.current == Some(1);
    ClearBoth(a);
    var c := Next(Next(a, ClearCapture), ClearSave);
    assert c == ClearSaveStep(ClearCaptureStep(a)) by {
      hide ClearCaptureStep, ClearSaveStep, Start;
    }
    hide Next, Start, ClearCaptureStep, ClearSaveStep;
    ReuseSeven(c);
    var events := [ClearCapture, ClearSave, Rotate, Create(7), Append("abcd")];
    RunTwo(a, events);
    RunThree(c, events[2..]);
    assert events[5..] == [];
  }

  /**
   A boundary outlives the file it was saved for: a follower that finds such a log
   passes all of it in its first poll, without any rotation, and writes only the
   last byte of a file that was never cleared.
   */
  lemma ReusedNumberHides()
    ensures var log := Run(Start(Some(File(7, "old")), Some(File(1, "")), map[]), [ClearCapture, ClearSave, Rotate, Create(7), Append("abcd")]);
      |log.files| == 3 &&
      var w := Run(Start(Some(log.files[1]), Some(log.files[2]), log.boundary), [Read, Capture, Drain, Copy, Copy, Copy]);
      w.pc == Idle && !w.fast && w.files == [File(1, ""), File(7, "abcd")] && w.pos == [0, 4] && w.out == ["", "d"]
  {
    ClearAndReuse();
    var a := Start(Some(File(1, "")), Some(File(7, "abcd")), map[7 := 3, 1 := 0]);
    CaptureBoth(a);
    var d := Captured(a);
    assert d.files == [File(1, ""), File(7, "abcd")] && d.out == ["", ""] && d.offsets == map[] && d.live == map[] && d.pos == [0, 0];
    hide Start;
    hide CopyStep;
    EmptyFile(d);
    var e := Next(d, Copy);
    LastByte(e);
    var f := Next(e, Copy);
    var events := [Read, Capture, Drain, Copy, Copy, Copy];
    hide Next;
    RunThree(a, events);
    RunThree(d, events[3..]);
    assert events[6..] == [];
  }

  /** The state in which that follower begins to copy. */
  function Captured(a: World): World {
    a.(view := a.boundary, next := [Input(0, 0), Input(1, 4)], mark := [0, 4], before := [0, 0], rotations := 0, pc := Copying(0))
  }

  lemma CaptureBoth(a: World)
    requires a == Start(Some(File(1, "")), Some(File(7, "abcd")), map[7 := 3, 1 := 0])
    ensures Next(Next(Next(a, Read), Capture), Drain) == Captured(a)
  {
    assert CaptureOne(a, a.previous) == [Input(0, 0)] && CaptureOne(a, a.current) == [Input(1, 4)];
    var b := Next(a, Read);
    assert Snapshot(b) == [Input(0, 0), Input(1, 4)];
    hide Snapshot, CaptureOne;
  }

  lemma EmptyFile(d: World)
    requires d.files == [File(1, ""), File(7, "abcd")] && d.view == map[7 := 3, 1 := 0] && d.offsets == map[] && d.live == map[]
    requires d.next == [Input(0, 0), Input(1, 4)] && d.pc == Copying(0) && d.pos == [0, 0] && d.out == ["", ""] && |d.fate| == 2
    ensures var e := Next(d, Copy);
      && e.files == d.files && e.view == d.view && e.next == d.next && e.pc == Copying(1) && e.fast == d.fast
      && e.offsets == map[1 := 0] && e.pos == [0, 0] && e.out == ["", ""] && |e.fate| == 2
  {
    var f := CopyInput(d, 0, 0);
    assert f.pos == [0, 0] && f.out == ["", ""] && f.offsets == map[1 := 0] && |f.fate| == 2;
    CopyInputKeeps(d, 0, 0);
    hide CopyInput;
  }

  lemma CopyInputKeeps(w: World, f: nat, size: nat)
    requires f < |w.files| && f < |w.pos| && f < |w.out| && f < |w.fate| && size <= |w.files[f].bytes|
    ensures var v := CopyInput(w, f, size);
      && v.files == w.files && v.view == w.view && v.next == w.next && v.live == w.live && v.pc == w.pc && v.fast == w.fast
      && v.boundary == w.boundary && v.clearing == w.clearing && v.cleared == w.cleared && v.heir == w.heir
      && v.mark == w.mark && v.before == w.before
  {
    hide Get, Max, Repeat;
  }

  lemma LastByte(e: World)
    requires e.files == [File(1, ""), File(7, "abcd")] && e.view == map[7 := 3, 1 := 0] && e.offsets == map[1 := 0]
    requires e.next == [Input(0, 0), Input(1, 4)] && e.pc == Copying(1) && e.pos == [0, 0] && e.out == ["", ""] && |e.fate| == 2
    ensures var w := Next(Next(e, Copy), Copy);
      w.pc == Idle && w.files == e.files && w.pos == [0, 4] && w.out == ["", "d"] && w.fast == e.fast
  {
    assert "" + "abcd"[3..4] == "d";
    var f := CopyInput(e, 1, 4);
    assert f.pos == [0, 4] && f.out == ["", "d"];
    CopyInputKeeps(e, 1, 4);
    hide CopyInput;
  }

  lemma RunTwo(w: World, events: seq<Event>)
    requires |events| >= 2
    ensures Run(w, events) == Run(Next(Next(w, events[0]), events[1]), events[2..])
  {
    RunOne(w, events);
    RunOne(Next(w, events[0]), events[1..]);
    assert events[1..][1..] == events[2..];
  }

  lemma RunThree(w: World, events: seq<Event>)
    requires |events| >= 3
    ensures Run(w, events) == Run(Next(Next(Next(w, events[0]), events[1]), events[2]), events[3..])
  {
    RunTwo(w, events);
    RunOne(Next(Next(w, events[0]), events[1]), events[2..]);
    assert events[2..][1..] == events[3..];
  }

  lemma ThirdUnseen(w: World, id1: nat, id2: nat, id3: nat, bytes: string)
    requires Shape(w) && w.pc.Idle? && w.current.Some?
    requires Free(RotateStep(w), id1)
    requires var a := AppendStep(CreateStep(RotateStep(w), id1), bytes);
      Free(RotateStep(a), id2) && Free(RotateStep(CreateStep(RotateStep(a), id2)), id3)
    ensures var c := AppendStep(CreateStep(RotateStep(w), id1), bytes);
      var v := CreateStep(RotateStep(CreateStep(RotateStep(c), id2)), id3);
      var lost := |w.files|;
      lost < |v.files| && lost < |v.pos| && v.files[lost].bytes == bytes && !Named(v, lost) && !Handled(v, lost) && v.pos[lost] == 0
  {
    assert Shape(w);
    hide Shape, CreateStep, RotateStep, AppendStep, Free, Named, Handled;
    var a := RotateStep(w);
    var b := CreateStep(a, id1);
    RotateCreate(w, id1);
    var c := AppendStep(b, bytes);
    AppendsTo(b, bytes);
    assert "" + bytes == bytes;
    var d := RotateStep(c);
    var e := CreateStep(d, id2);
    RotateCreate(c, id2);
    var f := RotateStep(e);
    var g := CreateStep(f, id3);
    RotateCreate(e, id3);
    Unseen(g, |w.files|, w);
  }

  /** Three rotations between two captures can lose a file: it is created, filled and unlinked unseen. */
  lemma ThirdRotationLoses(w: World, id1: nat, id2: nat, id3: nat, bytes: string)
    requires Inv(w) && w.pc.Idle? && w.current.Some? && bytes != ""
    requires Free(RotateStep(w), id1)
    requires var a := AppendStep(CreateStep(RotateStep(w), id1), bytes);
      Free(RotateStep(a), id2) && Free(RotateStep(CreateStep(RotateStep(a), id2)), id3)
    ensures var events := [Rotate, Create(id1), Append(bytes), Rotate, Create(id2), Rotate, Create(id3)];
      var v := Run(w, events);
      var lost := |w.files|;
      lost < |v.files| && lost < |v.pos| && v.files[lost].bytes == bytes && !Named(v, lost) && !Handled(v, lost) && v.pos[lost] == 0
  {
    assert Shape(w);
    ThirdUnseen(w, id1, id2, id3, bytes);
    ThirdRotation(w, id1, id2, id3, bytes);
    hide Inv, Run, Shape, CreateStep, RotateStep, AppendStep, Free, Named, Handled;
  }

  lemma ThirdRotation(w: World, id1: nat, id2: nat, id3: nat, bytes: string)
    ensures var c := AppendStep(CreateStep(RotateStep(w), id1), bytes);
      Run(w, [Rotate, Create(id1), Append(bytes), Rotate, Create(id2), Rotate, Create(id3)])
        == CreateStep(RotateStep(CreateStep(RotateStep(c), id2)), id3)
  {
    hide Run, Next, RotateStep, CreateStep, AppendStep;
    var b := CreateStep(RotateStep(w), id1);
    var c := AppendStep(b, bytes);
    var e := CreateStep(RotateStep(c), id2);
    var last, end := [Rotate, Create(id3)], [Rotate, Create(id2), Rotate, Create(id3)];
    RunRotateCreate(w, id1, [Rotate, Create(id1), Append(bytes)] + end);
    assert ([Rotate, Create(id1), Append(bytes)] + end)[2..] == [Append(bytes)] + end;
    RunAppend(b, bytes, [Append(bytes)] + end);
    assert ([Append(bytes)] + end)[1..] == end && end[2..] == last && last[2..] == [];
    RunRotateCreate(c, id2, end);
    RunRotateCreate(e, id3, last);
    RunNone(CreateStep(RotateStep(e), id3), []);
    assert [Rotate, Create(id1), Append(bytes)] + end == [Rotate, Create(id1), Append(bytes), Rotate, Create(id2), Rotate, Create(id3)];
  }

  lemma RunRotateCreate(w: World, id: nat, events: seq<Event>)
    requires |events| >= 2 && events[0] == Rotate && events[1] == Create(id)
    ensures Run(w, events) == Run(CreateStep(RotateStep(w), id), events[2..])
  {
    RunTwo(w, events);
    hide Run, RotateStep, CreateStep;
  }

  lemma RunAppend(w: World, bytes: string, events: seq<Event>)
    requires events != [] && events[0] == Append(bytes)
    ensures Run(w, events) == Run(AppendStep(w, bytes), events[1..])
  {
    hide AppendStep;
  }

  lemma RotateCreate(w: World, id: nat)
    requires w.current.Some? && Free(RotateStep(w), id)
    ensures var v := CreateStep(RotateStep(w), id);
      && v.files == w.files + [File(id, "")] && v.previous == w.current && v.current == Some(|w.files|)
      && v.pos == w.pos + [0] && v.pc == w.pc && v.retained == w.retained
  {
    hide Free;
  }

  lemma AppendsTo(w: World, bytes: string)
    requires w.current.Some? && w.current.value < |w.files|
    ensures var v, f := AppendStep(w, bytes), w.current.value;
      && v.files == w.files[f := w.files[f].(bytes := w.files[f].bytes + bytes)]
      && v.current == w.current && v.pos == w.pos && v.pc == w.pc && v.retained == w.retained
  {
  }

  /** No name and no handle leads to the file. */
  lemma Unseen(v: World, lost: nat, w: World)
    requires v.previous == Some(lost + 1) && v.current == Some(lost + 2)
    requires v.pc.Idle? && v.retained == w.retained && Shape(w) && lost == |w.files|
    ensures !Named(v, lost) && !Handled(v, lost)
  {
  }

  lemma RunNone(w: World, events: seq<Event>)
    requires events == []
    ensures Run(w, events) == w
  {
  }

  lemma RunOne(w: World, events: seq<Event>)
    requires events != []
    ensures Run(w, events) == Run(Next(w, events[0]), events[1..])
  {
  }

  // -------------------------------------------------------------- the object

  /** So many steps of the two phases of a poll. */
  function Drains(w: World, n: nat): World {
    if n == 0 then w else DrainStep(Drains(w, n - 1))
  }

  function Copies(w: World, n: nat): World {
    if n == 0 then w else CopyStep(Copies(w, n - 1))
  }

  /** The follow view; `out` is what it has written of each file. */
  class LogView {
    var offsets: map<nat, nat>
    var retained: seq<Input>
    var out: seq<string>

    constructor (count: nat)
      ensures offsets == map[] && retained == [] && out == seq(count, _ => "")
    {
      offsets, retained, out := map[], [], seq(count, _ => "");
    }

    method CopyOne(ghost w: World, boundary: map<nat, nat>, files: seq<File>, f: nat, size: nat)
      requires boundary == w.view && offsets == w.offsets && out == w.out && files == w.files && f < |files| && f < |w.pos| && f < |w.out| && f < |w.fate|
      requires size <= |files[f].bytes|
      modifies this`offsets, this`out
      ensures var v := CopyInput(w, f, size); offsets == v.offsets && out == v.out
    {
      var id := files[f].id;
      var offset := Get(offsets, id);
      if Get(boundary, id) > offset {
        offset := Get(boundary, id);
      }
      if offset >= size {
        offsets := offsets[id := offset];
        return;
      }
      var written := files[f].bytes[offset..size];
      out := out[f := out[f] + written];
      offsets := offsets[id := offset + |written|];
    }

    method DrainOneInput(ghost w: World, boundary: map<nat, nat>, files: seq<File>, input: Input, ghost i: nat)
      requires Inv(w) && w.pc == Draining(i) && i < |w.retained| && w.retained[i] == input && w.files == files
      requires boundary == w.view && offsets == w.offsets && out == w.out
      modifies this`offsets, this`out
      ensures var v := DrainStep(w);
        Inv(v) && v.pc == Draining(i + 1) && SamePoll(w, v) && offsets == v.offsets && out == v.out
    {
      DrainNext(w, i);
      DrainInv(w);
      hide Inv, CopyInput, DrainStep;
      CopyOne(w, boundary, files, input.file, |files[input.file].bytes|);
    }

    method CopyOneInput(ghost w: World, boundary: map<nat, nat>, files: seq<File>, input: Input, ghost i: nat, live: map<nat, nat>)
      returns (newLive: map<nat, nat>)
      requires Inv(w) && w.pc == Copying(i) && i < |w.next| && w.next[i] == input && w.files == files
      requires boundary == w.view && offsets == w.offsets && out == w.out && live == w.live
      modifies this`offsets, this`out
      ensures var v := CopyStep(w);
        && Inv(v) && v.pc == Copying(i + 1) && SamePoll(w, v)
        && offsets == v.offsets && out == v.out && newLive == v.live
    {
      CopyNext(w, i);
      CopyInv(w);
      hide Inv, CopyInput, CopyStep;
      CopyOne(w, boundary, files, input.file, input.size);
      newLive := live[files[input.file].id := Get(offsets, files[input.file].id)];
    }

    /** The retained handles, with refreshed sizes. */
    method DrainRetained(ghost w: World, boundary: map<nat, nat>, files: seq<File>)
      requires Inv(w) && w.pc == Draining(0) && w.files == files
      requires boundary == w.view && offsets == w.offsets && out == w.out && retained == w.retained
      modifies this`offsets, this`out
      ensures var v := Drains(w, |retained|);
        Inv(v) && v.pc == Draining(|retained|) && SamePoll(w, v) && offsets == v.offsets && out == v.out
    {
      hide Inv, DrainStep;
      var i, inputs := 0, retained;
      ghost var v := w;
      while i < |inputs|
        invariant 0 <= i <= |inputs| && v == Drains(w, i)
        invariant Inv(v) && v.pc == Draining(i) && SamePoll(w, v) && offsets == v.offsets && out == v.out
      {
        DrainOneInput(v, boundary, files, inputs[i], i);
        v, i := DrainStep(v), i + 1;
      }
    }

    /** The captured handles, with the sizes they were captured with; only their offsets are remembered. */
    method CopyCaptured(ghost w: World, boundary: map<nat, nat>, files: seq<File>, next: seq<Input>) returns (live: map<nat, nat>)
      requires Inv(w) && w.pc == Copying(0) && w.files == files && w.next == next && w.live == map[]
      requires boundary == w.view && offsets == w.offsets && out == w.out
      modifies this`offsets, this`out
      ensures var v := Copies(w, |next|);
        v.pc == Copying(|next|) && SamePoll(w, v) && live == v.live && offsets == v.offsets && out == v.out
    {
      hide Inv, CopyStep;
      live := map[];
      var i := 0;
      ghost var v := w;
      while i < |next|
        invariant 0 <= i <= |next| && v == Copies(w, i)
        invariant Inv(v) && v.pc == Copying(i) && SamePoll(w, v)
        invariant live == v.live && offsets == v.offsets && out == v.out
      {
        live := CopyOneInput(v, boundary, files, next[i], i, live);
        v, i := CopyStep(v), i + 1;
      }
    }

    /** One poll without interference is the drain and copy steps of the transition system, in their order. */
    method CopyAvailable(ghost w: World, boundary: map<nat, nat>, files: seq<File>, next: seq<Input>)
      requires Inv(w) && w.pc == Draining(0) && w.files == files && w.next == next
      requires boundary == w.view && offsets == w.offsets && out == w.out && retained == w.retained
      modifies this
      ensures var v := Copies(Drains(w, |old(retained)| + 1), |next| + 1);
        v.pc == Idle && offsets == v.offsets && out == v.out && retained == v.retained == next
    {
      DrainRetained(w, boundary, files);
      ghost var u := Drains(w, |retained|);
      assert u.live == map[];
      DrainInv(u);
      u := DrainStep(u);
      var live := CopyCaptured(u, boundary, files, next);
      offsets, retained := live, next;
    }
  }

  /** Draining and copying change offsets, positions and what was written, not the files, names or handles. */
  predicate SamePoll(w: World, v: World) {
    v.files == w.files && v.retained == w.retained && v.next == w.next && v.view == w.view
  }

  lemma DrainNext(w: World, i: nat)
    requires Inv(w) && w.pc == Draining(i) && i < |w.retained|
    ensures var f := w.retained[i].file;
      && f < |w.files| && f < |w.pos| && f < |w.out| && f < |w.fate|
      && var v := CopyInput(w, f, |w.files[f].bytes|);
         DrainStep(w) == v.(pc := Draining(i + 1)) && v == w.(offsets := v.offsets, pos := v.pos, out := v.out, fate := v.fate)
  {
  }

  lemma CopyNext(w: World, i: nat)
    requires Inv(w) && w.pc == Copying(i) && i < |w.next|
    ensures var f := w.next[i].file;
      && f < |w.files| && f < |w.pos| && f < |w.out| && f < |w.fate| && w.next[i].size <= |w.files[f].bytes|
      && var v := CopyInput(w, f, w.next[i].size);
         && CopyStep(w) == v.(live := v.live[w.files[f].id := Get(v.offsets, w.files[f].id)], pc := Copying(i + 1))
         && v == w.(offsets := v.offsets, pos := v.pos, out := v.out, fate := v.fate)
  {
  }
}
