/**
 * The document service among its callers: job threads holding the sources they were given, the
 * files on disk, and the ledger of what each revision number of the open session means. One `Step`
 * is one command, taken as a whole; a long job is several commands with anything in between.
 */
module World {
  import opened Wrappers
  import opened Audio
  import opened Racks
  import opened Stores
  import opened Document
  import opened Histories
  import opened Ledgers
  import opened EditOps
  import opened Service

  /** What a WAV cue chunk can say about a marker. */
  datatype Cue = Cue(pos: nat, len: nat, name: string)

  function CueOf(m: Marker): Cue {
    Cue(m.pos, m.len, m.name)
  }

  function CuesOf(ms: seq<Marker>): multiset<Cue> {
    multiset(seq(|ms|, i requires 0 <= i < |ms| => CueOf(ms[i])))
  }

  /** `cues`: the readable cue chunk of a WAV; `None` for other containers and malformed chunks. */
  datatype FileImage = FileImage(audio: Samples, cues: Option<multiset<Cue>>, stamp: nat)

  datatype JobKind = Peak | Lufs | Bake

  datatype SavePhase = Begun | Prepared(prep: SavePrep) | WriteDone(prep: SavePrep, outcome: WriteOutcome)

  datatype Task =
    | EditJob(kind: JobKind, src: JobSource, model: Rack)
    | PasteJob(paste: PasteSource)
    | SaveJob(saveAs: Option<(Path, Format)>, phase: SavePhase)

  /** How a committed bake came about: the snapshot and rack it rendered, and the result. */
  datatype BakeRecord = BakeRecord(src: JobSource, model: Rack, rendered: Samples)

  /** Bake entry of `h` between the states `lower` and `upper` is exactly what `bakes` recorded. */
  ghost predicate BakeHolds(e: Entry, lower: Snapshot, upper: Snapshot, bakes: map<nat, BakeRecord>) {
    e.attachment.Some? ==>
      && e.number in bakes
      && var b := bakes[e.number];
         && e.attachment.value == BakeAttachment(b.model, [])
         && lower.audio == b.src.snapshot.audio
         && b.src.range.start <= b.src.range.end <= |lower.audio|
         && |b.rendered| == b.src.range.end - b.src.range.start
         && upper.audio == Splice(lower.audio, b.src.range.start, |b.rendered|, b.rendered)
  }

  /** Every bake entry on the stacks agrees with how it came about. */
  ghost predicate BakesAgree(h: History, bakes: map<nat, BakeRecord>) {
    && (forall n :: n in bakes ==> n < h.nextNumber)
    && (forall i :: 0 <= i < |h.undo| ==> BakeHolds(h.undo[i], Below(h, i), Below(h, i + 1), bakes))
    && (forall i :: 0 <= i < |h.redo| ==> BakeHolds(h.redo[i], Above(h, i + 1), Above(h, i), bakes))
  }

  datatype World = World(
    svc: Svc,
    files: map<Path, FileImage>,
    clipFile: Option<Samples>,
    tasks: map<nat, Task>,
    nextTask: nat,
    nextSession: nat,
    nextStamp: nat,
    ledger: Ledger,
    bakes: map<nat, BakeRecord>)

  datatype EditCmd =
    | Cutting(start: nat, end: nat, table: seq<Piece>)
    | Copying(start: nat, end: nat, table: seq<Piece>)
    | Pasting(target: Target)
    | Deleting(start: nat, end: nat)
    | Trimming(start: nat, end: nat)
    | Silencing(start: nat, end: nat)
    | InsertingSilence(target: Target, len: nat)

  /** What a finished take becomes: audio and markers, never a rack attachment. */
  datatype TakeEdit = TakeEdit(ops: seq<EditOp>, markerOps: seq<MarkerOp>)

  function AsEdit(take: Option<TakeEdit>): Option<Edit> {
    match take
    case None => None
    case Some(t) => Some(Edit(t.ops, t.markerOps, None))
  }

  datatype Cmd =
    | DoEdit(edit: EditCmd, io: bool)
    | DoMarkers(ops: seq<MarkerOp>, io: bool)
    | DoHistory(undo: bool, io: bool)
    | StartNormalize(kind: JobKind, start: nat, end: nat, spawns: bool)
    | EndNormalize(task: nat, plan: NormalizePlan, io: bool)
    | StopNormalize(task: nat)
    | StartBake(model: Rack, start: nat, end: nat, spawns: bool)
    | EndBake(task: nat, rendered: Samples, io: bool)
    | StopBake(task: nat)
    | DoRack(model: Rack)
    | StartPaste(target: Target)
    | EndPaste(task: nat, resampled: Samples, table: seq<Piece>, io: bool)
    | StopPaste(task: nat)
    | OpenFile(path: Path, fileMarkers: seq<Marker>, sidecar: Option<seq<Marker>>, rate: nat, format: Format, rack: Option<Rack>, io: bool)
    | RecoverSession(hist: History, ledger: Ledger, bakes: map<nat, BakeRecord>, bound: Option<Path>, rate: nat, format: Format, rack: Option<Rack>, io: bool)
    | CloseDoc(io: bool)
    | StartRecording(rate: nat, format: Format, replace: bool, creates: bool, clipIo: bool, io: bool)
    | StartRecordOp(rate: nat, io: bool)
    | EndTake(take: Option<TakeEdit>, io: bool, creates: bool, clipIo: bool)
    | EndTakeOp(take: Option<TakeEdit>, io: bool)
    | CancelTake
    | StoreChange(store: Store)
    | TrimUndo(count: nat)
    | StartSave(overwrite: bool, preflight: bool)
    | StartSaveAs(path: Path, format: Format, preflight: bool)
    | SavePrepare(task: nat)
    | SaveWrite(task: nat, ok: bool, sidecarOk: bool)
    | SaveEnd(task: nat, io: bool)
    | ForeignWrite(path: Path, image: Option<(Samples, Option<multiset<Cue>>)>)

  const START := World(INITIAL, map[], None, map[], 0, 1, 1, Blank, map[])

  /** The ledger after the open document went from `before` to `after`. */
  function Learn(l: Ledger, before: Option<OpenDoc>, after: Option<OpenDoc>): Ledger {
    if after.None? then l
    else if before.None? || before.value.session != after.value.session then Record(Blank, after.value.hist)
    else if before.value.hist.current == after.value.hist.current then l
    else Record(l, after.value.hist)
  }

  /** Bake records belong to one session's edit numbers. */
  function KeptBakes(bakes: map<nat, BakeRecord>, before: Option<OpenDoc>, after: Option<OpenDoc>): map<nat, BakeRecord> {
    if after.Some? && before.Some? && before.value.session == after.value.session then bakes else map[]
  }

  /** `w` with the service at `s`. */
  function WithSvc(w: World, s: Svc): World {
    w.(svc := s,
       ledger := Learn(w.ledger, w.svc.open, s.open),
       bakes := KeptBakes(w.bakes, w.svc.open, s.open))
  }

  /** The clipboard file after the service went from `before` to `after`: materializing writes it. */
  function ClipFileAfter(file: Option<Samples>, before: Option<Clipboard>, after: Option<Clipboard>): Option<Samples> {
    if before.Some? && before.value.Bound? && after.Some? && after.value.Materialized?
    then Some(after.value.clip.audio)
    else file
  }

  /** Detaching commands go through here, so the clipboard file follows the clipboard. */
  function WithDetached(w: World, s: Svc): World {
    WithSvc(w, s).(clipFile := ClipFileAfter(w.clipFile, w.svc.clipboard, s.clipboard))
  }

  function AddTask(w: World, t: Task): World {
    w.(tasks := w.tasks[w.nextTask := t], nextTask := w.nextTask + 1)
  }

  function DropTask(w: World, id: nat): World {
    w.(tasks := w.tasks - {id})
  }

  /** `table` can be what the document's piece table has under the range; any other is no run of the service. */
  predicate LiesUnder(s: Svc, start: nat, end: nat, table: seq<Piece>) {
    s.open.Some? && start <= end <= s.open.value.Len() ==>
      Lookup(table, s.open.value.store) == Some(s.open.value.hist.current.audio[start..end])
  }

  function EditOut(s: Svc, e: EditCmd, io: bool): Out<EditResult> {
    match e
    case Cutting(a, b, table) => if LiesUnder(s, a, b, table) then Cut(s, a, b, table, io) else Refused(s, BadPieces)
    case Copying(a, b, table) => if LiesUnder(s, a, b, table) then Copy(s, a, b, table) else Refused(s, BadPieces)
    case Pasting(t) => Paste(s, t, io)
    case Deleting(a, b) => Delete(s, a, b, io)
    case Trimming(a, b) => Trim(s, a, b, io)
    case Silencing(a, b) => SilenceRange(s, a, b, io)
    case InsertingSilence(t, n) => InsertSilence(s, t, n, io)
  }

  // --- Jobs ---------------------------------------------------------------------------------------

  predicate RangeOk(src: JobSource) {
    src.range.start <= src.range.end
  }

  /** A gain or a render hands back as many samples as its range holds. */
  predicate Fills(samples: Samples, src: JobSource) {
    RangeOk(src) && |samples| == src.range.end - src.range.start
  }

  predicate TargetOk(p: PasteSource) {
    p.target.Over? ==> p.target.range.start <= p.target.range.end
  }

  predicate HasEditJob(w: World, id: nat, bake: bool) {
    id in w.tasks && w.tasks[id].EditJob? && (w.tasks[id].kind == Bake) == bake && RangeOk(w.tasks[id].src)
  }

  predicate HasPasteJob(w: World, id: nat) {
    id in w.tasks && w.tasks[id].PasteJob? && TargetOk(w.tasks[id].paste)
  }

  predicate HasSaveJob(w: World, id: nat) {
    id in w.tasks && w.tasks[id].SaveJob?
  }

  /** A normalize job whose thread cannot be spawned is never abandoned by `start_*_job`. */
  function StepStartNormalize(w: World, kind: JobKind, start: nat, end: nat, spawns: bool): World {
    if kind == Bake then w
    else
      var out := BeginNormalize(w.svc, start, end);
      var begun := WithSvc(w, out.svc);
      if out.reply.Ok? && spawns then AddTask(begun, EditJob(kind, out.reply.value, [])) else begun
  }

  function StepEndNormalize(w: World, id: nat, plan: NormalizePlan, io: bool): World {
    if !HasEditJob(w, id, false) || (plan.Gain? && !Fills(plan.samples, w.tasks[id].src)) then w
    else DropTask(WithSvc(w, FinishNormalize(w.svc, w.tasks[id].src, plan, io).svc), id)
  }

  /**
   * `model`: the rack as it was read before the document is marked busy, so it may have been edited
   * since; an inactive one is refused.
   */
  function StepStartBake(w: World, model: Rack, start: nat, end: nat, spawns: bool): World {
    if !IsActive(model) then w
    else
      var out := BeginBake(w.svc, start, end);
      var begun := WithSvc(w, out.svc);
      if out.reply.Err? then begun
      else if spawns then AddTask(begun, EditJob(Bake, out.reply.value, model))
      else WithSvc(begun, AbandonBake(begun.svc))
  }

  function StepEndBake(w: World, id: nat, rendered: Samples, io: bool): World {
    if !HasEditJob(w, id, true) || !Fills(rendered, w.tasks[id].src) then w
    else
      var t := w.tasks[id];
      var out := FinishBake(w.svc, t.src, BakeEdit(t.src, rendered, t.model), [], io);
      var after := DropTask(WithSvc(w, out.svc), id);
      if out.reply.Ok? then
        after.(bakes := after.bakes[out.svc.open.value.hist.CurrentNumber() := BakeRecord(t.src, t.model, rendered)])
      else after
  }

  function StepStartPaste(w: World, target: Target): World {
    var out := BeginPaste(w.svc, target);
    var begun := WithSvc(w, out.svc);
    if out.reply.Ok? then AddTask(begun, PasteJob(out.reply.value)) else begun
  }

  /** What the import wrote is in the store of the job's session; the job keeps only the table. */
  predicate WrittenTo(s: Svc, written: Pieces) {
    s.open.Some? && s.open.value.session == written.owner ==>
      Lookup(written.table, s.open.value.store) == Some(written.audio)
  }

  /** The import reads the clipboard file; without it, or if it is short, the job is abandoned. */
  function StepEndPaste(w: World, id: nat, resampled: Samples, table: seq<Piece>, io: bool): World {
    if !HasPasteJob(w, id) then w
    else
      var src := w.tasks[id].paste;
      if w.clipFile.None? || |w.clipFile.value| < |src.clip.audio| then
        DropTask(WithSvc(w, AbandonPaste(w.svc)), id)
      else
        var sameRate := src.clip.rateHz == src.rateHz;
        var audio := if sameRate then w.clipFile.value[..|src.clip.audio|] else resampled;
        var written := Pieces(src.session, table, audio);
        if !WrittenTo(w.svc, written) then w
        else
          var out := FinishPaste(w.svc, src, written, io);
          var after := DropTask(WithSvc(w, out.svc), id);
          if out.reply.Ok? && sameRate then after.(clipFile := None) else after
  }

  // --- Documents ----------------------------------------------------------------------------------

  /** The markers a file opens with, in order. */
  function OpenedMarkers(image: FileImage, fileMarkers: seq<Marker>, sidecar: Option<seq<Marker>>): seq<Marker> {
    SortMarkers(ChosenMarkers(image, fileMarkers, sidecar))
  }

  /** A matching sidecar's markers, unless another program changed the cues. */
  function ChosenMarkers(image: FileImage, fileMarkers: seq<Marker>, sidecar: Option<seq<Marker>>): seq<Marker> {
    if sidecar.Some? && !(image.cues.Some? && CuesOf(fileMarkers) != CuesOf(sidecar.value))
    then sidecar.value
    else fileMarkers
  }

  /** `fileMarkers` are cues of the file that lie inside it. */
  ghost predicate CanOpen(w: World, path: Path, fileMarkers: seq<Marker>, sidecar: Option<seq<Marker>>) {
    && path in w.files
    && MarkersFit(fileMarkers, |w.files[path].audio|)
    && (sidecar.Some? ==> MarkersFit(sidecar.value, |w.files[path].audio|))
    && (if w.files[path].cues.Some? then CuesOf(fileMarkers) <= w.files[path].cues.value else fileMarkers == [])
  }

  function OpenedDoc(w: World, path: Path, markers: seq<Marker>, rate: nat, format: Format): OpenDoc
    requires path in w.files
  {
    var image := w.files[path];
    var hist := New(Content(image.audio, markers));
    OpenDoc(w.nextSession, rate, hist, false, Some(path), format, false,
            SidecarState(hist.current.audioRev, markers, image.stamp), [])
  }

  ghost function StepOpen(
    w: World, path: Path, fileMarkers: seq<Marker>, sidecar: Option<seq<Marker>>, rate: nat, format: Format,
    rack: Option<Rack>, io: bool): World
  {
    if !CanOpen(w, path, fileMarkers, sidecar) then w
    else
      var doc := OpenedDoc(w, path, OpenedMarkers(w.files[path], fileMarkers, sidecar), rate, format);
      WithDetached(w, Open(w.svc, doc, rack, io).svc).(nextSession := w.nextSession + 1)
  }

  /** Recovery rebuilds a history that agrees with what its own session had written down. */
  ghost function StepRecover(
    w: World, hist: History, ledger: Ledger, bakes: map<nat, BakeRecord>, path: Option<Path>, rate: nat, format: Format,
    rack: Option<Rack>, io: bool): World
  {
    if !Agrees(hist, ledger) || !BakesAgree(hist, bakes) || Recording(w.svc) then w
    else
      var facts := if path.Some? && path.value in w.files then w.files[path.value].stamp else 0;
      var doc := OpenDoc(w.nextSession, rate, hist, false, path, format, true,
                         SidecarState(0, hist.current.markers, facts), []);
      WithDetached(w, Open(w.svc, doc, rack, io).svc).(nextSession := w.nextSession + 1, ledger := ledger, bakes := bakes)
  }

  function StepStartRecording(
    w: World, rate: nat, format: Format, replace: bool, creates: bool, clipIo: bool, io: bool): World
  {
    var out := BeginRecording(w.svc, rate, format, replace, if creates then Some(w.nextSession) else None, clipIo, io);
    WithDetached(w, out.svc).(nextSession := w.nextSession + 1)
  }

  function StepEndTake(w: World, take: Option<TakeEdit>, io: bool, creates: bool, clipIo: bool): World {
    var out := CommitTake(w.svc, AsEdit(take), io, if creates then Some(w.nextSession) else None, clipIo);
    WithDetached(w, out.svc).(nextSession := w.nextSession + 1)
  }

  /**
   * The floor moves: number 0 names the oldest state that is left. A job may have started since the
   * disk check looked for one, so none is asked for here; a drop that was not journaled is one of 0.
   */
  function StepTrimUndo(w: World, count: nat): World {
    var s := DropOldestUndo(w.svc, count, true);
    var after := WithSvc(w, s);
    if s.open.Some? then after.(ledger := RecordFloor(after.ledger, s.open.value.hist)) else after
  }

  // --- Saves --------------------------------------------------------------------------------------

  function OnDisk(w: World): Option<nat> {
    if w.svc.open.Some? && w.svc.open.value.path.Some? && w.svc.open.value.path.value in w.files
    then Some(w.files[w.svc.open.value.path.value].stamp)
    else None
  }

  function StepStartSave(w: World, overwrite: bool, preflight: bool): World {
    var out := BeginSave(w.svc, OnDisk(w), overwrite, preflight);
    var begun := WithSvc(w, out.svc);
    if out.reply.Ok? then AddTask(begun, SaveJob(None, Begun)) else begun
  }

  function StepStartSaveAs(w: World, path: Path, format: Format, preflight: bool): World {
    var out := BeginSaveAs(w.svc, format, preflight);
    var begun := WithSvc(w, out.svc);
    if out.reply.Ok? then AddTask(begun, SaveJob(Some((path, format)), Begun)) else begun
  }

  function SavePath(w: World, saveAs: Option<(Path, Format)>): Option<Path> {
    if saveAs.Some? then Some(saveAs.value.0)
    else if w.svc.open.Some? then w.svc.open.value.path
    else None
  }

  /** With nothing open any more the job ends here, and its busy flag stays set. */
  function StepSavePrepare(w: World, id: nat): World {
    if !HasSaveJob(w, id) || !w.tasks[id].phase.Begun? then w
    else
      var saveAs := w.tasks[id].saveAs;
      var path := SavePath(w, saveAs);
      var out := TakePrep(w.svc, saveAs, path.Some? && path.value in w.files);
      if out.reply.Err? then DropTask(w, id)
      else w.(tasks := w.tasks[id := SaveJob(saveAs, Prepared(out.reply.value))])
  }

  function WrittenImage(prep: SavePrep, stamp: nat): FileImage {
    FileImage(
      prep.snapshot.audio,
      if prep.format.container == Wav then Some(CuesOf(prep.snapshot.markers)) else None,
      stamp)
  }

  /** The audio file only when the save needs it; the document lock is not held. */
  function StepSaveWrite(w: World, id: nat, ok: bool, sidecarOk: bool): World {
    if !HasSaveJob(w, id) || !w.tasks[id].phase.Prepared? then w
    else
      var saveAs, prep := w.tasks[id].saveAs, w.tasks[id].phase.prep;
      if !prep.needsFull then
        var stamp := if prep.path in w.files then w.files[prep.path].stamp else 0;
        w.(tasks := w.tasks[id := SaveJob(saveAs, WriteDone(prep, Written(stamp, sidecarOk)))])
      else if !ok then
        w.(tasks := w.tasks[id := SaveJob(saveAs, WriteDone(prep, Failed))])
      else
        w.(files := w.files[prep.path := WrittenImage(prep, w.nextStamp)],
           nextStamp := w.nextStamp + 1,
           tasks := w.tasks[id := SaveJob(saveAs, WriteDone(prep, Written(w.nextStamp, sidecarOk)))])
  }

  function StepSaveEnd(w: World, id: nat, io: bool): World {
    if !HasSaveJob(w, id) || !w.tasks[id].phase.WriteDone? then w
    else
      var t := w.tasks[id];
      DropTask(WithSvc(w, FinishSave(w.svc, t.phase.prep, t.saveAs.Some?, t.phase.outcome, io).svc), id)
  }

  function StepForeign(w: World, path: Path, image: Option<(Samples, Option<multiset<Cue>>)>): World {
    match image
    case None => w.(files := w.files - {path})
    case Some((audio, cues)) =>
      w.(files := w.files[path := FileImage(audio, cues, w.nextStamp)], nextStamp := w.nextStamp + 1)
  }

  // --- One command --------------------------------------------------------------------------------

  ghost function Do(w: World, c: Cmd): World {
    match c
    case DoEdit(e, io) => WithSvc(w, EditOut(w.svc, e, io).svc)
    case DoMarkers(ops, io) => WithSvc(w, EditMarkers(w.svc, ops, io).svc)
    case DoHistory(undo, io) => WithSvc(w, UndoOrRedo(w.svc, undo, io).svc)
    case StartNormalize(kind, a, b, spawns) => StepStartNormalize(w, kind, a, b, spawns)
    case EndNormalize(id, plan, io) => StepEndNormalize(w, id, plan, io)
    case StopNormalize(id) => if HasEditJob(w, id, false) then DropTask(WithSvc(w, AbandonNormalize(w.svc)), id) else w
    case StartBake(model, a, b, spawns) => StepStartBake(w, model, a, b, spawns)
    case EndBake(id, rendered, io) => StepEndBake(w, id, rendered, io)
    case StopBake(id) => if HasEditJob(w, id, true) then DropTask(WithSvc(w, AbandonBake(w.svc)), id) else w
    case DoRack(model) => WithSvc(w, EditRack(w.svc, model).svc)
    case StartPaste(t) => StepStartPaste(w, t)
    case EndPaste(id, resampled, table, io) => StepEndPaste(w, id, resampled, table, io)
    case StopPaste(id) => if HasPasteJob(w, id) then DropTask(WithSvc(w, AbandonPaste(w.svc)), id) else w
    case OpenFile(p, fm, sc, rate, format, rack, io) => StepOpen(w, p, fm, sc, rate, format, rack, io)
    case RecoverSession(h, l, b, p, rate, format, rack, io) => StepRecover(w, h, l, b, p, rate, format, rack, io)
    case CloseDoc(io) => WithDetached(w, Close(w.svc, io).svc)
    case StartRecording(rate, format, replace, creates, clipIo, io) =>
      StepStartRecording(w, rate, format, replace, creates, clipIo, io)
    case StartRecordOp(rate, io) => WithSvc(w, BeginRecordOp(w.svc, rate, io).svc)
    case EndTake(take, io, creates, clipIo) => StepEndTake(w, take, io, creates, clipIo)
    case EndTakeOp(take, io) => WithSvc(w, CommitTakeOp(w.svc, AsEdit(take), io).svc)
    case CancelTake => WithSvc(w, DiscardTake(w.svc))
    case StoreChange(store) => WithSvc(w, ChangeStore(w.svc, store))
    case TrimUndo(count) => StepTrimUndo(w, count)
    case StartSave(overwrite, preflight) => StepStartSave(w, overwrite, preflight)
    case StartSaveAs(path, format, preflight) => StepStartSaveAs(w, path, format, preflight)
    case SavePrepare(id) => StepSavePrepare(w, id)
    case SaveWrite(id, ok, sidecarOk) => StepSaveWrite(w, id, ok, sidecarOk)
    case SaveEnd(id, io) => StepSaveEnd(w, id, io)
    case ForeignWrite(path, image) => StepForeign(w, path, image)
  }

  // Which step a command is: proofs about one step need not look at all the others.

  lemma DoSave(w: World, c: Cmd)
    ensures c.StartSave? ==> Do(w, c) == StepStartSave(w, c.overwrite, c.preflight)
    ensures c.StartSaveAs? ==> Do(w, c) == StepStartSaveAs(w, c.path, c.format, c.preflight)
    ensures c.SavePrepare? ==> Do(w, c) == StepSavePrepare(w, c.task)
    ensures c.SaveWrite? ==> Do(w, c) == StepSaveWrite(w, c.task, c.ok, c.sidecarOk)
    ensures c.SaveEnd? ==> Do(w, c) == StepSaveEnd(w, c.task, c.io)
  {
    hide EditOut, EditMarkers, UndoOrRedo, CommitTakeOp, BeginRecordOp, EditRack, DiscardTake, ChangeStore, Close, WithSvc, WithDetached, DropTask,
         StepStartNormalize, StepEndNormalize, StepStartBake, StepEndBake, StepStartPaste, StepEndPaste, StepOpen, StepRecover,
         StepStartRecording, StepEndTake, StepTrimUndo, StepStartSave, StepStartSaveAs, StepSavePrepare, StepSaveWrite, StepSaveEnd,
         StepForeign;
  }

  lemma DoEditJob(w: World, c: Cmd)
    ensures c.StartNormalize? ==> Do(w, c) == StepStartNormalize(w, c.kind, c.start, c.end, c.spawns)
    ensures c.EndNormalize? ==> Do(w, c) == StepEndNormalize(w, c.task, c.plan, c.io)
    ensures c.StartBake? ==> Do(w, c) == StepStartBake(w, c.model, c.start, c.end, c.spawns)
    ensures c.EndBake? ==> Do(w, c) == StepEndBake(w, c.task, c.rendered, c.io)
    ensures c.StopNormalize? && HasEditJob(w, c.task, false) ==> Do(w, c) == DropTask(WithSvc(w, AbandonNormalize(w.svc)), c.task)
    ensures c.StopBake? && HasEditJob(w, c.task, true) ==> Do(w, c) == DropTask(WithSvc(w, AbandonBake(w.svc)), c.task)
    ensures (c.StopNormalize? && !HasEditJob(w, c.task, false)) || (c.StopBake? && !HasEditJob(w, c.task, true)) ==> Do(w, c) == w
  {
    hide EditOut, EditMarkers, UndoOrRedo, CommitTakeOp, BeginRecordOp, EditRack, DiscardTake, ChangeStore, Close, WithSvc, WithDetached, DropTask,
         StepStartNormalize, StepEndNormalize, StepStartBake, StepEndBake, StepStartPaste, StepEndPaste, StepOpen, StepRecover,
         StepStartRecording, StepEndTake, StepTrimUndo, StepStartSave, StepStartSaveAs, StepSavePrepare, StepSaveWrite, StepSaveEnd,
         StepForeign;
  }

  lemma DoPaste(w: World, c: Cmd)
    ensures c.StartPaste? ==> Do(w, c) == StepStartPaste(w, c.target)
    ensures c.EndPaste? ==> Do(w, c) == StepEndPaste(w, c.task, c.resampled, c.table, c.io)
    ensures c.StopPaste? ==> Do(w, c) == if HasPasteJob(w, c.task) then DropTask(WithSvc(w, AbandonPaste(w.svc)), c.task) else w
  {
    hide EditOut, EditMarkers, UndoOrRedo, CommitTakeOp, BeginRecordOp, EditRack, DiscardTake, ChangeStore, Close, WithSvc, WithDetached, DropTask,
         StepStartNormalize, StepEndNormalize, StepStartBake, StepEndBake, StepStartPaste, StepEndPaste, StepOpen, StepRecover,
         StepStartRecording, StepEndTake, StepTrimUndo, StepStartSave, StepStartSaveAs, StepSavePrepare, StepSaveWrite, StepSaveEnd,
         StepForeign;
  }

  /** The commands that are one service call. */
  function PlainOut(s: Svc, c: Cmd): Svc
    requires c.DoEdit? || c.DoMarkers? || c.DoHistory? || c.DoRack? || c.StartRecordOp? || c.EndTakeOp? || c.CancelTake? || c.StoreChange?
  {
    match c
    case DoEdit(e, io) => EditOut(s, e, io).svc
    case DoMarkers(ops, io) => EditMarkers(s, ops, io).svc
    case DoHistory(undo, io) => UndoOrRedo(s, undo, io).svc
    case DoRack(model) => EditRack(s, model).svc
    case StartRecordOp(rate, io) => BeginRecordOp(s, rate, io).svc
    case EndTakeOp(take, io) => CommitTakeOp(s, AsEdit(take), io).svc
    case CancelTake => DiscardTake(s)
    case StoreChange(store) => ChangeStore(s, store)
  }

  lemma DoPlain(w: World, c: Cmd)
    requires c.DoEdit? || c.DoMarkers? || c.DoHistory? || c.DoRack? || c.StartRecordOp? || c.EndTakeOp? || c.CancelTake? || c.StoreChange?
    ensures Do(w, c) == WithSvc(w, PlainOut(w.svc, c))
  {
    hide EditOut, EditMarkers, UndoOrRedo, CommitTakeOp, BeginRecordOp, EditRack, DiscardTake, ChangeStore, Close, WithSvc, WithDetached, DropTask,
         StepStartNormalize, StepEndNormalize, StepStartBake, StepEndBake, StepStartPaste, StepEndPaste, StepOpen, StepRecover,
         StepStartRecording, StepEndTake, StepTrimUndo, StepStartSave, StepStartSaveAs, StepSavePrepare, StepSaveWrite, StepSaveEnd,
         StepForeign;
  }

  lemma DoDocument(w: World, c: Cmd)
    ensures c.OpenFile? ==> Do(w, c) == StepOpen(w, c.path, c.fileMarkers, c.sidecar, c.rate, c.format, c.rack, c.io)
    ensures c.RecoverSession? ==> Do(w, c) == StepRecover(w, c.hist, c.ledger, c.bakes, c.bound, c.rate, c.format, c.rack, c.io)
    ensures c.CloseDoc? ==> Do(w, c) == WithDetached(w, Close(w.svc, c.io).svc)
    ensures c.StartRecording? ==> Do(w, c) == StepStartRecording(w, c.rate, c.format, c.replace, c.creates, c.clipIo, c.io)
    ensures c.EndTake? ==> Do(w, c) == StepEndTake(w, c.take, c.io, c.creates, c.clipIo)
    ensures c.TrimUndo? ==> Do(w, c) == StepTrimUndo(w, c.count)
    ensures c.ForeignWrite? ==> Do(w, c) == StepForeign(w, c.path, c.image)
  {
    hide EditOut, EditMarkers, UndoOrRedo, CommitTakeOp, BeginRecordOp, EditRack, DiscardTake, ChangeStore, Close, WithSvc, WithDetached, DropTask,
         StepStartNormalize, StepEndNormalize, StepStartBake, StepEndBake, StepStartPaste, StepEndPaste, StepOpen, StepRecover,
         StepStartRecording, StepEndTake, StepTrimUndo, StepStartSave, StepStartSaveAs, StepSavePrepare, StepSaveWrite, StepSaveEnd,
         StepForeign;
  }

  ghost function Run(w: World, cs: seq<Cmd>): World
    decreases |cs|
  {
    if cs == [] then w else Run(Do(w, cs[0]), cs[1..])
  }
}
