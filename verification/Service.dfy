/**
 * The document service as a value, and what each of its commands does to it
 * (src-tauri/src/document.rs). `io` parameters stand for whether a journal append or a file
 * operation succeeds; everything else a command decides is a function of the state.
 */
module Service {
  import opened Wrappers
  import opened Audio
  import opened Racks
  import opened Stores
  import opened Document
  import opened Histories
  import opened EditOps

  type Path = string

  datatype Container = Wav | Flac
  datatype BitDepth = Bit16 | Bit24 | Bit32Float
  datatype Format = Format(container: Container, bits: BitDepth, dither: bool)

  const DEFAULT_FORMAT := Format(Wav, Bit24, true)

  datatype Error =
    | DocumentBusy
    | BakeBusy
    | NoDocument
    | Untitled
    | NotWhileRecording
    | NotRecording
    | NeedsReplace
    | NoSelection
    | InvalidRange
    | InsertSilenceDuration
    | ClipboardEmpty
    | BadPieces
    | SaveInProgress
    | ChangedOnDisk
    | Preflight
    | FlacNeedsIntBits
    | RackInactive
    | Rejected(why: EditError)
    | Io

  /** The baselines Save decides by (SPEC-018): which revision and markers the file holds. */
  datatype SidecarState = SidecarState(lastSavedAudioRev: nat, lastWrittenMarkers: seq<Marker>, facts: nat)

  const NO_SIDECAR := SidecarState(0, [], 0)

  datatype OpenDoc = OpenDoc(
    session: nat,
    rateHz: nat,
    hist: History,
    recording: bool,
    path: Option<Path>,
    format: Format,
    recovered: bool,
    sidecar: SidecarState,
    store: Store)
  {
    function Len(): nat { |hist.current.audio| }

    predicate Dirty() { hist.IsDirty() || recovered }
  }

  /**
   * Pieces outside a document: what the service keeps is the table; `converted` pieces also name their
   * session. `audio`, and the owner of bound pieces, record what the table was made for.
   */
  datatype Pieces = Pieces(owner: nat, table: seq<Piece>, audio: Samples)

  /** A clip streamed to the clipboard file when its session closed. */
  datatype MaterializedClip = MaterializedClip(audio: Samples, rateHz: nat)

  datatype Clipboard =
    | Bound(pieces: Pieces, rateHz: nat)
    | Materialized(clip: MaterializedClip, converted: Option<Pieces>)

  datatype Svc = Svc(
    open: Option<OpenDoc>,
    clipboard: Option<Clipboard>,
    normalizeBusy: bool,
    pasteBusy: bool,
    bakeRunning: bool,
    saveRunning: bool,
    rack: Rack)

  const INITIAL := Svc(None, None, false, false, false, false, [])

  datatype EditResult = EditResult(
    changed: bool, audioRev: nat, len: nat, selection: Option<(nat, nat)>, playhead: nat)

  /** A command's new state and reply. */
  datatype Out<T> = Out(svc: Svc, reply: Result<T, Error>)

  function Refused<T>(s: Svc, e: Error): Out<T> {
    Out(s, Err(e))
  }

  // --- Shared parts -----------------------------------------------------------------------------

  function SelectedRange(doc: OpenDoc, start: nat, end: nat): Result<Range, Error> {
    match ValidateRange(start, end, doc.Len())
    case Err(Empty) => Err(NoSelection)
    case Err(OutOfBounds) => Err(InvalidRange)
    case Ok(r) => Ok(r)
  }

  function ResolveTarget(doc: OpenDoc, target: Target): Result<Target, Error> {
    match target
    case Cursor(c) => if c <= doc.Len() then Ok(target) else Err(InvalidRange)
    case Over(r) =>
      match SelectedRange(doc, r.start, r.end)
      case Err(e) => Err(e)
      case Ok(range) => Ok(Over(range))
  }

  /** `Session::commit_edit`: refused while recording, validated, then journaled. */
  function CommitEdit(doc: OpenDoc, edit: Edit, io: bool): Result<Step, Error> {
    if doc.recording && edit.ChangesAudio() then Err(NotWhileRecording)
    else CommitInternal(doc, edit, io)
  }

  function CommitInternal(doc: OpenDoc, edit: Edit, io: bool): Result<Step, Error> {
    match Apply(doc.hist, edit)
    case Err(e) => Err(Rejected(e))
    case Ok(step) => if io then Ok(step) else Err(Io)
  }

  function WithHistory(s: Svc, doc: OpenDoc, h: History): Svc {
    s.(open := Some(doc.(hist := h)))
  }

  function Applied(h: History, post: PostEdit): EditResult {
    EditResult(true, h.current.audioRev, |h.current.audio|, post.selection, post.playhead)
  }

  function Unchanged(doc: OpenDoc, post: PostEdit): EditResult {
    EditResult(false, doc.hist.current.audioRev, doc.Len(), post.selection, post.playhead)
  }

  /** Commits `edit` to `doc` and reports the selection and playhead of `post`. */
  function CommitWith(s: Svc, doc: OpenDoc, edit: Edit, post: PostEdit, io: bool): Out<EditResult> {
    match CommitEdit(doc, edit, io)
    case Err(e) => Refused(s, e)
    case Ok(step) => Out(WithHistory(s, doc, step.history), Ok(Applied(step.history, post)))
  }

  /** The gate of every destructive edit command. */
  function EditGate(s: Svc): Result<OpenDoc, Error> {
    if s.normalizeBusy || s.pasteBusy then Err(DocumentBusy)
    else if s.open.None? then Err(NoDocument)
    else if s.open.value.recording then Err(NotWhileRecording)
    else Ok(s.open.value)
  }

  // --- Edits and the clipboard ------------------------------------------------------------------

  function ClipOf(doc: OpenDoc, r: Range, table: seq<Piece>): Clipboard
    requires r.start <= r.end <= doc.Len()
  {
    Bound(Pieces(doc.session, table, Slice(doc.hist.current.audio, r)), doc.rateHz)
  }

  /** `table`: the document's pieces under the range. */
  function Cut(s: Svc, start: nat, end: nat, table: seq<Piece>, io: bool): Out<EditResult> {
    match EditGate(s)
    case Err(e) => Refused(s, e)
    case Ok(doc) =>
      match SelectedRange(doc, start, end)
      case Err(e) => Refused(s, e)
      case Ok(r) =>
        var out := CommitWith(s, doc, DeleteEdit(r), PostCutOrDelete(r), io);
        if out.reply.Ok? then out.(svc := out.svc.(clipboard := Some(ClipOf(doc, r, table)))) else out
  }

  function Copy(s: Svc, start: nat, end: nat, table: seq<Piece>): Out<EditResult> {
    match EditGate(s)
    case Err(e) => Refused(s, e)
    case Ok(doc) =>
      match SelectedRange(doc, start, end)
      case Err(e) => Refused(s, e)
      case Ok(r) =>
        Out(s.(clipboard := Some(ClipOf(doc, r, table))), Ok(Unchanged(doc, PostKeepRange(r))))
  }

  /** The clipboard's pieces as a splice into `session`, if they can be one. */
  function Spliceable(clipboard: Option<Clipboard>, session: nat): Result<Pieces, Error> {
    match clipboard
    case None => Err(ClipboardEmpty)
    case Some(Bound(pieces, _)) => Ok(pieces)
    case Some(Materialized(_, converted)) =>
      if converted.Some? && converted.value.owner == session then Ok(converted.value) else Err(DocumentBusy)
  }

  /** Pieces are read in the open session's store, whoever's they are. */
  function Resolve(pieces: Pieces, store: Store): Result<Samples, Error> {
    match Lookup(pieces.table, store)
    case None => Err(BadPieces)
    case Some(audio) => Ok(audio)
  }

  function Paste(s: Svc, target: Target, io: bool): Out<EditResult> {
    match EditGate(s)
    case Err(e) => Refused(s, e)
    case Ok(doc) =>
      match ResolveTarget(doc, target)
      case Err(e) => Refused(s, e)
      case Ok(t) =>
        match Spliceable(s.clipboard, doc.session)
        case Err(e) => Refused(s, e)
        case Ok(pieces) =>
          match Resolve(pieces, doc.store)
          case Err(e) => Refused(s, e)
          case Ok(audio) => CommitWith(s, doc, PasteEdit(audio, t), PostPaste(t, |audio|), io)
  }

  function Delete(s: Svc, start: nat, end: nat, io: bool): Out<EditResult> {
    match EditGate(s)
    case Err(e) => Refused(s, e)
    case Ok(doc) =>
      match SelectedRange(doc, start, end)
      case Err(e) => Refused(s, e)
      case Ok(r) => CommitWith(s, doc, DeleteEdit(r), PostCutOrDelete(r), io)
  }

  function Trim(s: Svc, start: nat, end: nat, io: bool): Out<EditResult> {
    match EditGate(s)
    case Err(e) => Refused(s, e)
    case Ok(doc) =>
      match SelectedRange(doc, start, end)
      case Err(e) => Refused(s, e)
      case Ok(r) =>
        match TrimEdit(r, doc.Len())
        case None => Out(s, Ok(Unchanged(doc, PostTrim())))
        case Some(edit) => CommitWith(s, doc, edit, PostTrim(), io)
  }

  function SilenceRange(s: Svc, start: nat, end: nat, io: bool): Out<EditResult> {
    match EditGate(s)
    case Err(e) => Refused(s, e)
    case Ok(doc) =>
      match SelectedRange(doc, start, end)
      case Err(e) => Refused(s, e)
      case Ok(r) => CommitWith(s, doc, SilenceEdit(r), PostKeepRange(r), io)
  }

  function InsertSilence(s: Svc, target: Target, n: nat, io: bool): Out<EditResult> {
    match EditGate(s)
    case Err(e) => Refused(s, e)
    case Ok(doc) =>
      if !InsertSilenceLenOk(n, doc.rateHz) then Refused(s, InsertSilenceDuration)
      else
        match ResolveTarget(doc, target)
        case Err(e) => Refused(s, e)
        case Ok(t) => CommitWith(s, doc, InsertSilenceEdit(t, n), PostPaste(t, n), io)
  }

  /** A marker command. No busy flag gates it: marker edits run beside every job. */
  function EditMarkers(s: Svc, ops: seq<MarkerOp>, io: bool): Out<()> {
    if ops == [] then Out(s, Ok(()))
    else if s.open.None? then Refused(s, NoDocument)
    else if s.open.value.recording then
      // A marker added during a take joins the take's own edit; every other marker edit waits.
      if |ops| == 1 && ops[0].Add? then Out(s, Ok(())) else Refused(s, NotWhileRecording)
    else
      match CommitEdit(s.open.value, Edit([], ops, None), io)
      case Err(e) => Refused(s, e)
      case Ok(step) => Out(WithHistory(s, s.open.value, step.history), Ok(()))
  }

  /** Undo or redo. A bake entry also brings back the rack it was made with. */
  function UndoOrRedo(s: Svc, undo: bool, io: bool): Out<EditResult> {
    if s.normalizeBusy then Refused(s, DocumentBusy)
    else if s.open.None? then Refused(s, NoDocument)
    else
      var doc := s.open.value;
      if doc.recording then Refused(s, NotWhileRecording)
      else
        match if undo then Undo(doc.hist) else Redo(doc.hist)
        case None => Out(s, Ok(Unchanged(doc, PostEdit(None, 0))))
        case Some(step) =>
          if !io then Refused(s, Io)
          else
            var rack := match step.entry.attachment
              case None => s.rack
              case Some(a) => if undo then a.before else a.after;
            Out(WithHistory(s, doc, step.history).(rack := rack),
                Ok(Applied(step.history, PostUndoRedo(step.entry.firstAt, |step.history.current.audio|))))
  }

  // --- Normalize and bake -----------------------------------------------------------------------

  /** What a normalize or bake job plans against. */
  datatype JobSource = JobSource(session: nat, snapshot: Snapshot, range: Range)

  datatype NormalizePlan = NoOp | Gain(samples: Samples)

  function BeginNormalize(s: Svc, start: nat, end: nat): Out<JobSource> {
    if s.normalizeBusy then Refused(s, DocumentBusy)
    else if s.open.None? then Refused(s, NoDocument)
    else if s.open.value.recording then Refused(s, NotWhileRecording)
    else
      var doc := s.open.value;
      match SelectedRange(doc, start, end)
      case Err(e) => Refused(s, e)
      case Ok(r) =>
        Out(s.(normalizeBusy := true), Ok(JobSource(doc.session, doc.hist.current, r)))
  }

  function AbandonNormalize(s: Svc): Svc {
    s.(normalizeBusy := false)
  }

  /** The re-validation: same session, and the very snapshot the job planned against. */
  predicate StillAt(doc: OpenDoc, src: JobSource) {
    doc.session == src.session && doc.hist.current.rev == src.snapshot.rev
  }

  function FinishNormalize(s: Svc, src: JobSource, plan: NormalizePlan, io: bool): Out<EditResult>
    requires src.range.start <= src.range.end
  {
    var done := s.(normalizeBusy := false);
    if s.open.None? then Refused(done, NoDocument)
    else
      var doc := s.open.value;
      if doc.session != src.session then Refused(done, DocumentBusy)
      else
        match plan
        case NoOp => Out(done, Ok(Unchanged(doc, PostKeepRange(src.range))))
        case Gain(samples) =>
          if !StillAt(doc, src) then Refused(done, DocumentBusy)
          else CommitWith(done, doc, ReplaceRangeEdit(src.range, samples, None), PostKeepRange(src.range), io)
  }

  function BeginBake(s: Svc, start: nat, end: nat): Out<JobSource> {
    var out := BeginNormalize(s, start, end);
    if out.reply.Ok? then out.(svc := out.svc.(bakeRunning := true)) else out
  }

  function AbandonBake(s: Svc): Svc {
    s.(bakeRunning := false, normalizeBusy := false)
  }

  /** The bake's edit replaces the range and resets the rack; undo brings `before` back. */
  function BakeEdit(src: JobSource, rendered: Samples, before: Rack): Edit
    requires src.range.start <= src.range.end
  {
    ReplaceRangeEdit(src.range, rendered, Some(BakeAttachment(before, [])))
  }

  function FinishBake(s: Svc, src: JobSource, edit: Edit, after: Rack, io: bool): Out<EditResult> {
    var done := s.(bakeRunning := false, normalizeBusy := false);
    if s.open.None? then Refused(done, NoDocument)
    else
      var doc := s.open.value;
      if !StillAt(doc, src) then Refused(done, DocumentBusy)
      else
        var out := CommitWith(done, doc, edit, PostKeepRange(src.range), io);
        if out.reply.Ok? then out.(svc := out.svc.(rack := after)) else out
  }

  /** A rack edit from the UI is refused while a bake runs. */
  function EditRack(s: Svc, rack: Rack): Out<()> {
    if s.bakeRunning then Refused(s, BakeBusy) else Out(s.(rack := rack), Ok(()))
  }

  // --- Cross-document paste ---------------------------------------------------------------------

  datatype PasteSource = PasteSource(session: nat, rateHz: nat, target: Target, clip: MaterializedClip)

  function PasteNeedsJob(s: Svc): bool {
    && s.open.Some?
    && s.clipboard.Some?
    && s.clipboard.value.Materialized?
    && !(s.clipboard.value.converted.Some? && s.clipboard.value.converted.value.owner == s.open.value.session)
  }

  function BeginPaste(s: Svc, target: Target): Out<PasteSource> {
    if s.pasteBusy || s.normalizeBusy then Refused(s, DocumentBusy)
    else if s.open.None? then Refused(s, NoDocument)
    else if s.open.value.recording then Refused(s, NotWhileRecording)
    else
      var doc := s.open.value;
      match ResolveTarget(doc, target)
      case Err(e) => Refused(s, e)
      case Ok(t) =>
        match s.clipboard
        case None => Refused(s, ClipboardEmpty)
        case Some(Bound(_, _)) => Refused(s, DocumentBusy)
        case Some(Materialized(clip, _)) =>
          Out(s.(pasteBusy := true), Ok(PasteSource(doc.session, doc.rateHz, t, clip)))
  }

  function AbandonPaste(s: Svc): Svc {
    s.(pasteBusy := false)
  }

  /** The splice would change samples; a recording refuses it before its pieces are looked at. */
  predicate Changing(written: Pieces, target: Target) {
    Length(written.table) > 0 || (target.Over? && target.range.start < target.range.end)
  }

  /** Under the document lock: the splice itself, onto whatever the session's current state is. */
  function PasteCommit(s: Svc, src: PasteSource, written: Pieces, io: bool): Out<EditResult>
    requires src.target.Over? ==> src.target.range.start <= src.target.range.end
  {
    if s.open.None? then Refused(s, NoDocument)
    else
      var doc := s.open.value;
      if doc.session != src.session then Refused(s, DocumentBusy)
      else
        match Resolve(written, doc.store)
        case Err(e) => Refused(s, if doc.recording && Changing(written, src.target) then NotWhileRecording else e)
        case Ok(audio) => CommitWith(s, doc, PasteEdit(audio, src.target), PostPaste(src.target, |audio|), io)
  }

  /** After the document lock is dropped: a same-rate import rebinds, a converted one is cached. */
  function PasteRebind(s: Svc, src: PasteSource, written: Pieces): Svc {
    if src.clip.rateHz == src.rateHz then s.(clipboard := Some(Bound(written, src.rateHz)))
    else if s.clipboard.Some? && s.clipboard.value.Materialized? then
      s.(clipboard := Some(s.clipboard.value.(converted := Some(written))))
    else s
  }

  /** `written`: the chunks the import put into the session's store. */
  function FinishPaste(s: Svc, src: PasteSource, written: Pieces, io: bool): Out<EditResult>
    requires src.target.Over? ==> src.target.range.start <= src.target.range.end
  {
    var out := PasteCommit(s, src, written, io);
    var rebound := if out.reply.Ok? then PasteRebind(out.svc, src, written) else out.svc;
    Out(rebound.(pasteBusy := false), out.reply)
  }

  // --- Opening, closing, recording --------------------------------------------------------------

  /** Streams a bound clipboard through `store` to the file; a failed read or write clears it. */
  function MaterializeClipboard(s: Svc, store: Store, io: bool): Svc {
    match s.clipboard
    case Some(Bound(pieces, rateHz)) =>
      var audio := Lookup(pieces.table, store);
      if io && audio.Some? then
        s.(clipboard := Some(Materialized(MaterializedClip(audio.value, rateHz), None)))
      else s.(clipboard := None)
    case _ => s
  }

  function Detach(s: Svc, io: bool): Svc {
    if s.open.Some? then MaterializeClipboard(s, s.open.value.store, io) else s
  }

  /** Makes `doc` the open document, replacing whatever was open. */
  function Install(s: Svc, doc: OpenDoc, io: bool): Svc {
    Detach(s, io).(open := Some(doc))
  }

  predicate Recording(s: Svc) {
    s.open.Some? && s.open.value.recording
  }

  function Open(s: Svc, doc: OpenDoc, rack: Option<Rack>, io: bool): Out<()> {
    if Recording(s) then Refused(s, NotWhileRecording)
    else
      var loaded := if rack.Some? then s.(rack := rack.value) else s;
      Out(Install(loaded, doc, io), Ok(()))
  }

  function Close(s: Svc, io: bool): Out<()> {
    if Recording(s) then Refused(s, NotWhileRecording)
    else Out(Detach(s, io).(open := None), Ok(()))
  }

  function NewRecording(session: nat, rateHz: nat, format: Format): OpenDoc {
    OpenDoc(session, rateHz, New(Content([], [])), false, None, format, false, NO_SIDECAR, [])
  }

  predicate Reusable(s: Svc, rateHz: nat) {
    s.open.Some? && s.open.value.Len() == 0 && s.open.value.rateHz == rateHz
  }

  /** `created`: the session created for the take, `None` if creating it failed. */
  function BeginRecording(
    s: Svc, rateHz: nat, format: Format, replace: bool, created: Option<nat>, clipIo: bool, io: bool): Out<()>
  {
    if Recording(s) then Refused(s, NotWhileRecording)
    else if !Reusable(s, rateHz) && !replace && s.open.Some? && s.open.value.Len() > 0 then
      Refused(s, NeedsReplace)
    else if !Reusable(s, rateHz) && created.None? then Refused(s, Io)
    else
      var ready := if Reusable(s, rateHz) then s
                   else Install(s, NewRecording(created.value, rateHz, format), clipIo);
      if io then Out(ready.(open := Some(ready.open.value.(recording := true))), Ok(()))
      else Refused(ready, Io)
  }

  function BeginRecordOp(s: Svc, rateHz: nat, io: bool): Out<()> {
    if s.normalizeBusy then Refused(s, DocumentBusy)
    else if s.open.None? then Refused(s, NoDocument)
    else if s.open.value.recording then Refused(s, NotWhileRecording)
    else if s.open.value.rateHz != rateHz then Refused(s, InvalidRange)
    else if !io then Refused(s, Io)
    else Out(s.(open := Some(s.open.value.(recording := true))), Ok(()))
  }

  /**
   * `edit`: what the take becomes, `None` for an empty one. A take that cannot be committed leaves
   * its broken session behind and a fresh empty document in its place.
   */
  function CommitTake(s: Svc, edit: Option<Edit>, io: bool, created: Option<nat>, clipIo: bool): Out<()> {
    if s.open.None? then Refused(s, NoDocument)
    else
      var doc := s.open.value;
      var outcome: Result<Option<Step>, Error> :=
        if !doc.recording then Err(NotRecording)
        else if edit.None? then Ok(None)
        else match CommitInternal(doc, edit.value, io) case Err(e) => Err(e) case Ok(st) => Ok(Some(st));
      match outcome
      case Ok(None) => Out(s.(open := Some(doc.(recording := false))), Ok(()))
      case Ok(Some(step)) => Out(s.(open := Some(doc.(recording := false, hist := step.history))), Ok(()))
      case Err(e) =>
        if created.Some? then Refused(Install(s, NewRecording(created.value, doc.rateHz, doc.format), clipIo), e)
        else Refused(s, e)
  }

  /** A record operation: a failed commit closes the take without an edit. */
  function CommitTakeOp(s: Svc, edit: Option<Edit>, io: bool): Out<()> {
    if s.open.None? then Refused(s, NoDocument)
    else if !s.open.value.recording then Refused(s, NotRecording)
    else
      var doc := s.open.value.(recording := false);
      if edit.None? then Out(s.(open := Some(doc)), Ok(()))
      else
        match CommitInternal(doc, edit.value, io)
        case Err(e) => Refused(s.(open := Some(doc)), e)
        case Ok(step) => Out(s.(open := Some(doc.(hist := step.history))), Ok(()))
  }

  /** What the clipboard can be read as in the open session. */
  predicate ReadsAlike(c: Option<Clipboard>, session: nat, a: Store, b: Store) {
    match c
    case None => true
    case Some(Bound(pieces, _)) => Lookup(pieces.table, a) == Lookup(pieces.table, b)
    case Some(Materialized(_, converted)) =>
      converted.Some? && converted.value.owner == session ==> Lookup(converted.value.table, a) == Lookup(converted.value.table, b)
  }

  /**
   * The open session's store changes: imports, jobs and takes add chunks, compaction drops those that
   * neither the document nor the clipboard reaches.
   */
  function ChangeStore(s: Svc, store: Store): Svc {
    if s.open.Some? && ReadsAlike(s.clipboard, s.open.value.session, s.open.value.store, store) then
      s.(open := Some(s.open.value.(store := store)))
    else s
  }

  function DiscardTake(s: Svc): Svc {
    if s.open.Some? then s.(open := Some(s.open.value.(recording := false))) else s
  }

  /** The disk check's first look, under other locks than the document's. */
  predicate SkipsDiskCheck(s: Svc, playing: bool) {
    s.normalizeBusy || playing
  }

  /** The disk check's undo trim: nothing is dropped while recording or if the append fails. */
  function DropOldestUndo(s: Svc, count: nat, io: bool): Svc {
    if s.open.None? || s.open.value.recording || !io then s
    else WithHistory(s, s.open.value, DropOldest(s.open.value.hist, count))
  }

  // --- Save -------------------------------------------------------------------------------------

  /** `onDisk`: the stamp (size and mtime) of the bound file now, `None` if it is gone. */
  function BeginSave(s: Svc, onDisk: Option<nat>, overwrite: bool, preflight: bool): Out<()> {
    if s.saveRunning then Refused(s, SaveInProgress)
    else if s.open.None? then Refused(s, NoDocument)
    else if s.open.value.path.None? then Refused(s, Untitled)
    else if !overwrite && onDisk.Some? && onDisk.value != s.open.value.sidecar.facts then Refused(s, ChangedOnDisk)
    else if !preflight then Refused(s, Preflight)
    else Out(s.(saveRunning := true), Ok(()))
  }

  function BeginSaveAs(s: Svc, format: Format, preflight: bool): Out<()> {
    if format.container == Flac && format.bits == Bit32Float then Refused(s, FlacNeedsIntBits)
    else if s.saveRunning then Refused(s, SaveInProgress)
    else if s.open.None? then Refused(s, NoDocument)
    else if !preflight then Refused(s, Preflight)
    else Out(s.(saveRunning := true), Ok(()))
  }

  /** Everything a save captures under the document lock before it writes without it. */
  datatype SavePrep = SavePrep(
    session: nat, snapshot: Snapshot, number: nat, path: Path, format: Format, needsFull: bool)

  predicate NeedsFull(doc: OpenDoc, format: Format, forceFull: bool, exists_: bool) {
    || forceFull
    || doc.hist.current.audioRev != doc.sidecar.lastSavedAudioRev
    || doc.hist.current.markers != doc.sidecar.lastWrittenMarkers
    || format != doc.format
    || !exists_
  }

  function PrepareSave(doc: OpenDoc, path: Path, format: Format, forceFull: bool, exists_: bool): SavePrep {
    SavePrep(doc.session, doc.hist.current, doc.hist.CurrentNumber(), path, format,
             NeedsFull(doc, format, forceFull, exists_))
  }

  /** The first lock of a save's writing half. With no document the busy flag is never cleared. */
  function TakePrep(s: Svc, saveAs: Option<(Path, Format)>, exists_: bool): Out<SavePrep> {
    if s.open.None? then Refused(s, NoDocument)
    else
      var doc := s.open.value;
      match saveAs
      case Some(target) => Out(s, Ok(PrepareSave(doc, target.0, target.1, true, exists_)))
      case None =>
        if doc.path.None? then Refused(s, Untitled)
        else Out(s, Ok(PrepareSave(doc, doc.path.value, doc.format, false, exists_)))
  }

  /** How a write ended: the stamp of the file afterwards and whether the sidecar was written. */
  datatype WriteOutcome = Failed | Written(stamp: nat, sidecarOk: bool)

  /** The baselines after a write. They change before the journal append that may still fail. */
  function SavedSidecar(doc: OpenDoc, prep: SavePrep, stamp: nat, sidecarOk: bool): SidecarState {
    SidecarState(
      prep.snapshot.audioRev,
      if sidecarOk then prep.snapshot.markers else doc.sidecar.lastWrittenMarkers,
      stamp)
  }

  /** The second lock: records exactly the captured edit number, never the live one. */
  function FinishSave(s: Svc, prep: SavePrep, saveAs: bool, outcome: WriteOutcome, io: bool): Out<()> {
    var done := s.(saveRunning := false);
    match outcome
    case Failed => Refused(done, Io)
    case Written(stamp, sidecarOk) =>
      if s.open.None? || s.open.value.session != prep.session then Refused(done, NoDocument)
      else
        var doc := s.open.value.(sidecar := SavedSidecar(s.open.value, prep, stamp, sidecarOk));
        if !io then Refused(done.(open := Some(doc)), Io)
        else
          var marked := doc.(hist := MarkSavedAt(doc.hist, prep.number), recovered := false);
          var bound := if saveAs then marked.(path := Some(prep.path), format := prep.format) else marked;
          Out(done.(open := Some(bound)), Ok(()))
  }
}
