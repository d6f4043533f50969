/**
 * Clipboard safety over every run of whole commands: bound pieces belong to the open session and read
 * there as what was cut or copied, converted pieces are used only for the session they were imported
 * into, a paste job finds the clip it was given, and only a failed write loses a clip.
 */
module ClipboardSafety {
  import opened Wrappers
  import opened Audio
  import opened Racks
  import opened Stores
  import opened Document
  import opened Histories
  import opened Ledgers
  import opened EditOps
  import opened Service
  import opened World
  import opened Evolution
  import opened EditAlgebra

  /** What a paste anywhere would insert: the clip's audio and its rate. */
  function Clip(c: Option<Clipboard>): Option<(Samples, nat)> {
    match c
    case None => None
    case Some(Bound(pieces, rate)) => Some((pieces.audio, rate))
    case Some(Materialized(clip, _)) => Some((clip.audio, clip.rateHz))
  }

  /** The clipboard may be used with the document that is open. */
  predicate BelongsTo(c: Option<Clipboard>, open: Option<OpenDoc>) {
    c.Some? && c.value.Bound? ==> open.Some? && open.value.session == c.value.pieces.owner
  }

  /** Pieces a paste would use read, in the open session's store, as what they were made for. */
  predicate Sound(c: Option<Clipboard>, open: Option<OpenDoc>) {
    c.Some? && open.Some? ==>
      match c.value
      case Bound(pieces, _) => Lookup(pieces.table, open.value.store) == Some(pieces.audio)
      case Materialized(_, converted) =>
        converted.Some? && converted.value.owner == open.value.session ==>
          Lookup(converted.value.table, open.value.store) == Some(converted.value.audio)
  }

  ghost predicate ClipInv(w: World) {
    && TasksBounded(w)
    && (w.svc.open.Some? ==> w.svc.open.value.session < w.nextSession)
    && BelongsTo(w.svc.clipboard, w.svc.open)
    && Sound(w.svc.clipboard, w.svc.open)
    && (w.svc.clipboard.Some? && w.svc.clipboard.value.Materialized? ==>
          && w.clipFile == Some(w.svc.clipboard.value.clip.audio)
          && (w.svc.clipboard.value.converted.Some? ==> w.svc.clipboard.value.converted.value.owner < w.nextSession))
    && (forall i :: i in w.tasks && w.tasks[i].PasteJob? ==>
          && w.svc.pasteBusy
          && TargetOk(w.tasks[i].paste)
          && w.tasks[i].paste.session < w.nextSession
          && w.svc.clipboard.Some? && w.svc.clipboard.value.Materialized?
          && w.svc.clipboard.value.clip == w.tasks[i].paste.clip)
    && (forall i, j :: i in w.tasks && j in w.tasks && w.tasks[i].PasteJob? && w.tasks[j].PasteJob? ==> i == j)
  }

  ghost predicate SamePasteJobs(w: World, v: World) {
    && TasksBounded(v)
    && (forall i :: i in v.tasks && v.tasks[i].PasteJob? ==> i in w.tasks && w.tasks[i] == v.tasks[i])
  }

  predicate SameSession(a: Option<OpenDoc>, b: Option<OpenDoc>) {
    a.Some? == b.Some? && (a.Some? ==> a.value.session == b.value.session)
  }

  /** The clipboard and its flag are as before, and the open store reads its pieces as before. */
  predicate SameClip(s: Svc, t: Svc) {
    && t.clipboard == s.clipboard && t.pasteBusy == s.pasteBusy
    && (s.open.Some? && t.open.Some? && t.open.value.store != s.open.value.store ==>
          ReadsAlike(s.clipboard, s.open.value.session, s.open.value.store, t.open.value.store))
  }

  /** Commands that touch neither the clipboard nor its jobs nor which session is open. */
  lemma QuietKeeps(w: World, v: World)
    requires ClipInv(w) && SamePasteJobs(w, v) && w.nextSession <= v.nextSession
    requires SameClip(w.svc, v.svc) && v.clipFile == w.clipFile
    requires SameSession(w.svc.open, v.svc.open)
    ensures ClipInv(v)
  {
    hide Lookup;
  }

  /** New chunks never disturb the clipboard, so a store may always grow. */
  lemma StoresGrow(s: Svc, more: Store)
    requires s.open.Some? && BelongsTo(s.clipboard, s.open) && Sound(s.clipboard, s.open)
    ensures ChangeStore(s, s.open.value.store + more).open == Some(s.open.value.(store := s.open.value.store + more))
  {
    hide Lookup;
    match s.clipboard
    case Some(Bound(pieces, _)) => GrowingKeeps(pieces.table, s.open.value.store, more);
    case Some(Materialized(_, Some(converted))) =>
      if converted.owner == s.open.value.session {
        GrowingKeeps(converted.table, s.open.value.store, more);
      }
    case _ =>
  }

  lemma EditKeeps(w: World, e: EditCmd, io: bool)
    requires ClipInv(w)
    ensures ClipInv(WithSvc(w, EditOut(w.svc, e, io).svc))
  {
    hide Learn, KeptBakes, EditOut, Sound, EditGate;
    var v := WithSvc(w, EditOut(w.svc, e, io).svc);
    assert v.tasks == w.tasks;
    if EditGate(w.svc).Err? || (!e.Cutting? && !e.Copying?) {
      EditLeavesClipboard(w.svc, e, io);
      QuietKeeps(w, v);
    } else {
      GateIs(w.svc);
      CopiesAreSound(w.svc, e, io);
    }
  }

  /** Cut and copy put on the clipboard what lies under the range, or leave it alone. */
  lemma CopiesAreSound(s: Svc, e: EditCmd, io: bool)
    requires EditGate(s).Ok? && (e.Cutting? || e.Copying?) && BelongsTo(s.clipboard, s.open) && Sound(s.clipboard, s.open)
    ensures var out := EditOut(s, e, io).svc;
            && SameSession(s.open, out.open) && out.pasteBusy == s.pasteBusy
            && BelongsTo(out.clipboard, out.open) && Sound(out.clipboard, out.open)
            && (out.clipboard == s.clipboard || (out.clipboard.Some? && out.clipboard.value.Bound?))
  {
    hide DeleteEdit, PostCutOrDelete, Apply, Lookup;
  }

  lemma EditLeavesClipboard(s: Svc, e: EditCmd, io: bool)
    requires EditGate(s).Err? || (!e.Cutting? && !e.Copying?)
    ensures var out := EditOut(s, e, io).svc;
            SameClip(s, out) && SameSession(s.open, out.open)
  {
    hide ValidateRange, Apply, PasteEdit, TrimEdit, SilenceEdit, InsertSilenceEdit, DeleteEdit, Lookup, ReadsAlike;
  }

  lemma StartPasteKeeps(w: World, target: Target)
    requires ClipInv(w)
    ensures ClipInv(StepStartPaste(w, target))
  {
    hide Learn, KeptBakes;
  }

  /** Where a finished paste leaves the clipboard. */
  lemma FinishPasteRebinds(s: Svc, src: PasteSource, written: Pieces, io: bool)
    requires TargetOk(src)
    ensures var out := FinishPaste(s, src, written, io);
            && SameDocument(s.open, out.svc.open)
            && !out.svc.pasteBusy
            && (out.reply.Err? ==> out.svc.clipboard == s.clipboard)
            && (out.reply.Ok? ==>
                  && s.open.Some? && s.open.value.session == src.session
                  && out.svc.clipboard == PasteRebind(s, src, written).clipboard)
  {
    hide PasteEdit, CommitWith, PasteCommit, PasteRebind;
    CommittedPasteStays(s, src, written, io);
    RebindIgnoresDocument(s, PasteCommit(s, src, written, io).svc, src, written);
  }

  predicate SameDocument(a: Option<OpenDoc>, b: Option<OpenDoc>) {
    SameSession(a, b) && (a.Some? ==> a.value.store == b.value.store)
  }

  lemma CommittedPasteStays(s: Svc, src: PasteSource, written: Pieces, io: bool)
    requires TargetOk(src)
    ensures var out := PasteCommit(s, src, written, io);
            && SameDocument(s.open, out.svc.open)
            && out.svc == s.(open := out.svc.open)
            && (out.reply.Ok? ==> s.open.Some? && s.open.value.session == src.session)
  {
    hide PasteEdit, CommitEdit, Lookup, Length;
  }

  lemma RebindIgnoresDocument(s: Svc, t: Svc, src: PasteSource, written: Pieces)
    requires t == s.(open := t.open)
    ensures PasteRebind(t, src, written).clipboard == PasteRebind(s, src, written).clipboard
    ensures PasteRebind(t, src, written).open == t.open
  {}

  /** In every state the invariant holds in, the import finds exactly the clip the job was given. */
  lemma EndPasteKeeps(w: World, id: nat, resampled: Samples, table: seq<Piece>, io: bool)
    requires ClipInv(w)
    ensures ClipInv(StepEndPaste(w, id, resampled, table, io))
  {
    hide Learn, KeptBakes, FinishPaste, AbandonPaste, Lookup;
    var v := StepEndPaste(w, id, resampled, table, io);
    if HasPasteJob(w, id) {
      var src := w.tasks[id].paste;
      assert w.clipFile == Some(src.clip.audio);
      var audio := if src.clip.rateHz == src.rateHz then src.clip.audio else resampled;
      assert src.clip.audio[..|src.clip.audio|] == src.clip.audio;
      FinishPasteRebinds(w.svc, src, Pieces(src.session, table, audio), io);
      if WrittenTo(w.svc, Pieces(src.session, table, audio)) {
        assert v.tasks == w.tasks - {id};
        assert forall i :: i in v.tasks ==> !v.tasks[i].PasteJob?;
        assert TasksBounded(v);
      }
    }
  }

  /** Detaching from the closing session streams the clip out; nothing else owns bound pieces. */
  lemma DetachKeepsClip(s: Svc, io: bool)
    requires BelongsTo(s.clipboard, s.open) && Sound(s.clipboard, s.open)
    ensures var d := Detach(s, io);
            && d == s.(clipboard := d.clipboard)
            && (d.clipboard.Some? ==> d.clipboard.value.Materialized?)
            && (io ==> Clip(d.clipboard) == Clip(s.clipboard))
            && (!io ==> d.clipboard == None || d.clipboard == s.clipboard)
            && (s.clipboard.Some? && s.clipboard.value.Materialized? ==> d.clipboard == s.clipboard)
  {}

  /** `v` has another session's document open, or none, and the clipboard detached. */
  lemma DetachedKeeps(w: World, v: World, io: bool)
    requires ClipInv(w) && v.tasks == w.tasks && v.nextTask == w.nextTask && w.nextSession <= v.nextSession
    requires v.svc.clipboard == Detach(w.svc, io).clipboard && v.svc.pasteBusy == w.svc.pasteBusy
    requires v.clipFile == ClipFileAfter(w.clipFile, w.svc.clipboard, v.svc.clipboard)
    requires v.svc.open.Some? ==> w.nextSession <= v.svc.open.value.session < v.nextSession
    ensures ClipInv(v)
  {
    hide MaterializeClipboard;
    DetachKeepsClip(w.svc, io);
    DetachWritesClip(w.svc, io);
  }

  lemma DetachWritesClip(s: Svc, io: bool)
    requires BelongsTo(s.clipboard, s.open)
    ensures var d := Detach(s, io);
            s.clipboard.Some? && s.clipboard.value.Bound? && d.clipboard.Some? ==>
              d.clipboard.value.Materialized? && d.clipboard.value.converted.None?
  {}

  lemma StartRecordingKeepsClip(w: World, rate: nat, format: Format, replace: bool, creates: bool, clipIo: bool, io: bool)
    requires ClipInv(w)
    ensures ClipInv(StepStartRecording(w, rate, format, replace, creates, clipIo, io))
  {
    hide Moves, Detach;
    var v := StepStartRecording(w, rate, format, replace, creates, clipIo, io);
    RecordingShape(w.svc, rate, format, replace, if creates then Some(w.nextSession) else None, clipIo, io);
    if Evolves(w.svc.open, v.svc.open) && SameStore(w.svc.open, v.svc.open) && v.svc == w.svc.(open := v.svc.open) {
      QuietKeeps(w, v);
    } else {
      assert v.svc.clipboard == Detach(w.svc, clipIo).clipboard;
      assert v.svc.pasteBusy == w.svc.pasteBusy by { DetachKeepsClip(w.svc, clipIo); }
      DetachedKeeps(w, v, clipIo);
    }
  }

  lemma EndTakeKeepsClip(w: World, take: Option<TakeEdit>, io: bool, creates: bool, clipIo: bool)
    requires ClipInv(w)
    ensures ClipInv(StepEndTake(w, take, io, creates, clipIo))
  {
    hide Moves, Detach, CommitTake;
    var v := StepEndTake(w, take, io, creates, clipIo);
    TakeEvolves(w.svc, AsEdit(take), io, if creates then Some(w.nextSession) else None, clipIo);
    if Evolves(w.svc.open, v.svc.open) && SameStore(w.svc.open, v.svc.open) && v.svc == w.svc.(open := v.svc.open) {
      QuietKeeps(w, v);
    } else {
      assert v.svc.clipboard == Detach(w.svc, clipIo).clipboard;
      assert v.svc.pasteBusy == w.svc.pasteBusy by { DetachKeepsClip(w.svc, clipIo); }
      DetachedKeeps(w, v, clipIo);
    }
  }

  /** Opening, recovering and closing, refused or not. */
  lemma OpenKeepsClip(w: World, v: World, doc: OpenDoc, rack: Option<Rack>, io: bool)
    requires ClipInv(w) && doc.session == w.nextSession
    requires v.svc == Open(w.svc, doc, rack, io).svc && v.nextSession == w.nextSession + 1
    requires v.tasks == w.tasks && v.nextTask == w.nextTask
    requires v.clipFile == ClipFileAfter(w.clipFile, w.svc.clipboard, v.svc.clipboard)
    ensures ClipInv(v)
  {
    if Recording(w.svc) {
      QuietKeeps(w, v);
    } else {
      DetachedKeeps(w, v, io);
    }
  }

  lemma CloseKeepsClip(w: World, io: bool)
    requires ClipInv(w)
    ensures ClipInv(WithDetached(w, Close(w.svc, io).svc))
  {
    var v := WithDetached(w, Close(w.svc, io).svc);
    if Recording(w.svc) {
      QuietKeeps(w, v);
    } else {
      DetachedKeeps(w, v, io);
    }
  }

  /** The commands that move no document in or out and leave the clipboard alone. */
  predicate IsQuiet(c: Cmd) {
    !c.DoEdit? && !c.StartPaste? && !c.EndPaste? && !c.StopPaste? && !c.OpenFile? && !c.RecoverSession? &&
    !c.CloseDoc? && !c.StartRecording? && !c.EndTake?
  }

  /** Quiet commands leave the clipboard, its file, its flag and its jobs alone. */
  ghost predicate ClipSame(w: World, v: World) {
    && SameClip(w.svc, v.svc) && v.clipFile == w.clipFile
    && w.nextSession <= v.nextSession
    && (forall i :: i in v.tasks && v.tasks[i].PasteJob? ==> i in w.tasks && w.tasks[i] == v.tasks[i])
  }

  lemma CommitLeavesClip(s: Svc, doc: OpenDoc, edit: Edit, post: PostEdit, io: bool)
    requires s.open == Some(doc)
    ensures SameClip(s, CommitWith(s, doc, edit, post, io).svc)
  {
    hide CommitEdit, Lookup;
  }

  lemma FinishingLeavesClip(s: Svc, t: Task, plan: NormalizePlan, rendered: Samples, io: bool)
    requires t.EditJob? && RangeOk(t.src)
    ensures SameClip(s, FinishNormalize(s, t.src, plan, io).svc)
    ensures SameClip(s, FinishBake(s, t.src, BakeEdit(t.src, rendered, t.model), [], io).svc)
  {
    hide CommitWith, ReplaceRangeEdit, BakeEdit, Lookup;
    if s.open.Some? {
      var doc, post := s.open.value, PostKeepRange(t.src.range);
      if plan.Gain? {
        CommitLeavesClip(s.(normalizeBusy := false), doc, ReplaceRangeEdit(t.src.range, plan.samples, None), post, io);
      }
      CommitLeavesClip(s.(bakeRunning := false, normalizeBusy := false), doc, BakeEdit(t.src, rendered, t.model), post, io);
    }
  }

  lemma JobsLeaveClip(w: World, c: Cmd)
    requires c.StartNormalize? || c.EndNormalize? || c.StopNormalize? || c.StartBake? || c.EndBake? || c.StopBake?
    ensures ClipSame(w, Do(w, c))
  {
    hide Do, Learn, KeptBakes, FinishNormalize, FinishBake, BakeEdit, ValidateRange;
    DoEditJob(w, c);
    if (c.EndNormalize? || c.EndBake?) && c.task in w.tasks && w.tasks[c.task].EditJob? && RangeOk(w.tasks[c.task].src) {
      FinishingLeavesClip(w.svc, w.tasks[c.task], if c.EndNormalize? then c.plan else NoOp, if c.EndBake? then c.rendered else [], c.io);
    }
  }

  lemma EditsLeaveClip(w: World, c: Cmd)
    requires c.DoMarkers? || c.DoHistory? || c.DoRack? || c.StartRecordOp? || c.EndTakeOp? || c.CancelTake? || c.StoreChange? || c.TrimUndo?
    ensures ClipSame(w, Do(w, c))
  {
    hide Do, Learn, KeptBakes, PlainOut, DropOldest, RecordFloor;
    if c.TrimUndo? {
      DoDocument(w, c);
    } else {
      DoPlain(w, c);
      PlainOutLeavesClip(w.svc, c);
    }
  }

  lemma PlainOutLeavesClip(s: Svc, c: Cmd)
    requires c.DoMarkers? || c.DoHistory? || c.DoRack? || c.StartRecordOp? || c.EndTakeOp? || c.CancelTake? || c.StoreChange?
    ensures SameClip(s, PlainOut(s, c))
  {
    hide Undo, Redo, CommitInternal, CommitEdit, EditOut;
  }

  /** Saves leave the session alone too. */
  ghost predicate SaveLeaves(w: World, v: World) {
    && ClipSame(w, v)
    && SameSession(w.svc.open, v.svc.open)
    && (TasksBounded(w) ==> TasksBounded(v))
  }

  lemma SaveStartsLeaveClip(w: World, c: Cmd)
    requires c.StartSave? || c.StartSaveAs? || c.ForeignWrite?
    ensures SaveLeaves(w, Do(w, c))
  {
    hide Do, Learn, KeptBakes, StepSavePrepare, StepSaveWrite, StepSaveEnd;
    if c.ForeignWrite? {
      hide *;
      ForeignLeavesClip(w, c);
    } else {
      DoSave(w, c);
    }
  }

  lemma ForeignLeavesClip(w: World, c: Cmd)
    requires c.ForeignWrite?
    ensures SaveLeaves(w, Do(w, c))
  {
    hide Do, StepOpen, StepRecover, StepStartRecording, StepEndTake, StepTrimUndo, Close;
    DoDocument(w, c);
  }

  lemma SavePhasesLeaveClip(w: World, c: Cmd)
    requires c.SavePrepare? || c.SaveWrite? || c.SaveEnd?
    ensures SaveLeaves(w, Do(w, c))
  {
    hide Do, PrepareSave, WrittenImage, SavedSidecar, MarkSavedAt, Learn, KeptBakes, StepStartSave, StepStartSaveAs;
    DoSave(w, c);
  }

  lemma QuietStep(w: World, c: Cmd)
    requires ClipInv(w) && IsQuiet(c)
    ensures ClipInv(Do(w, c))
  {
    hide ClipInv, Do, SameClip, SameDoc, Learn;
    TaskIds(w);
    if IsEvolving(c) {
      EvolvingFrame(w, c);
      KeepsSession(w.svc.open, Do(w, c).svc.open);
      if c.StartNormalize? || c.EndNormalize? || c.StopNormalize? || c.StartBake? || c.EndBake? || c.StopBake? {
        JobsLeaveClip(w, c);
      } else {
        EditsLeaveClip(w, c);
      }
    } else if c.TrimUndo? {
      EditsLeaveClip(w, c);
      TrimKeepsSession(w, c.count);
    } else if c.SavePrepare? || c.SaveWrite? || c.SaveEnd? {
      SavePhasesLeaveClip(w, c);
    } else {
      SaveStartsLeaveClip(w, c);
    }
    QuietKeeps(w, Do(w, c));
  }

  lemma TrimKeepsSession(w: World, count: nat)
    requires TasksBounded(w)
    ensures TasksBounded(Do(w, TrimUndo(count))) && SameSession(w.svc.open, Do(w, TrimUndo(count)).svc.open)
  {
    hide Do, Learn, KeptBakes, DropOldest, RecordFloor;
    DoDocument(w, TrimUndo(count));
  }

  lemma TaskIds(w: World)
    requires ClipInv(w)
    ensures TasksBounded(w)
  {}

  lemma KeepsSession(a: Option<OpenDoc>, b: Option<OpenDoc>)
    requires Evolves(a, b)
    ensures SameSession(a, b)
  {}

  lemma StepKeepsClipInv(w: World, c: Cmd)
    requires ClipInv(w)
    ensures ClipInv(Do(w, c))
  {
    hide ClipInv, Moves, EditOut, StepStartPaste, StepEndPaste, StepStartRecording, StepEndTake, Open, Close, Detach, Agrees,
         BakesAgree, Do;
    if IsQuiet(c) {
      QuietStep(w, c);
    } else {
      DoDocument(w, c);
      DoPaste(w, c);
      if c.DoEdit? { DoPlain(w, c); }
      var v := Do(w, c);
      match c
      case DoEdit(e, io) => EditKeeps(w, e, io);
      case StartPaste(t) => StartPasteKeeps(w, t);
      case EndPaste(id, resampled, table, io) => EndPasteKeeps(w, id, resampled, table, io);
      case StopPaste(id) => StopPasteKeeps(w, id);
      case OpenFile(p, fm, sc, rate, format, rack, io) =>
        if CanOpen(w, p, fm, sc) {
          var doc := OpenedDoc(w, p, OpenedMarkers(w.files[p], fm, sc), rate, format);
          OpenKeepsClip(w, v, doc, rack, io);
        }
      case RecoverSession(h, l, b, p, rate, format, rack, io) =>
        if Agrees(h, l) && BakesAgree(h, b) && !Recording(w.svc) {
          var facts := if p.Some? && p.value in w.files then w.files[p.value].stamp else 0;
          var doc := OpenDoc(w.nextSession, rate, h, false, p, format, true, SidecarState(0, h.current.markers, facts), []);
          OpenKeepsClip(w, v, doc, rack, io);
        }
      case CloseDoc(io) => CloseKeepsClip(w, io);
      case StartRecording(rate, format, replace, creates, clipIo, io) =>
        StartRecordingKeepsClip(w, rate, format, replace, creates, clipIo, io);
      case EndTake(take, io, creates, clipIo) => EndTakeKeepsClip(w, take, io, creates, clipIo);
    }
  }

  lemma StopPasteKeeps(w: World, id: nat)
    requires ClipInv(w)
    ensures ClipInv(Do(w, StopPaste(id)))
  {
    hide Learn, KeptBakes, Do, StepStartPaste, StepEndPaste;
    DoPaste(w, StopPaste(id));
    var v := Do(w, StopPaste(id));
    if HasPasteJob(w, id) {
      assert forall i :: i in v.tasks ==> !v.tasks[i].PasteJob?;
    }
  }

  lemma {:induction false} RunKeepsClipInv(w: World, cs: seq<Cmd>)
    requires ClipInv(w)
    ensures ClipInv(Run(w, cs))
    decreases |cs|
  {
    hide ClipInv, Do;
    if cs != [] {
      StepKeepsClipInv(w, cs[0]);
      RunKeepsClipInv(Do(w, cs[0]), cs[1..]);
    }
  }

  lemma StartClips()
    ensures ClipInv(START)
  {}

  // --- What follows for every run -----------------------------------------------------------------

  /** The pieces a direct paste would splice in, if it gets that far. */
  function Ready(s: Svc): Option<Pieces> {
    if s.open.Some? && Spliceable(s.clipboard, s.open.value.session).Ok?
    then Some(Spliceable(s.clipboard, s.open.value.session).value)
    else None
  }

  /**
   * A bound clip is always the open session's own. A paste never finds its pieces unreadable, and
   * what it inserts is what was cut, copied or imported.
   */
  lemma PiecesStayHome(cs: seq<Cmd>, target: Target, io: bool)
    ensures var s := Run(START, cs).svc;
            var out := Paste(s, target, io);
            && (s.clipboard.Some? && s.clipboard.value.Bound? ==>
                  s.open.Some? && s.clipboard.value.pieces.owner == s.open.value.session)
            && out.reply != Err(BadPieces)
            && (Ready(s).Some? ==>
                  && (out.reply.Ok? <==> Reachable(s, target) && (Ready(s).value.audio != [] || target.Over?) && io)
                  && (out.reply.Ok? ==>
                        && out.svc.open.Some?
                        && SoundOf(out.svc) == Pasted(SoundOf(s), Ready(s).value.audio, target)))
  {
    hide Run;
    StartClips();
    RunKeepsClipInv(START, cs);
    PasteReadsItsOwn(Run(START, cs).svc, target, io);
  }

  lemma PasteReadsItsOwn(s: Svc, target: Target, io: bool)
    requires BelongsTo(s.clipboard, s.open) && Sound(s.clipboard, s.open)
    ensures var out := Paste(s, target, io);
            && out.reply != Err(BadPieces)
            && (Ready(s).Some? ==>
                  && (out.reply.Ok? <==> Reachable(s, target) && (Ready(s).value.audio != [] || target.Over?) && io)
                  && (out.reply.Ok? ==>
                        && out.svc.open.Some?
                        && SoundOf(out.svc) == Pasted(SoundOf(s), Ready(s).value.audio, target)))
  {
    hide Lookup, PasteEdit, Apply;
    if Ready(s).Some? {
      assert UsableClip(s) == Some(Ready(s).value.audio);
      PasteDoes(s, target, io);
    }
  }

  /** A running paste job's clip is still on the clipboard and in the clipboard file, whole. */
  lemma PasteJobFindsItsClip(cs: seq<Cmd>, id: nat)
    requires HasPasteJob(Run(START, cs), id)
    ensures var w := Run(START, cs);
            var clip := w.tasks[id].paste.clip;
            && w.clipFile == Some(clip.audio)
            && Clip(w.svc.clipboard) == Some((clip.audio, clip.rateHz))
  {
    hide Run;
    StartClips();
    RunKeepsClipInv(START, cs);
  }

  /** After a paste job the clipboard file is gone exactly if the clipboard went over to the document's own pieces. */
  lemma FileGoesWithTheClip(w: World, id: nat, resampled: Samples, table: seq<Piece>, io: bool)
    requires ClipInv(w) && HasPasteJob(w, id)
    ensures var v := StepEndPaste(w, id, resampled, table, io);
            && v.svc.clipboard.Some?
            && (if v.svc.clipboard.value.Bound? then v.clipFile == None else v.clipFile == w.clipFile)
  {
    hide Lookup, Apply;
  }

  /** The commands that put another document in the open one's place, and whether their file write works. */
  predicate Detaches(c: Cmd) {
    c.OpenFile? || c.RecoverSession? || c.CloseDoc? || c.StartRecording? || c.EndTake?
  }

  predicate ClipWriteWorks(c: Cmd) {
    match c
    case OpenFile(_, _, _, _, _, _, io) => io
    case RecoverSession(_, _, _, _, _, _, _, io) => io
    case CloseDoc(io) => io
    case StartRecording(_, _, _, _, clipIo, _) => clipIo
    case EndTake(_, _, _, clipIo) => clipIo
    case _ => true
  }

  function Loaded(s: Svc, rack: Option<Rack>): Svc {
    if rack.Some? then s.(rack := rack.value) else s
  }

  /** `after` pastes what `before` did; if the write failed, at worst nothing. */
  predicate ClipSurvives(before: Option<Clipboard>, after: Option<Clipboard>, works: bool) {
    Clip(after) == Clip(before) || (!works && after == None)
  }

  lemma OpeningSurvives(s: Svc, doc: OpenDoc, rack: Option<Rack>, io: bool)
    requires BelongsTo(s.clipboard, s.open) && Sound(s.clipboard, s.open)
    ensures ClipSurvives(s.clipboard, Open(s, doc, rack, io).svc.clipboard, io)
  {
    DetachKeepsClip(Loaded(s, rack), io);
  }

  lemma RecordingSurvives(s: Svc, rate: nat, format: Format, replace: bool, created: Option<nat>, clipIo: bool, io: bool)
    requires BelongsTo(s.clipboard, s.open) && Sound(s.clipboard, s.open)
    ensures ClipSurvives(s.clipboard, BeginRecording(s, rate, format, replace, created, clipIo, io).svc.clipboard, clipIo)
  {
    hide Evolves, BeginRecording, Detach;
    DetachKeepsClip(s, clipIo);
    RecordingShape(s, rate, format, replace, created, clipIo, io);
  }

  lemma TakeSurvives(s: Svc, take: Option<Edit>, io: bool, created: Option<nat>, clipIo: bool)
    requires BelongsTo(s.clipboard, s.open) && Sound(s.clipboard, s.open)
    ensures ClipSurvives(s.clipboard, CommitTake(s, take, io, created, clipIo).svc.clipboard, clipIo)
  {
    hide Evolves, CommitTake, Detach;
    DetachKeepsClip(s, clipIo);
    TakeEvolves(s, take, io, created, clipIo);
  }

  lemma OpeningStepSurvives(w: World, c: Cmd)
    requires BelongsTo(w.svc.clipboard, w.svc.open) && Sound(w.svc.clipboard, w.svc.open) && (c.OpenFile? || c.RecoverSession?)
    ensures ClipSurvives(w.svc.clipboard, Do(w, c).svc.clipboard, ClipWriteWorks(c))
  {
    hide Agrees, BakesAgree, Detach, OpenedMarkers, ClipSurvives, Learn, KeptBakes, Open, Do;
    DoDocument(w, c);
    SameSurvives(w.svc.clipboard, ClipWriteWorks(c));
    match c {
      case OpenFile(p, fm, sc, rate, format, rack, io) =>
        if CanOpen(w, p, fm, sc) {
          OpeningSurvives(w.svc, OpenedDoc(w, p, OpenedMarkers(w.files[p], fm, sc), rate, format), rack, io);
        }
      case RecoverSession(h, l, b, p, rate, format, rack, io) =>
        if Agrees(h, l) && BakesAgree(h, b) && !Recording(w.svc) {
          var facts := if p.Some? && p.value in w.files then w.files[p.value].stamp else 0;
          OpeningSurvives(w.svc, OpenDoc(w.nextSession, rate, h, false, p, format, true, SidecarState(0, h.current.markers, facts), []), rack, io);
        }
    }
  }

  lemma LeavingStepSurvives(w: World, c: Cmd)
    requires BelongsTo(w.svc.clipboard, w.svc.open) && Sound(w.svc.clipboard, w.svc.open) && (c.CloseDoc? || c.StartRecording? || c.EndTake?)
    ensures ClipSurvives(w.svc.clipboard, Do(w, c).svc.clipboard, ClipWriteWorks(c))
  {
    hide Detach, ClipSurvives, Learn, KeptBakes, Close, BeginRecording, CommitTake, Do;
    DoDocument(w, c);
    match c {
      case CloseDoc(io) => ClosingSurvives(w.svc, io);
      case StartRecording(rate, format, replace, creates, clipIo, io) =>
        RecordingSurvives(w.svc, rate, format, replace, if creates then Some(w.nextSession) else None, clipIo, io);
      case EndTake(take, io, creates, clipIo) =>
        TakeSurvives(w.svc, AsEdit(take), io, if creates then Some(w.nextSession) else None, clipIo);
    }
  }

  /** Changing documents keeps what the clipboard would paste; a failed write can only empty it. */
  lemma ClipOutlivesItsDocument(cs: seq<Cmd>, c: Cmd)
    requires Detaches(c)
    ensures var w := Run(START, cs);
            ClipSurvives(w.svc.clipboard, Do(w, c).svc.clipboard, ClipWriteWorks(c))
  {
    hide Run, ClipSurvives, Do, ClipWriteWorks, BelongsTo;
    StartClips();
    RunKeepsClipInv(START, cs);
    if c.OpenFile? || c.RecoverSession? {
      OpeningStepSurvives(Run(START, cs), c);
    } else {
      LeavingStepSurvives(Run(START, cs), c);
    }
  }

  lemma SameSurvives(c: Option<Clipboard>, works: bool)
    ensures ClipSurvives(c, c, works)
  {}

  lemma ClosingSurvives(s: Svc, io: bool)
    requires BelongsTo(s.clipboard, s.open) && Sound(s.clipboard, s.open)
    ensures ClipSurvives(s.clipboard, Close(s, io).svc.clipboard, io)
  {}

  // --- The two places that let go of the document too early -----------------------------------------

  /**
   * `finish_paste_job` rebinds the clipboard after dropping the document lock. With anything in
   * between, the rebound clipboard belongs to the open document exactly if the job's session is
   * still the open one, or the rates differ and nothing is rebound.
   */
  lemma LateRebind(s: Svc, src: PasteSource, written: Pieces)
    requires BelongsTo(s.clipboard, s.open)
    ensures BelongsTo(PasteRebind(s, src, written).clipboard, s.open) <==>
            src.clip.rateHz != src.rateHz || (s.open.Some? && s.open.value.session == written.owner)
  {}

  /** `finish_paste_job` with a close, and the next document's opening, in that gap. */
  function ReboundAfterClose(s: Svc, src: PasteSource, written: Pieces, next: OpenDoc): Svc {
    PasteRebind(Close(s, true).svc, src, written).(pasteBusy := false, open := Some(next))
  }

  /**
   * Then the next document holds pieces of the closed one, and nothing says so: its paste is accepted
   * exactly if every piece names a stretch its own store has. It inserts that stretch, and this is
   * the clip exactly if the two stores agree on every piece.
   */
  lemma CloseBeforeRebind(s: Svc, src: PasteSource, written: Pieces, next: OpenDoc, target: Target, io: bool)
    requires s.open.Some? && s.open.value.session == src.session && !s.open.value.recording
    requires Lookup(written.table, s.open.value.store) == Some(written.audio)
    requires src.clip.rateHz == src.rateHz && !s.normalizeBusy && !next.recording
    ensures var reopened := ReboundAfterClose(s, src, written, next);
            var out := Paste(reopened, target, io);
            && (out.reply.Ok? <==>
                  && Reachable(reopened, target) && (Length(written.table) > 0 || target.Over?) && io
                  && forall i :: 0 <= i < |written.table| ==> LiesIn(written.table[i], next.store))
            && (out.reply.Ok? ==>
                  var inserted := Lookup(written.table, next.store);
                  && inserted.Some? && out.svc.open.Some?
                  && SoundOf(out.svc) == Pasted(SoundOf(reopened), inserted.value, target)
                  && (inserted.value == written.audio <==>
                        forall i :: 0 <= i < |written.table| ==>
                          Read(written.table[i], next.store) == Read(written.table[i], s.open.value.store)))
  {
    hide Lookup, Read, LiesIn, Paste, Close;
    var reopened := ReboundAfterClose(s, src, written, next);
    assert !reopened.normalizeBusy by { CloseKeepsFlags(s); }
    AcceptedExactly(written.table, next.store);
    SameExactly(written.table, s.open.value.store, next.store);
    assert UsableClip(reopened) == Lookup(written.table, next.store);
    PasteDoes(reopened, target, io);
  }

  lemma CloseKeepsFlags(s: Svc)
    ensures Close(s, true).svc.normalizeBusy == s.normalizeBusy
  {}

  /** `close` with the next document's opening, and a copy from it, before its clipboard is streamed out. */
  function CopiedBeforeStreaming(s: Svc, next: OpenDoc, start: nat, end: nat, table: seq<Piece>): Svc
    requires s.open.Some?
  {
    var inPlace := Open(s.(open := None), next, None, true).svc;
    MaterializeClipboard(Copy(inPlace, start, end, table).svc, s.open.value.store, true)
  }

  /**
   * The new pieces are then streamed through the closed document's store. The clip survives exactly
   * if both stores agree on every piece (so silence always does); it is lost exactly if the closed
   * store lacks one; otherwise it becomes whatever the closed store holds there.
   */
  lemma LateMaterialize(s: Svc, next: OpenDoc, start: nat, end: nat, table: seq<Piece>)
    requires s.open.Some? && Editable(s) && !next.recording
    requires start < end <= next.Len() && Lookup(table, next.store) == Some(next.hist.current.audio[start..end])
    ensures var late := CopiedBeforeStreaming(s, next, start, end, table).clipboard;
            var closed := s.open.value.store;
            && (Clip(late) == Some((next.hist.current.audio[start..end], next.rateHz)) <==>
                  forall i :: 0 <= i < |table| ==> Read(table[i], closed) == Read(table[i], next.store))
            && ((forall i :: 0 <= i < |table| ==> table[i].Silent?) ==>
                  Clip(late) == Some((next.hist.current.audio[start..end], next.rateHz)))
            && (late == None <==> exists i :: 0 <= i < |table| && !LiesIn(table[i], closed))
            && (late != None ==>
                  Lookup(table, closed).Some? && Clip(late) == Some((Lookup(table, closed).value, next.rateHz)))
  {
    hide Lookup, Read, LiesIn;
    var inPlace := s.(open := Some(next));
    assert Open(s.(open := None), next, None, true).svc == inPlace;
    CopyDoes(inPlace, start, end, table);
    AcceptedExactly(table, s.open.value.store);
    SameExactly(table, next.store, s.open.value.store);
    if forall i :: 0 <= i < |table| ==> table[i].Silent? {
      SilenceIsEverywhere(table, next.store, s.open.value.store);
    }
  }

  /** One chunk each is enough: the pasted sample is the open document's own first one, not the clip's. */
  lemma WrongAudioLands(s: Svc, src: PasteSource, next: OpenDoc)
    requires s.open.Some? && s.open.value.session == src.session && !s.open.value.recording
    requires src.clip.rateHz == src.rateHz && !s.normalizeBusy && !next.recording
    requires s.open.value.store == [Some([1.0])] && next.store == [Some([2.0])] && next.hist.current.audio == [2.0]
    ensures var out := Paste(ReboundAfterClose(s, src, Pieces(src.session, [Chunk(0, 0, 1)], [1.0]), next), Cursor(1), true);
            out.reply.Ok? && out.svc.open.Some? && SoundOf(out.svc) == [2.0, 2.0]
  {
    var table := [Chunk(0, 0, 1)];
    assert table[1..] == [];
    assert [1.0][0..1] + [] == [1.0] && [2.0][0..1] + [] == [2.0];
    assert Lookup(table[1..], s.open.value.store) == Lookup(table[1..], next.store) == Some([]);
    assert Lookup(table, s.open.value.store) == Some([1.0]) && Lookup(table, next.store) == Some([2.0]);
    AcceptedExactly(table, next.store);
    CloseBeforeRebind(s, src, Pieces(src.session, table, [1.0]), next, Cursor(1), true);
  }
}
