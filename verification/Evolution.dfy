/** How each command may change the open document: the shared part of every safety proof. */
module Evolution {
  import opened Wrappers
  import opened Audio
  import opened Racks
  import opened Stores
  import opened Document
  import opened Histories
  import opened Ledgers
  import opened EditOps
  import opened Markers
  import opened Service
  import opened World

  /** One commit, undo or redo. */
  ghost predicate Moves(h: History, k: History) {
    || (exists e: Edit :: Apply(h, e).Ok? && Apply(h, e).value.history == k)
    || (Undo(h).Some? && Undo(h).value.history == k)
    || (Redo(h).Some? && Redo(h).value.history == k)
  }

  ghost predicate HistoryEvolves(h: History, k: History) {
    k == h || Moves(h, k)
  }

  /** The same document, its history moved at most once and nothing saved. */
  ghost predicate SameDoc(a: OpenDoc, b: OpenDoc) {
    && b == a.(hist := b.hist, recording := b.recording, store := b.store)
    && HistoryEvolves(a.hist, b.hist)
  }

  ghost predicate Evolves(a: Option<OpenDoc>, b: Option<OpenDoc>) {
    a.Some? == b.Some? && (a.Some? ==> SameDoc(a.value, b.value))
  }

  predicate SameStore(a: Option<OpenDoc>, b: Option<OpenDoc>) {
    a.Some? && b.Some? ==> b.value.store == a.value.store
  }

  lemma CommitMoves(doc: OpenDoc, edit: Edit, io: bool)
    requires CommitInternal(doc, edit, io).Ok?
    ensures Moves(doc.hist, CommitInternal(doc, edit, io).value.history)
  {
    assert Apply(doc.hist, edit).Ok?;
  }

  lemma CommitSameDoc(doc: OpenDoc, edit: Edit, io: bool, recording: bool)
    requires CommitInternal(doc, edit, io).Ok?
    ensures SameDoc(doc, doc.(hist := CommitInternal(doc, edit, io).value.history, recording := recording))
  {
    CommitMoves(doc, edit, io);
  }

  lemma CommitWithEvolves(s: Svc, doc: OpenDoc, edit: Edit, post: PostEdit, io: bool)
    requires s.open == Some(doc)
    ensures var out := CommitWith(s, doc, edit, post, io).svc;
            Evolves(s.open, out.open) && out == s.(open := out.open)
  {
    if CommitEdit(doc, edit, io).Ok? {
      CommitMoves(doc, edit, io);
    }
  }

  lemma SelectedFits(doc: OpenDoc, start: nat, end: nat)
    ensures SelectedRange(doc, start, end).Ok? ==>
              var r := SelectedRange(doc, start, end).value; r.start < r.end <= doc.Len()
  {}

  lemma ResolvedFits(doc: OpenDoc, t: Target)
    ensures ResolveTarget(doc, t).Ok? && ResolveTarget(doc, t).value.Over? ==>
              ResolveTarget(doc, t).value.range.start <= ResolveTarget(doc, t).value.range.end
  {}

  /** The edits over a selected range. */
  lemma RangeEditEvolves(s: Svc, doc: OpenDoc, e: EditCmd, start: nat, end: nat, io: bool)
    requires EditGate(s) == Ok(doc) && s.open == Some(doc)
    requires (e.Cutting? && e.start == start && e.end == end) || e == Deleting(start, end) || e == Trimming(start, end) || e == Silencing(start, end)
    ensures var out := EditOut(s, e, io).svc;
            Evolves(s.open, out.open) && out == s.(open := out.open, clipboard := out.clipboard)
  {
    hide CommitWith, Moves, SelectedRange, TrimEdit, SilenceEdit, DeleteEdit, Evolves, ClipOf, Paste, Copy, InsertSilence, EditGate;
    NothingEvolves(s.open);
    SelectedFits(doc, start, end);
    if SelectedRange(doc, start, end).Ok? {
      var r := SelectedRange(doc, start, end).value;
      CommitWithEvolves(s, doc, DeleteEdit(r), PostCutOrDelete(r), io);
      CommitWithEvolves(s, doc, SilenceEdit(r), PostKeepRange(r), io);
      if TrimEdit(r, doc.Len()).Some? {
        CommitWithEvolves(s, doc, TrimEdit(r, doc.Len()).value, PostTrim(), io);
      }
    }
  }

  /** The edits at a cursor or over a range. */
  lemma TargetEditEvolves(s: Svc, doc: OpenDoc, e: EditCmd, t: Target, n: nat, io: bool)
    requires EditGate(s) == Ok(doc) && s.open == Some(doc)
    requires e == Pasting(t) || e == InsertingSilence(t, n)
    ensures var out := EditOut(s, e, io).svc;
            Evolves(s.open, out.open) && out == s.(open := out.open, clipboard := out.clipboard)
  {
    hide CommitWith, Moves, ResolveTarget, PasteEdit, InsertSilenceEdit, Evolves, Cut, Copy, Delete, Trim, SilenceRange, EditGate;
    NothingEvolves(s.open);
    ResolvedFits(doc, t);
    if ResolveTarget(doc, t).Ok? {
      var target := ResolveTarget(doc, t).value;
      CommitWithEvolves(s, doc, InsertSilenceEdit(target, n), PostPaste(target, n), io);
      if Spliceable(s.clipboard, doc.session).Ok? {
        var read := Lookup(Spliceable(s.clipboard, doc.session).value.table, doc.store);
        if read.Some? {
          CommitWithEvolves(s, doc, PasteEdit(read.value, target), PostPaste(target, |read.value|), io);
        }
      }
    }
  }

  lemma EditEvolves(s: Svc, e: EditCmd, io: bool)
    ensures var out := EditOut(s, e, io).svc;
            Evolves(s.open, out.open) && out == s.(open := out.open, clipboard := out.clipboard)
  {
    NothingEvolves(s.open);
    if EditGate(s).Ok? {
      var doc := EditGate(s).value;
      match e
      case Cutting(a, b, _) => hide *; RangeEditEvolves(s, doc, e, a, b, io);
      case Copying(_, _, _) => hide Evolves, SelectedRange, ClipOf, LiesUnder, ReadsAlike, Lookup, Cut, Paste, Delete, Trim, SilenceRange, InsertSilence;
      case Pasting(t) => hide *; TargetEditEvolves(s, doc, e, t, 0, io);
      case Deleting(a, b) => hide *; RangeEditEvolves(s, doc, e, a, b, io);
      case Trimming(a, b) => hide *; RangeEditEvolves(s, doc, e, a, b, io);
      case Silencing(a, b) => hide *; RangeEditEvolves(s, doc, e, a, b, io);
      case InsertingSilence(t, n) => hide *; TargetEditEvolves(s, doc, e, t, n, io);
    } else {
      hide Evolves, CommitWith, SelectedRange, ResolveTarget;
    }
  }

  lemma NothingEvolves(a: Option<OpenDoc>)
    ensures Evolves(a, a)
  {}

  lemma MarkersEvolve(s: Svc, ops: seq<MarkerOp>, io: bool)
    ensures var out := EditMarkers(s, ops, io).svc;
            Evolves(s.open, out.open) && out == s.(open := out.open)
  {
    hide Moves, CommitInternal, HistoryEvolves;
    NothingEvolves(s.open);
    if s.open.Some? {
      var doc, edit := s.open.value, Edit([], ops, None);
      if CommitInternal(doc, edit, io).Ok? {
        CommitSameDoc(doc, edit, io, doc.recording);
      }
    }
  }

  lemma HistoryCommandEvolves(s: Svc, undo: bool, io: bool)
    ensures var out := UndoOrRedo(s, undo, io).svc;
            Evolves(s.open, out.open) && out == s.(open := out.open, rack := out.rack)
  {
    hide Moves, Undo, Redo;
    NothingEvolves(s.open);
    if s.open.Some? {
      UndoRedoMoves(s.open.value.hist);
    }
  }

  lemma UndoRedoMoves(h: History)
    ensures Undo(h).Some? ==> Moves(h, Undo(h).value.history)
    ensures Redo(h).Some? ==> Moves(h, Redo(h).value.history)
  {}

  lemma FinishNormalizeEvolves(s: Svc, src: JobSource, plan: NormalizePlan, io: bool)
    requires RangeOk(src)
    ensures var out := FinishNormalize(s, src, plan, io).svc;
            Evolves(s.open, out.open) && out == s.(open := out.open, normalizeBusy := false)
  {
    if s.open.Some? && plan.Gain? {
      CommitWithEvolves(s.(normalizeBusy := false), s.open.value, ReplaceRangeEdit(src.range, plan.samples, None),
                        PostKeepRange(src.range), io);
    }
  }

  lemma FinishBakeEvolves(s: Svc, src: JobSource, edit: Edit, io: bool)
    ensures var out := FinishBake(s, src, edit, [], io).svc;
            Evolves(s.open, out.open) &&
            out == s.(open := out.open, normalizeBusy := false, bakeRunning := false, rack := out.rack)
  {
    if s.open.Some? {
      CommitWithEvolves(s.(bakeRunning := false, normalizeBusy := false), s.open.value, edit, PostKeepRange(src.range), io);
    }
  }

  lemma FinishPasteEvolves(s: Svc, src: PasteSource, written: Pieces, io: bool)
    requires TargetOk(src)
    ensures var out := FinishPaste(s, src, written, io).svc;
            Evolves(s.open, out.open) &&
            out == s.(open := out.open, pasteBusy := false, clipboard := out.clipboard)
  {
    hide PasteCommit, Evolves;
    PasteCommitEvolves(s, src, written, io);
  }

  lemma PasteCommitEvolves(s: Svc, src: PasteSource, written: Pieces, io: bool)
    requires TargetOk(src)
    ensures var out := PasteCommit(s, src, written, io).svc;
            Evolves(s.open, out.open) && out == s.(open := out.open)
  {
    hide CommitWith, PasteEdit, Moves;
    if s.open.Some? {
      var read := Lookup(written.table, s.open.value.store);
      if read.Some? {
        CommitWithEvolves(s, s.open.value, PasteEdit(read.value, src.target), PostPaste(src.target, |read.value|), io);
      }
    }
  }

  lemma StoppedEvolves(doc: OpenDoc, h: History)
    requires h == doc.hist || Moves(doc.hist, h)
    ensures Evolves(Some(doc), Some(doc.(recording := false, hist := h)))
  {
    hide Moves;
  }

  lemma TakeOpEvolves(s: Svc, edit: Option<Edit>, io: bool)
    ensures var out := CommitTakeOp(s, edit, io).svc;
            Evolves(s.open, out.open) && out == s.(open := out.open)
  {
    hide Moves, CommitInternal, Evolves;
    NothingEvolves(s.open);
    if s.open.Some? {
      var stopped := s.open.value.(recording := false);
      StoppedEvolves(s.open.value, stopped.hist);
      if edit.Some? && CommitInternal(stopped, edit.value, io).Ok? {
        CommitMoves(stopped, edit.value, io);
        StoppedEvolves(s.open.value, CommitInternal(stopped, edit.value, io).value.history);
      }
    }
  }

  /** A take either evolves the document or is left behind with its session for a fresh one. */
  lemma TakeEvolves(s: Svc, edit: Option<Edit>, io: bool, created: Option<nat>, clipIo: bool)
    ensures var out := CommitTake(s, edit, io, created, clipIo).svc;
            (Evolves(s.open, out.open) && SameStore(s.open, out.open) && out == s.(open := out.open)) ||
            (s.open.Some? && created.Some? &&
             out == Install(s, NewRecording(created.value, s.open.value.rateHz, s.open.value.format), clipIo))
  {
    hide Moves, CommitInternal, Install, NewRecording;
    NothingEvolves(s.open);
    if s.open.Some? {
      var doc := s.open.value;
      if doc.recording && edit.Some? && CommitInternal(doc, edit.value, io).Ok? {
        CommitSameDoc(doc, edit.value, io, false);
        assert CommitTake(s, edit, io, created, clipIo).svc ==
               s.(open := Some(doc.(recording := false, hist := CommitInternal(doc, edit.value, io).value.history)));
      }
    }
  }

  /** Starting a recording reuses the document or puts a fresh untitled one in its place. */
  lemma RecordingShape(
    s: Svc, rate: nat, format: Format, replace: bool, created: Option<nat>, clipIo: bool, io: bool)
    ensures var out := BeginRecording(s, rate, format, replace, created, clipIo, io).svc;
            (Evolves(s.open, out.open) && SameStore(s.open, out.open) && out == s.(open := out.open)) ||
            (created.Some? && out.open.Some? &&
             out == Install(s, NewRecording(created.value, rate, format), clipIo).(open := out.open) &&
             out.open.value == NewRecording(created.value, rate, format).(recording := out.open.value.recording))
  {
    hide Moves, Detach, Evolves, NewRecording;
    NothingEvolves(s.open);
    RecordingEvolves(s);
    if !Recording(s) && !Reusable(s, rate) && created.Some? {
      InstallOpens(s, NewRecording(created.value, rate, format), clipIo);
    }
  }

  /** Only the recording flag of an open document goes up. */
  lemma RecordingEvolves(s: Svc)
    ensures s.open.Some? ==> Evolves(s.open, Some(s.open.value.(recording := true)))
  {}

  lemma InstallOpens(s: Svc, doc: OpenDoc, io: bool)
    ensures Install(s, doc, io).open == Some(doc)
  {}

  /** The ledger follows every evolution without changing what an older number means. */
  lemma MovesAgree(h: History, k: History, l: Ledger)
    requires Agrees(h, l) && Moves(h, k)
    ensures Agrees(k, Record(l, k)) && Extends(l, Record(l, k)) && k.savedNumber == h.savedNumber
    ensures k.current.rev == h.nextRev && k.current != h.current
    ensures h.nextNumber <= k.nextNumber
  {
    assert Known(Below(h, |h.undo|), l);
    if exists e: Edit :: Apply(h, e).Ok? && Apply(h, e).value.history == k {
      var e: Edit :| Apply(h, e).Ok? && Apply(h, e).value.history == k;
      ApplyAgrees(h, l, e);
    } else if Undo(h).Some? && Undo(h).value.history == k {
      UndoAgrees(h, l);
    } else {
      RedoAgrees(h, l);
    }
  }

  lemma EvolvesAgrees(a: Option<OpenDoc>, b: Option<OpenDoc>, l: Ledger)
    requires Evolves(a, b) && (a.Some? ==> Agrees(a.value.hist, l))
    ensures b.Some? ==> Agrees(b.value.hist, Learn(l, a, b)) && b.value.hist.savedNumber == a.value.hist.savedNumber
    ensures Extends(l, Learn(l, a, b))
  {
    if a.Some? && a.value.hist != b.value.hist {
      MovesAgree(a.value.hist, b.value.hist, l);
    }
  }

  // --- What a command leaves alone --------------------------------------------------------------

  ghost predicate TasksBounded(w: World) {
    forall i :: i in w.tasks ==> i < w.nextTask
  }

  ghost predicate SameSaveJobs(w: World, v: World) {
    && (forall i :: i in v.tasks && v.tasks[i].SaveJob? ==> i in w.tasks && w.tasks[i] == v.tasks[i])
    && (forall i :: i in w.tasks && w.tasks[i].SaveJob? ==> i in v.tasks && w.tasks[i] == v.tasks[i])
  }

  /** Files, save jobs and their flag are untouched. */
  ghost predicate SameSaves(w: World, v: World) {
    && w.nextTask <= v.nextTask
    && TasksBounded(v)
    && SameSaveJobs(w, v)
    && v.svc.saveRunning == w.svc.saveRunning
    && v.files == w.files
    && w.nextSession <= v.nextSession
  }

  /** The open document evolved, the ledger followed it, and no save was touched. */
  ghost predicate Evolving(w: World, v: World) {
    && SameSaves(w, v)
    && Evolves(w.svc.open, v.svc.open)
    && v.ledger == Learn(w.ledger, w.svc.open, v.svc.open)
  }

  lemma SvcEvolving(w: World, s: Svc)
    requires TasksBounded(w) && Evolves(w.svc.open, s.open) && s.saveRunning == w.svc.saveRunning
    ensures Evolving(w, WithSvc(w, s)) && Evolving(w, WithDetached(w, s))
  {}

  /** Ending a take evolves the document, or puts a fresh untitled one in its place. */
  lemma EndTakeShape(w: World, take: Option<TakeEdit>, io: bool, creates: bool, clipIo: bool)
    requires TasksBounded(w)
    ensures var v := StepEndTake(w, take, io, creates, clipIo);
            && v.tasks == w.tasks && v.nextTask == w.nextTask && v.nextSession == w.nextSession + 1
            && SameSaves(w, v) && v.ledger == Learn(w.ledger, w.svc.open, v.svc.open)
            && (Evolving(w, v) ||
                (w.svc.open.Some? &&
                 v.svc.open == Some(NewRecording(w.nextSession, w.svc.open.value.rateHz, w.svc.open.value.format))))
  {
    hide Moves, CommitTake, Learn, KeptBakes, ClipFileAfter, SameDoc, NewRecording, AsEdit;
    TakeEvolves(w.svc, AsEdit(take), io, if creates then Some(w.nextSession) else None, clipIo);
  }

  lemma EditFrame(w: World, e: EditCmd, io: bool)
    requires TasksBounded(w)
    ensures Evolving(w, WithSvc(w, EditOut(w.svc, e, io).svc))
  {
    EditEvolves(w.svc, e, io);
    SvcEvolving(w, EditOut(w.svc, e, io).svc);
  }

  lemma MarkersFrame(w: World, ops: seq<MarkerOp>, io: bool)
    requires TasksBounded(w)
    ensures Evolving(w, WithSvc(w, EditMarkers(w.svc, ops, io).svc))
  {
    MarkersEvolve(w.svc, ops, io);
    SvcEvolving(w, EditMarkers(w.svc, ops, io).svc);
  }

  lemma HistoryFrame(w: World, undo: bool, io: bool)
    requires TasksBounded(w)
    ensures Evolving(w, WithSvc(w, UndoOrRedo(w.svc, undo, io).svc))
  {
    HistoryCommandEvolves(w.svc, undo, io);
    SvcEvolving(w, UndoOrRedo(w.svc, undo, io).svc);
  }

  lemma BeginsQuietly(s: Svc, start: nat, end: nat, target: Target)
    ensures BeginNormalize(s, start, end).svc.open == s.open && BeginBake(s, start, end).svc.open == s.open
    ensures BeginPaste(s, target).svc.open == s.open
    ensures BeginNormalize(s, start, end).svc.saveRunning == s.saveRunning
    ensures BeginBake(s, start, end).svc.saveRunning == s.saveRunning
    ensures BeginPaste(s, target).svc.saveRunning == s.saveRunning
  {}

  /** The service changed around the same document, and a job may have been added. */
  lemma AddFrame(w: World, s: Svc)
    requires TasksBounded(w) && s.open == w.svc.open && s.saveRunning == w.svc.saveRunning
    ensures Evolving(w, WithSvc(w, s)) && forall t: Task :: !t.SaveJob? ==> Evolving(w, AddTask(WithSvc(w, s), t))
  {
    hide Moves;
    NothingEvolves(s.open);
    SvcEvolving(w, s);
  }

  lemma ReplacedFrame(w: World, s: Svc, t: Svc)
    requires s.open == w.svc.open && t.open == s.open
    ensures WithSvc(WithSvc(w, s), t) == WithSvc(w, t) && WithSvc(w, s).svc == s
  {}

  lemma StartNormalizeFrame(w: World, kind: JobKind, start: nat, end: nat, spawns: bool)
    requires TasksBounded(w)
    ensures Evolving(w, StepStartNormalize(w, kind, start, end, spawns))
  {
    hide Evolving, BeginNormalize, WithSvc, AddTask;
    NothingFrame(w);
    BeginsQuietly(w.svc, start, end, Cursor(0));
    AddFrame(w, BeginNormalize(w.svc, start, end).svc);
  }

  lemma EndNormalizeFrame(w: World, id: nat, plan: NormalizePlan, io: bool)
    requires TasksBounded(w)
    ensures Evolving(w, StepEndNormalize(w, id, plan, io))
  {
    if HasEditJob(w, id, false) {
      var src := w.tasks[id].src;
      FinishNormalizeEvolves(w.svc, src, plan, io);
      SvcEvolving(w, FinishNormalize(w.svc, src, plan, io).svc);
    }
  }

  lemma StartBakeFrame(w: World, model: Rack, start: nat, end: nat, spawns: bool)
    requires TasksBounded(w)
    ensures Evolving(w, StepStartBake(w, model, start, end, spawns))
  {
    hide Evolving, BeginBake, WithSvc, AddTask;
    NothingFrame(w);
    BeginsQuietly(w.svc, start, end, Cursor(0));
    var begun := BeginBake(w.svc, start, end).svc;
    AddFrame(w, begun);
    AddFrame(w, AbandonBake(begun));
    ReplacedFrame(w, begun, AbandonBake(begun));
  }

  lemma EndBakeFrame(w: World, id: nat, rendered: Samples, io: bool)
    requires TasksBounded(w)
    ensures Evolving(w, StepEndBake(w, id, rendered, io))
  {
    if HasEditJob(w, id, true) && Fills(rendered, w.tasks[id].src) {
      var t := w.tasks[id];
      FinishBakeEvolves(w.svc, t.src, BakeEdit(t.src, rendered, t.model), io);
      SvcEvolving(w, FinishBake(w.svc, t.src, BakeEdit(t.src, rendered, t.model), [], io).svc);
    }
  }

  lemma ReleaseFrame(w: World, s: Svc, id: nat)
    requires TasksBounded(w) && Evolves(w.svc.open, s.open) && s.saveRunning == w.svc.saveRunning
    requires id in w.tasks ==> !w.tasks[id].SaveJob?
    ensures Evolving(w, DropTask(WithSvc(w, s), id))
  {
    hide Moves;
    SvcEvolving(w, s);
  }

  lemma EndPasteFrame(w: World, id: nat, resampled: Samples, table: seq<Piece>, io: bool)
    requires TasksBounded(w)
    ensures Evolving(w, StepEndPaste(w, id, resampled, table, io))
  {
    hide Moves, FinishPaste;
    if HasPasteJob(w, id) {
      var src := w.tasks[id].paste;
      ReleaseFrame(w, AbandonPaste(w.svc), id);
      if w.clipFile.Some? && |w.clipFile.value| >= |src.clip.audio| {
        var audio := if src.clip.rateHz == src.rateHz then w.clipFile.value[..|src.clip.audio|] else resampled;
        var written := Pieces(src.session, table, audio);
        FinishPasteEvolves(w.svc, src, written, io);
        ReleaseFrame(w, FinishPaste(w.svc, src, written, io).svc, id);
      }
    }
  }

  lemma StopFrame(w: World, id: nat, bake: bool)
    requires TasksBounded(w) && HasEditJob(w, id, bake)
    ensures Evolving(w, DropTask(WithSvc(w, if bake then AbandonBake(w.svc) else AbandonNormalize(w.svc)), id))
  {
    ReleaseFrame(w, if bake then AbandonBake(w.svc) else AbandonNormalize(w.svc), id);
  }

  lemma PasteFrame(w: World, target: Target)
    requires TasksBounded(w)
    ensures Evolving(w, StepStartPaste(w, target))
  {
    hide Evolving, BeginPaste, WithSvc, AddTask;
    BeginsQuietly(w.svc, 0, 0, target);
    AddFrame(w, BeginPaste(w.svc, target).svc);
  }

  lemma NothingFrame(w: World)
    requires TasksBounded(w)
    ensures Evolving(w, w)
  {}

  lemma TakeOpFrame(w: World, take: Option<TakeEdit>, io: bool)
    requires TasksBounded(w)
    ensures Evolving(w, WithSvc(w, CommitTakeOp(w.svc, AsEdit(take), io).svc))
  {
    TakeOpEvolves(w.svc, AsEdit(take), io);
    SvcEvolving(w, CommitTakeOp(w.svc, AsEdit(take), io).svc);
  }

  /** The commands that neither install another document nor touch a file or a save. */
  predicate IsEvolving(c: Cmd) {
    || c.DoEdit? || c.DoMarkers? || c.DoHistory? || c.StartNormalize? || c.EndNormalize? || c.StopNormalize?
    || c.StartBake? || c.EndBake? || c.StopBake? || c.DoRack? || c.StartPaste? || c.EndPaste? || c.StopPaste?
    || c.StartRecordOp? || c.EndTakeOp? || c.CancelTake? || c.StoreChange?
  }

  lemma EditJobFrame(w: World, c: Cmd)
    requires TasksBounded(w)
    requires c.StartNormalize? || c.EndNormalize? || c.StopNormalize? || c.StartBake? || c.EndBake? || c.StopBake?
    ensures Evolving(w, Do(w, c))
  {
    hide Do, Evolving, WithSvc, StepStartNormalize, StepEndNormalize, StepStartBake, StepEndBake, DropTask;
    DoEditJob(w, c);
    NothingFrame(w);
    match c
    case StartNormalize(kind, a, b, spawns) => StartNormalizeFrame(w, kind, a, b, spawns);
    case EndNormalize(id, plan, io) => EndNormalizeFrame(w, id, plan, io);
    case StopNormalize(id) => if HasEditJob(w, id, false) { StopFrame(w, id, false); }
    case StartBake(model, a, b, spawns) => StartBakeFrame(w, model, a, b, spawns);
    case EndBake(id, rendered, io) => EndBakeFrame(w, id, rendered, io);
    case StopBake(id) => if HasEditJob(w, id, true) { StopFrame(w, id, true); }
  }

  lemma PasteJobFrame(w: World, c: Cmd)
    requires TasksBounded(w) && (c.StartPaste? || c.EndPaste? || c.StopPaste?)
    ensures Evolving(w, Do(w, c))
  {
    hide Do, Moves, Evolving, WithSvc, StepStartPaste, StepEndPaste, DropTask;
    DoPaste(w, c);
    NothingFrame(w);
    NothingEvolves(w.svc.open);
    match c
    case StartPaste(t) => PasteFrame(w, t);
    case EndPaste(id, resampled, table, io) => EndPasteFrame(w, id, resampled, table, io);
    case StopPaste(id) => if HasPasteJob(w, id) { ReleaseFrame(w, AbandonPaste(w.svc), id); }
  }

  lemma PlainFrame(w: World, c: Cmd)
    requires TasksBounded(w)
    requires c.DoEdit? || c.DoMarkers? || c.DoHistory? || c.DoRack? || c.StartRecordOp? || c.EndTakeOp? || c.CancelTake? || c.StoreChange?
    ensures Evolving(w, Do(w, c))
  {
    hide Do, Moves, Evolving, EditOut, EditMarkers, UndoOrRedo, CommitTakeOp, WithSvc;
    DoPlain(w, c);
    match c
    case DoEdit(e, io) => EditFrame(w, e, io);
    case DoMarkers(ops, io) => MarkersFrame(w, ops, io);
    case DoHistory(undo, io) => HistoryFrame(w, undo, io);
    case DoRack(model) => SvcEvolving(w, EditRack(w.svc, model).svc);
    case StartRecordOp(rate, io) => SvcEvolving(w, BeginRecordOp(w.svc, rate, io).svc);
    case EndTakeOp(take, io) => TakeOpFrame(w, take, io);
    case CancelTake => SvcEvolving(w, DiscardTake(w.svc));
    case StoreChange(store) => SvcEvolving(w, ChangeStore(w.svc, store));
  }

  lemma EvolvingFrame(w: World, c: Cmd)
    requires TasksBounded(w) && IsEvolving(c)
    ensures Evolving(w, Do(w, c))
  {
    hide Do, Evolving;
    if c.StartPaste? || c.EndPaste? || c.StopPaste? {
      PasteJobFrame(w, c);
    } else if c.StartNormalize? || c.EndNormalize? || c.StopNormalize? || c.StartBake? || c.EndBake? || c.StopBake? {
      EditJobFrame(w, c);
    } else {
      PlainFrame(w, c);
    }
  }

  // --- What a document opens with ---------------------------------------------------------------

  lemma OpenedFit(w: World, path: Path, fileMarkers: seq<Marker>, sidecar: Option<seq<Marker>>)
    requires CanOpen(w, path, fileMarkers, sidecar)
    ensures Placed(OpenedMarkers(w.files[path], fileMarkers, sidecar), |w.files[path].audio|)
  {
    hide CuesOf, Placed, SortMarkers;
    SortPlaces(ChosenMarkers(w.files[path], fileMarkers, sidecar), |w.files[path].audio|);
  }

  // --- The undo trim evolves nothing: it forgets ------------------------------------------------

  /** How many undo entries a trim drops: none while a take is recorded. */
  function Dropped(w: World, count: nat): (n: nat)
    ensures w.svc.open.Some? ==> n <= |w.svc.open.value.hist.undo|
  {
    if w.svc.open.None? || w.svc.open.value.recording then 0
    else if count <= |w.svc.open.value.hist.undo| then count
    else |w.svc.open.value.hist.undo|
  }

  /** The disk check drops entries of the open document's history and moves what number 0 names. */
  lemma TrimShape(w: World, count: nat, d: OpenDoc)
    requires w.svc.open == Some(d)
    ensures var v := StepTrimUndo(w, count);
            var e := d.(hist := DropOldest(d.hist, Dropped(w, count)));
            v == w.(svc := w.svc.(open := Some(e)), ledger := RecordFloor(w.ledger, e.hist))
  {
    assert d.hist.undo[0..] == d.hist.undo;
  }
}
