/**
 * A bake prints the rack into the audio and resets the rack, as one undo entry. Over every run,
 * undoing it brings back the audio and the rack it rendered, and redoing it the rendered audio and
 * the empty rack, whatever edits, undos and rack changes lie between.
 */
module RackCoherence {
  import opened Wrappers
  import opened Audio
  import opened Racks
  import opened Stores
  import opened Document
  import opened Histories
  import opened Ledgers
  import opened EditOps
  import opened Markers
  import opened Service
  import opened World
  import opened Evolution
  import opened JobSafety

  ghost predicate RackInv(w: World) {
    && JobInv(w)
    && (w.svc.open.Some? ==> BakesAgree(w.svc.open.value.hist, w.bakes))
  }

  /** If an entry was added, it is no bake. */
  predicate Plain(a: Option<OpenDoc>, b: Option<OpenDoc>) {
    a.Some? && b.Some? && b.value.hist.nextNumber > a.value.hist.nextNumber ==>
      |b.value.hist.undo| > 0 && b.value.hist.undo[|b.value.hist.undo| - 1].attachment.None?
  }

  // --- Bake entries under commits, undo and redo ---------------------------------------------------

  lemma PlainCommitAgrees(h: History, edit: Edit, bakes: map<nat, BakeRecord>)
    requires BakesAgree(h, bakes) && Apply(h, edit).Ok?
    requires Apply(h, edit).value.entry.attachment.None?
    ensures BakesAgree(Apply(h, edit).value.history, bakes)
  {
    hide BakeHolds;
    var k := Apply(h, edit).value.history;
    forall i | 0 <= i < |k.undo| ensures BakeHolds(k.undo[i], Below(k, i), Below(k, i + 1), bakes) {
      if i < |h.undo| {
        assert k.undo[i] == h.undo[i] && Below(k, i) == Below(h, i) && Below(k, i + 1) == Below(h, i + 1);
      } else {
        NoBakeHolds(k.undo[i], Below(k, i), Below(k, i + 1), bakes);
      }
    }
  }

  lemma NoBakeHolds(e: Entry, lower: Snapshot, upper: Snapshot, bakes: map<nat, BakeRecord>)
    requires e.attachment.None?
    ensures BakeHolds(e, lower, upper, bakes)
  {}

  /** Only the audio around an entry matters, and how it was made. */
  lemma SameBake(e: Entry, f: Entry, lower: Snapshot, lower2: Snapshot, upper: Snapshot, upper2: Snapshot, bakes: map<nat, BakeRecord>)
    requires BakeHolds(e, lower, upper, bakes)
    requires f == e.(snapshot := f.snapshot) && lower2.audio == lower.audio && upper2.audio == upper.audio
    ensures BakeHolds(f, lower2, upper2, bakes)
  {}

  lemma UndoAgreesOnBakes(h: History, bakes: map<nat, BakeRecord>)
    requires BakesAgree(h, bakes) && h.undo != []
    ensures BakesAgree(Undo(h).value.history, bakes)
  {
    hide BakeHolds;
    var k, n := Undo(h).value.history, |h.undo|;
    forall i | 0 <= i < |k.undo| ensures BakeHolds(k.undo[i], Below(k, i), Below(k, i + 1), bakes) {
      SameBake(h.undo[i], k.undo[i], Below(h, i), Below(k, i), Below(h, i + 1), Below(k, i + 1), bakes);
    }
    forall i | 0 <= i < |k.redo| ensures BakeHolds(k.redo[i], Above(k, i + 1), Above(k, i), bakes) {
      if i < |h.redo| {
        SameBake(h.redo[i], k.redo[i], Above(h, i + 1), Above(k, i + 1), Above(h, i), Above(k, i), bakes);
      } else {
        assert BakeHolds(h.undo[n - 1], Below(h, n - 1), Below(h, n), bakes);
        SameBake(h.undo[n - 1], k.redo[i], Below(h, n - 1), Above(k, i + 1), Below(h, n), Above(k, i), bakes);
      }
    }
  }

  lemma RedoAgreesOnBakes(h: History, bakes: map<nat, BakeRecord>)
    requires BakesAgree(h, bakes) && h.redo != []
    ensures BakesAgree(Redo(h).value.history, bakes)
  {
    hide BakeHolds;
    var k, n := Redo(h).value.history, |h.redo|;
    forall i | 0 <= i < |k.undo| ensures BakeHolds(k.undo[i], Below(k, i), Below(k, i + 1), bakes) {
      if i < |h.undo| {
        SameBake(h.undo[i], k.undo[i], Below(h, i), Below(k, i), Below(h, i + 1), Below(k, i + 1), bakes);
      } else {
        assert BakeHolds(h.redo[n - 1], Above(h, n), Above(h, n - 1), bakes);
        SameBake(h.redo[n - 1], k.undo[i], Above(h, n), Below(k, i), Above(h, n - 1), Below(k, i + 1), bakes);
      }
    }
    forall i | 0 <= i < |k.redo| ensures BakeHolds(k.redo[i], Above(k, i + 1), Above(k, i), bakes) {
      SameBake(h.redo[i], k.redo[i], Above(h, i + 1), Above(k, i + 1), Above(h, i), Above(k, i), bakes);
    }
  }

  lemma DropAgreesOnBakes(h: History, count: nat, bakes: map<nat, BakeRecord>)
    requires BakesAgree(h, bakes)
    ensures BakesAgree(DropOldest(h, count), bakes)
  {
    hide BakeHolds;
    var k := DropOldest(h, count);
    var n := if count <= |h.undo| then count else |h.undo|;
    forall i | 0 <= i < |k.undo| ensures BakeHolds(k.undo[i], Below(k, i), Below(k, i + 1), bakes) {
      assert k.undo[i] == h.undo[i + n] && Below(k, i) == Below(h, i + n) && Below(k, i + 1) == Below(h, i + n + 1);
    }
    forall i | 0 <= i < |k.redo| ensures BakeHolds(k.redo[i], Above(k, i + 1), Above(k, i), bakes) {
      assert Above(k, i) == Above(h, i) && Above(k, i + 1) == Above(h, i + 1);
    }
  }

  lemma SavedAgreesOnBakes(h: History, k: History, bakes: map<nat, BakeRecord>)
    requires BakesAgree(h, bakes) && k == MarkSavedAt(h, k.savedNumber)
    ensures BakesAgree(k, bakes)
  {
    hide BakeHolds;
    assert forall i :: 0 <= i <= |h.undo| ==> Below(k, i) == Below(h, i);
    assert forall i :: 0 <= i <= |h.redo| ==> Above(k, i) == Above(h, i);
  }

  /** The bake's own entry is recorded under the number it was given. */
  lemma BakeCommitAgrees(doc: OpenDoc, bakes: map<nat, BakeRecord>, t: Task, rendered: Samples)
    requires BakesAgree(doc.hist, bakes) && t.EditJob? && doc.hist.current == t.src.snapshot
    requires PlansFit(t.src) && Fills(rendered, t.src)
    ensures var step := Apply(doc.hist, BakeEdit(t.src, rendered, t.model));
            step.Ok? &&
            BakesAgree(step.value.history, bakes[step.value.history.CurrentNumber() := BakeRecord(t.src, t.model, rendered)])
  {
    var edit := BakeEdit(t.src, rendered, t.model);
    var audio, ms := t.src.snapshot.audio, t.src.snapshot.markers;
    SingleReplace(audio, ms, edit.ops[0], edit.attachment);
    var h, k := doc.hist, Apply(doc.hist, edit).value.history;
    var more := bakes[k.CurrentNumber() := BakeRecord(t.src, t.model, rendered)];
    forall i | 0 <= i < |k.undo| ensures BakeHolds(k.undo[i], Below(k, i), Below(k, i + 1), more) {
      if i < |h.undo| {
        assert BakeHolds(h.undo[i], Below(h, i), Below(h, i + 1), bakes);
        assert k.undo[i] == h.undo[i] && Below(k, i) == Below(h, i) && Below(k, i + 1) == Below(h, i + 1);
      }
    }
  }

  lemma PlainEvolutionAgrees(a: Option<OpenDoc>, b: Option<OpenDoc>, bakes: map<nat, BakeRecord>)
    requires Evolves(a, b) && Plain(a, b) && (a.Some? ==> BakesAgree(a.value.hist, bakes))
    ensures b.Some? ==> BakesAgree(b.value.hist, bakes)
  {
    hide BakesAgree;
    if a.Some? && a.value.hist != b.value.hist {
      var h, k := a.value.hist, b.value.hist;
      if exists e: Edit :: Apply(h, e).Ok? && Apply(h, e).value.history == k {
        var e: Edit :| Apply(h, e).Ok? && Apply(h, e).value.history == k;
        PlainCommitAgrees(h, e, bakes);
      } else if Undo(h).Some? && Undo(h).value.history == k {
        UndoAgreesOnBakes(h, bakes);
      } else {
        RedoAgreesOnBakes(h, bakes);
      }
    }
  }

  // --- Only a finished bake adds a bake entry ------------------------------------------------------

  lemma CommitPlain(s: Svc, doc: OpenDoc, edit: Edit, post: PostEdit, io: bool)
    requires s.open == Some(doc) && edit.attachment.None?
    ensures Plain(s.open, CommitWith(s, doc, edit, post, io).svc.open)
  {
    hide Prepare;
  }

  lemma EditsPlain(s: Svc, e: EditCmd, io: bool)
    ensures Plain(s.open, EditOut(s, e, io).svc.open)
  {
    hide Apply, CommitWith;
    if EditGate(s).Ok? {
      var doc := EditGate(s).value;
      match e
      case Cutting(a, b, table) =>
        if SelectedRange(doc, a, b).Ok? {
          CommitPlain(s, doc, DeleteEdit(SelectedRange(doc, a, b).value), PostCutOrDelete(SelectedRange(doc, a, b).value), io);
        }
      case Copying(_, _, _) =>
      case Pasting(t) =>
        if ResolveTarget(doc, t).Ok? && Spliceable(s.clipboard, doc.session).Ok? {
          var target, read := ResolveTarget(doc, t).value, Lookup(Spliceable(s.clipboard, doc.session).value.table, doc.store);
          if read.Some? {
            CommitPlain(s, doc, PasteEdit(read.value, target), PostPaste(target, |read.value|), io);
          }
        }
      case Deleting(a, b) =>
        if SelectedRange(doc, a, b).Ok? {
          CommitPlain(s, doc, DeleteEdit(SelectedRange(doc, a, b).value), PostCutOrDelete(SelectedRange(doc, a, b).value), io);
        }
      case Trimming(a, b) =>
        if SelectedRange(doc, a, b).Ok? && TrimEdit(SelectedRange(doc, a, b).value, doc.Len()).Some? {
          CommitPlain(s, doc, TrimEdit(SelectedRange(doc, a, b).value, doc.Len()).value, PostTrim(), io);
        }
      case Silencing(a, b) =>
        if SelectedRange(doc, a, b).Ok? {
          CommitPlain(s, doc, SilenceEdit(SelectedRange(doc, a, b).value), PostKeepRange(SelectedRange(doc, a, b).value), io);
        }
      case InsertingSilence(t, n) =>
        if ResolveTarget(doc, t).Ok? {
          CommitPlain(s, doc, InsertSilenceEdit(ResolveTarget(doc, t).value, n), PostPaste(ResolveTarget(doc, t).value, n), io);
        }
    }
  }

  lemma NormalizePlain(s: Svc, src: JobSource, plan: NormalizePlan, io: bool)
    requires RangeOk(src)
    ensures Plain(s.open, FinishNormalize(s, src, plan, io).svc.open)
  {
    hide Apply, CommitWith;
    if s.open.Some? && plan.Gain? {
      CommitPlain(s.(normalizeBusy := false), s.open.value, ReplaceRangeEdit(src.range, plan.samples, None), PostKeepRange(src.range), io);
    }
  }

  lemma PastePlain(s: Svc, src: PasteSource, written: Pieces, io: bool)
    requires TargetOk(src)
    ensures Plain(s.open, FinishPaste(s, src, written, io).svc.open)
  {
    hide Apply, CommitWith, PasteRebind, Plain;
    SamePlain(s.open);
    RebindLeavesDocument(PasteCommit(s, src, written, io).svc, src, written);
    if s.open.Some? {
      var read := Lookup(written.table, s.open.value.store);
      if read.Some? {
        CommitPlain(s, s.open.value, PasteEdit(read.value, src.target), PostPaste(src.target, |read.value|), io);
      }
    }
  }

  lemma MarkersPlain(s: Svc, ops: seq<MarkerOp>, io: bool)
    ensures Plain(s.open, EditMarkers(s, ops, io).svc.open)
  {
    hide Prepare;
  }

  lemma HistoryPlain(s: Svc, undo: bool, io: bool)
    ensures Plain(s.open, UndoOrRedo(s, undo, io).svc.open)
  {
    hide Prepare;
  }

  lemma TakeOpPlain(s: Svc, take: Option<TakeEdit>, io: bool)
    ensures Plain(s.open, CommitTakeOp(s, AsEdit(take), io).svc.open)
  {
    hide Prepare;
  }

  /** No bake entry was added, and the bake records stayed with their session. */
  predicate PlainStep(w: World, v: World) {
    || v == w
    || (Plain(w.svc.open, v.svc.open) && v.bakes == KeptBakes(w.bakes, w.svc.open, v.svc.open))
  }

  lemma PlainSvc(w: World, s: Svc)
    requires Plain(w.svc.open, s.open)
    ensures PlainStep(w, WithSvc(w, s))
  {}

  /** Evolving commands other than a finished bake. */
  lemma EvolvingPlain(w: World, c: Cmd)
    requires IsEvolving(c) && !c.EndBake?
    ensures PlainStep(w, Do(w, c))
  {
    hide EditOut, EditMarkers, UndoOrRedo, CommitTakeOp, WithSvc, PlainStep, DiscardTake, BeginRecordOp, ChangeStore;
    SamePlain(w.svc.open);
    match c {
      case DoEdit(e, io) =>
        EditsPlain(w.svc, e, io);
        PlainSvc(w, EditOut(w.svc, e, io).svc);
      case DoMarkers(ops, io) =>
        MarkersPlain(w.svc, ops, io);
        PlainSvc(w, EditMarkers(w.svc, ops, io).svc);
      case DoHistory(undo, io) =>
        HistoryPlain(w.svc, undo, io);
        PlainSvc(w, UndoOrRedo(w.svc, undo, io).svc);
      case EndTakeOp(take, io) =>
        TakeOpPlain(w.svc, take, io);
        PlainSvc(w, CommitTakeOp(w.svc, AsEdit(take), io).svc);
      case CancelTake =>
        CancelPlain(w.svc);
        PlainSvc(w, DiscardTake(w.svc));
      case StartRecordOp(rate, io) =>
        StartOpPlain(w.svc, rate, io);
        PlainSvc(w, BeginRecordOp(w.svc, rate, io).svc);
      case DoRack(model) => PlainSvc(w, EditRack(w.svc, model).svc);
      case StoreChange(store) =>
        StorePlain(w.svc, store);
        PlainSvc(w, ChangeStore(w.svc, store));
      case _ =>
        hide *;
        JobCommandsPlain(w, c);
    }
  }

  lemma JobCommandsPlain(w: World, c: Cmd)
    requires c.StartNormalize? || c.EndNormalize? || c.StopNormalize? || c.StartBake? || c.StopBake? || c.StartPaste?
             || c.EndPaste? || c.StopPaste?
    ensures PlainStep(w, Do(w, c))
  {
    hide *;
    if c.StartPaste? || c.EndPaste? || c.StopPaste? {
      PasteCommandsPlain(w, c);
    } else {
      EditJobCommandsPlain(w, c);
    }
  }

  lemma EditJobCommandsPlain(w: World, c: Cmd)
    requires c.StartNormalize? || c.EndNormalize? || c.StopNormalize? || c.StartBake? || c.StopBake?
    ensures PlainStep(w, Do(w, c))
  {
    hide Do, FinishNormalize, BeginNormalize, Learn, Plain, AbandonBake, AbandonNormalize;
    SamePlain(w.svc.open);
    DoEditJob(w, c);
    StartsAndStopsPlain(w.svc, c);
    if c.EndNormalize? && HasEditJob(w, c.task, false) {
      NormalizePlain(w.svc, w.tasks[c.task].src, c.plan, c.io);
    }
  }

  lemma PasteCommandsPlain(w: World, c: Cmd)
    requires c.StartPaste? || c.EndPaste? || c.StopPaste?
    ensures PlainStep(w, Do(w, c))
  {
    hide Do, FinishPaste, BeginPaste, Learn, Plain, AbandonPaste;
    SamePlain(w.svc.open);
    DoPaste(w, c);
    StartsAndStopsPlain(w.svc, c);
    if c.EndPaste? && HasPasteJob(w, c.task) && w.clipFile.Some? && |w.clipFile.value| >= |w.tasks[c.task].paste.clip.audio| {
      var src := w.tasks[c.task].paste;
      var audio := if src.clip.rateHz == src.rateHz then w.clipFile.value[..|src.clip.audio|] else c.resampled;
      PastePlain(w.svc, src, Pieces(src.session, c.table, audio), c.io);
    }
  }

  /** Starting and stopping jobs never touches the document. */
  lemma StartsAndStopsPlain(s: Svc, c: Cmd)
    ensures AbandonBake(s).open == s.open && AbandonNormalize(s).open == s.open && AbandonPaste(s).open == s.open
    ensures c.StartNormalize? || c.StartBake? ==> BeginNormalize(s, c.start, c.end).svc.open == s.open
    ensures c.StartBake? ==> forall flag :: AbandonBake(BeginNormalize(s, c.start, c.end).svc.(bakeRunning := flag)).open == s.open
    ensures c.StartPaste? ==> BeginPaste(s, c.target).svc.open == s.open
  {}

  lemma SamePlain(a: Option<OpenDoc>)
    ensures Plain(a, a)
  {}

  lemma CancelPlain(s: Svc)
    ensures Plain(s.open, DiscardTake(s).open)
  {}

  lemma StorePlain(s: Svc, store: Store)
    ensures Plain(s.open, ChangeStore(s, store).open)
  {}

  lemma StartOpPlain(s: Svc, rate: nat, io: bool)
    ensures Plain(s.open, BeginRecordOp(s, rate, io).svc.open)
  {}

  // --- The invariant over every run ------------------------------------------------------------------

  lemma EndBakeKeepsRack(w: World, id: nat, rendered: Samples, io: bool)
    requires RackInv(w)
    ensures var v := StepEndBake(w, id, rendered, io);
            v.svc.open.Some? ==> BakesAgree(v.svc.open.value.hist, v.bakes)
  {
    hide BakesAgree, Known, Named, Placed, Learn, PlansFit, Prepare;
    if HasEditJob(w, id, true) && Fills(rendered, w.tasks[id].src) && w.svc.open.Some? {
      var t, doc := w.tasks[id], w.svc.open.value;
      assert TaskKnown(t, w.svc.open, w.ledger, w.nextSession);
      if StillAt(doc, t.src) {
        SameRevSameSnapshot(w, id);
        BakeCommitAgrees(doc, w.bakes, t, rendered);
      }
    }
  }

  lemma OthersKeepRack(w: World, c: Cmd)
    requires RackInv(w) && !IsEvolving(c)
    ensures var v := Do(w, c);
            v.svc.open.Some? ==> BakesAgree(v.svc.open.value.hist, v.bakes)
  {
    assert c.OpenFile? || c.RecoverSession? || c.CloseDoc? || c.ForeignWrite? || c.TrimUndo? || c.SaveEnd? || c.StartRecording?
        || c.EndTake? || c.StartSave? || c.StartSaveAs? || c.SavePrepare? || c.SaveWrite?;
    if c.TrimUndo? {
      hide *;
      TrimKeepsRack(w, c.count);
    } else if c.SaveEnd? {
      hide *;
      SaveEndKeepsRack(w, c.task, c.io);
    } else if c.StartRecording? {
      hide *;
      RecordingKeepsRack(w, c);
    } else if c.EndTake? {
      hide *;
      TakeKeepsRack(w, c);
    } else if c.StartSave? || c.StartSaveAs? || c.SavePrepare? || c.SaveWrite? {
      hide *;
      SavesKeepRack(w, c);
    } else {
      hide *;
      DocumentsKeepRack(w, c);
    }
  }

  lemma SavesKeepRack(w: World, c: Cmd)
    requires RackInv(w) && (c.StartSave? || c.StartSaveAs? || c.SavePrepare? || c.SaveWrite?)
    ensures var v := Do(w, c);
            v.svc.open.Some? ==> BakesAgree(v.svc.open.value.hist, v.bakes)
  {
    hide Do, JobInv, Learn, BakesAgree, PrepareSave, WrittenImage, StepSaveEnd;
    DoSave(w, c);
  }

  lemma DocumentsKeepRack(w: World, c: Cmd)
    requires RackInv(w) && (c.OpenFile? || c.RecoverSession? || c.CloseDoc? || c.ForeignWrite?)
    ensures var v := Do(w, c);
            v.svc.open.Some? ==> BakesAgree(v.svc.open.value.hist, v.bakes)
  {
    hide Do, Agrees, TasksKnown, Learn, BakeHolds, CanOpen, OpenedMarkers, Detach, StepStartRecording, StepEndTake, StepTrimUndo,
         ClipFileAfter;
    DoDocument(w, c);
  }

  lemma TrimKeepsRack(w: World, count: nat)
    requires RackInv(w)
    ensures var v := Do(w, TrimUndo(count));
            v.svc.open.Some? ==> BakesAgree(v.svc.open.value.hist, v.bakes)
  {
    hide Do, JobInv, Learn, BakesAgree, DropOldest, StepOpen, StepRecover, StepStartRecording, StepEndTake, Close, WithDetached;
    DoDocument(w, TrimUndo(count));
    if w.svc.open.Some? {
      DropAgreesOnBakes(w.svc.open.value.hist, count, w.bakes);
    }
  }

  lemma SaveEndKeepsRack(w: World, id: nat, io: bool)
    requires RackInv(w)
    ensures var v := Do(w, SaveEnd(id, io));
            v.svc.open.Some? ==> BakesAgree(v.svc.open.value.hist, v.bakes)
  {
    hide Do, JobInv, Learn, BakesAgree, StepStartSave, StepStartSaveAs, StepSavePrepare, StepSaveWrite;
    DoSave(w, SaveEnd(id, io));
    var v := StepSaveEnd(w, id, io);
    if w.svc.open.Some? {
      SavedAgreesOnBakes(w.svc.open.value.hist, v.svc.open.value.hist, w.bakes);
    }
  }

  lemma NewBakes()
    ensures BakesAgree(New(Content([], [])), map[])
  {}

  lemma RecordingKeepsRack(w: World, c: Cmd)
    requires RackInv(w) && c.StartRecording?
    ensures var v := Do(w, c);
            v.svc.open.Some? ==> BakesAgree(v.svc.open.value.hist, v.bakes)
  {
    hide Agrees, TasksKnown, Learn, BakesAgree, Detach;
    NewBakes();
  }

  lemma TakeKeepsRack(w: World, c: Cmd)
    requires RackInv(w) && c.EndTake?
    ensures var v := Do(w, c);
            v.svc.open.Some? ==> BakesAgree(v.svc.open.value.hist, v.bakes)
  {
    hide Agrees, TasksKnown, Learn, BakesAgree, Do, StepEndTake, Moves, Plain;
    DoDocument(w, c);
    EndTakeShape(w, c.take, c.io, c.creates, c.clipIo);
    var v := StepEndTake(w, c.take, c.io, c.creates, c.clipIo);
    EndTakeKeepsBakes(w, c.take, c.io, c.creates, c.clipIo);
    if Plain(w.svc.open, v.svc.open) && Evolves(w.svc.open, v.svc.open) {
      PlainEvolutionAgrees(w.svc.open, v.svc.open, w.bakes);
    }
    NewBakes();
  }

  lemma EndTakeKeepsBakes(w: World, take: Option<TakeEdit>, io: bool, creates: bool, clipIo: bool)
    ensures var v := StepEndTake(w, take, io, creates, clipIo);
            && v.bakes == KeptBakes(w.bakes, w.svc.open, v.svc.open)
            && (Plain(w.svc.open, v.svc.open) || v.svc.open == w.svc.open ||
                (w.svc.open.Some? &&
                 v.svc.open == Some(NewRecording(w.nextSession, w.svc.open.value.rateHz, w.svc.open.value.format))))
  {
    hide Agrees, Learn, KeptBakes, CommitTake, Plain;
    TakeIsPlain(w.svc, take, io, if creates then Some(w.nextSession) else None, clipIo);
  }

  lemma TakeIsPlain(s: Svc, take: Option<TakeEdit>, io: bool, created: Option<nat>, clipIo: bool)
    ensures Plain(s.open, CommitTake(s, AsEdit(take), io, created, clipIo).svc.open) ||
            CommitTake(s, AsEdit(take), io, created, clipIo).svc.open ==
              (if created.Some? && s.open.Some? then Some(NewRecording(created.value, s.open.value.rateHz, s.open.value.format)) else s.open)
  {
    hide Prepare, Detach;
  }

  lemma StepKeepsRackInv(w: World, c: Cmd)
    requires RackInv(w)
    ensures RackInv(Do(w, c))
  {
    hide JobInv, BakesAgree, Evolves, Learn, Plain, Moves;
    StepKeepsJobInv(w, c);
    if !IsEvolving(c) {
      OthersKeepRack(w, c);
    } else if c.EndBake? {
      EndBakeKeepsRack(w, c.task, c.rendered, c.io);
      assert Do(w, c) == StepEndBake(w, c.task, c.rendered, c.io);
    } else {
      hide Do;
      InvBounded(w);
      EvolvingFrame(w, c);
      EvolvingPlain(w, c);
      EvolutionKeepsRack(w, Do(w, c));
    }
  }

  lemma InvBounded(w: World)
    requires JobInv(w)
    ensures TasksBounded(w)
  {}

  lemma EvolutionKeepsRack(w: World, v: World)
    requires w.svc.open.Some? ==> BakesAgree(w.svc.open.value.hist, w.bakes)
    requires Evolving(w, v)
    requires PlainStep(w, v)
    ensures v.svc.open.Some? ==> BakesAgree(v.svc.open.value.hist, v.bakes)
  {
    hide BakesAgree, Moves;
    if v != w {
      PlainEvolutionAgrees(w.svc.open, v.svc.open, w.bakes);
    }
  }

  lemma {:induction false} RunKeepsRackInv(w: World, cs: seq<Cmd>)
    requires RackInv(w)
    ensures RackInv(Run(w, cs))
    decreases |cs|
  {
    hide RackInv, Do;
    if cs != [] {
      StepKeepsRackInv(w, cs[0]);
      RunKeepsRackInv(Do(w, cs[0]), cs[1..]);
    }
  }

  lemma StartHolds()
    ensures RackInv(START)
  {}

  // --- Undoing and redoing a bake ---------------------------------------------------------------------

  /** Undo is possible here: nothing gates it. */
  predicate CanMove(s: Svc) {
    !s.normalizeBusy && s.open.Some? && !s.open.value.recording
  }

  /**
   * Undoing a bake in any reachable state: the document holds the audio the job rendered from, the
   * rack is the one it rendered with, and printing the recorded render into that range gives back
   * exactly the audio that was undone.
   */
  lemma UndoneBakeIsItsSource(cs: seq<Cmd>)
    requires var s := Run(START, cs).svc;
             CanMove(s) && s.open.value.hist.undo != [] &&
             s.open.value.hist.undo[|s.open.value.hist.undo| - 1].attachment.Some?
    ensures var w, v := Run(START, cs), Do(Run(START, cs), DoHistory(true, true));
            var baked := w.svc.open.value.hist.current.audio;
            var number := w.svc.open.value.hist.CurrentNumber();
            && number in w.bakes && v.svc.open.Some?
            && var b, now := w.bakes[number], v.svc.open.value.hist.current.audio;
               && now == b.src.snapshot.audio
               && v.svc.rack == b.model
               && b.src.range.start + |b.rendered| <= |now|
               && Splice(now, b.src.range.start, |b.rendered|, b.rendered) == baked
  {
    hide JobInv, Learn;
    StartHolds();
    RunKeepsRackInv(START, cs);
    var h := Run(START, cs).svc.open.value.hist;
    var n := |h.undo|;
    assert BakeHolds(h.undo[n - 1], Below(h, n - 1), Below(h, n), Run(START, cs).bakes);
  }

  /** Redoing one: the rendered audio over the very source it was rendered from, and an empty rack. */
  lemma RedoneBakeIsItsRender(cs: seq<Cmd>)
    requires var s := Run(START, cs).svc;
             CanMove(s) && s.open.value.hist.redo != [] &&
             s.open.value.hist.redo[|s.open.value.hist.redo| - 1].attachment.Some?
    ensures var w, v := Run(START, cs), Do(Run(START, cs), DoHistory(false, true));
            var before := w.svc.open.value.hist.current.audio;
            var number := w.svc.open.value.hist.redo[|w.svc.open.value.hist.redo| - 1].number;
            && number in w.bakes && v.svc.open.Some? && v.svc.rack == []
            && var b := w.bakes[number];
               && before == b.src.snapshot.audio
               && b.src.range.start + |b.rendered| <= |before|
               && v.svc.open.value.hist.current.audio == Splice(before, b.src.range.start, |b.rendered|, b.rendered)
  {
    hide JobInv, Learn;
    StartHolds();
    RunKeepsRackInv(START, cs);
    var h := Run(START, cs).svc.open.value.hist;
    var n := |h.redo|;
    assert BakeHolds(h.redo[n - 1], Above(h, n), Above(h, n - 1), Run(START, cs).bakes);
  }

  /** Any number of rack edits. */
  function RackEdits(models: seq<Rack>): seq<Cmd> {
    seq(|models|, i requires 0 <= i < |models| => DoRack(models[i]))
  }

  lemma {:induction false} RackEditsLeaveDocument(w: World, models: seq<Rack>)
    ensures var v := Run(w, RackEdits(models));
            v.svc.open == w.svc.open && v.svc.normalizeBusy == w.svc.normalizeBusy
    decreases |models|
  {
    if models != [] {
      var v := Do(w, DoRack(models[0]));
      assert RackEdits(models)[1..] == RackEdits(models[1..]);
      RackEditsLeaveDocument(v, models[1..]);
    }
  }

  /**
   * The whole round trip. A bake commits, the rack is edited any number of times, then one undo:
   * the document is as the bake found it and the rack the one it printed. One redo: as the bake left them.
   */
  lemma BakeUndoRedo(cs: seq<Cmd>, id: nat, rendered: Samples, models: seq<Rack>)
    requires HasEditJob(Run(START, cs), id, true) && Fills(rendered, Run(START, cs).tasks[id].src)
    requires MayLand(Run(START, cs), Run(START, cs).tasks[id].src)
    ensures var w := Run(START, cs);
            var baked := Do(w, EndBake(id, rendered, true));
            var edited := Run(baked, RackEdits(models));
            var undone := Do(edited, DoHistory(true, true));
            var redone := Do(undone, DoHistory(false, true));
            && baked.svc.open.Some? && undone.svc.open.Some? && redone.svc.open.Some?
            && baked.svc.rack == []
            && ContentOf(undone.svc.open.value.hist.current) == ContentOf(w.svc.open.value.hist.current)
            && undone.svc.rack == w.tasks[id].model
            && ShapeOf(redone.svc.open.value.hist) == ShapeOf(baked.svc.open.value.hist)
            && redone.svc.rack == []
  {
    hide JobInv, Learn, Run, LandedOn, BakeEdit;
    BakeLandsOrLeaves(cs, id, rendered, true);
    var w := Run(START, cs);
    var baked := Do(w, EndBake(id, rendered, true));
    RackEditsLeaveDocument(baked, models);
    var edited := Run(baked, RackEdits(models));
    BakedEntry(w, id, rendered);
    UndoRedoBake(edited, w.tasks[id].model);
  }

  lemma BakedEntry(w: World, id: nat, rendered: Samples)
    requires HasEditJob(w, id, true) && Fills(rendered, w.tasks[id].src)
    requires w.svc.open.Some? && !w.svc.open.value.recording
    requires FinishBake(w.svc, w.tasks[id].src, BakeEdit(w.tasks[id].src, rendered, w.tasks[id].model), [], true).reply.Ok?
    ensures var baked := Do(w, EndBake(id, rendered, true)).svc;
            && baked.open.Some? && !baked.normalizeBusy && baked.rack == []
            && !baked.open.value.recording
            && var h := baked.open.value.hist;
               && |h.undo| > 0
               && h.undo[|h.undo| - 1].attachment == Some(BakeAttachment(w.tasks[id].model, []))
               && h.undo[|h.undo| - 1].snapshot == w.svc.open.value.hist.current
  {
    hide Learn, Prepare;
  }

  lemma UndoRedoBake(w: World, model: Rack)
    requires CanMove(w.svc) && w.svc.open.value.hist.undo != []
    requires w.svc.open.value.hist.undo[|w.svc.open.value.hist.undo| - 1].attachment == Some(BakeAttachment(model, []))
    ensures var undone := Do(w, DoHistory(true, true));
            var redone := Do(undone, DoHistory(false, true));
            && undone.svc.open.Some? && redone.svc.open.Some?
            && ContentOf(undone.svc.open.value.hist.current) ==
                 ContentOf(w.svc.open.value.hist.undo[|w.svc.open.value.hist.undo| - 1].snapshot)
            && undone.svc.rack == model
            && ShapeOf(redone.svc.open.value.hist) == ShapeOf(w.svc.open.value.hist)
            && redone.svc.rack == []
  {
    hide Learn, ShapeOf;
    RedoUndoesUndo(w.svc.open.value.hist);
  }
}
