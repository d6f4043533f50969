/**
 * Busy flags over all runs. Each flag is up exactly while one live job owns it. A step breaks this
 * exactly when a normalize thread cannot be spawned, or when a save finds its document gone before
 * it captured anything.
 */
module FlagOwnership {
  import opened Wrappers
  import opened Audio
  import opened Racks
  import opened Stores
  import opened Document
  import opened Histories
  import opened Ledgers
  import opened EditOps
  import opened Service
  import opened World

  predicate AnyEdit(t: Task) { t.EditJob? }
  predicate AnyBake(t: Task) { t.EditJob? && t.kind == Bake }
  predicate AnyPaste(t: Task) { t.PasteJob? }
  predicate AnySave(t: Task) { t.SaveJob? }

  ghost predicate Live(tasks: map<nat, Task>, kind: Task -> bool) {
    exists i :: i in tasks && kind(tasks[i])
  }

  ghost predicate AtMostOne(tasks: map<nat, Task>, kind: Task -> bool) {
    forall i, j :: i in tasks && j in tasks && kind(tasks[i]) && kind(tasks[j]) ==> i == j
  }

  /** The flag is up exactly while a job of its kind lives, and there is at most one. */
  ghost predicate Owns(tasks: map<nat, Task>, flag: bool, kind: Task -> bool) {
    AtMostOne(tasks, kind) && (flag <==> Live(tasks, kind))
  }

  ghost predicate WellFormed(w: World) {
    && (forall i :: i in w.tasks ==> i < w.nextTask)
    && (forall i :: i in w.tasks && w.tasks[i].EditJob? ==> RangeOk(w.tasks[i].src))
    && (forall i :: i in w.tasks && w.tasks[i].PasteJob? ==> TargetOk(w.tasks[i].paste))
  }

  ghost predicate FlagInv(w: World) {
    && WellFormed(w)
    && Owns(w.tasks, w.svc.normalizeBusy, AnyEdit)
    && Owns(w.tasks, w.svc.bakeRunning, AnyBake)
    && Owns(w.tasks, w.svc.pasteBusy, AnyPaste)
    && Owns(w.tasks, w.svc.saveRunning, AnySave)
  }

  /** A normalize job that starts gets its thread; a save still finds its document when it captures. */
  predicate FlagOrderly(w: World, c: Cmd) {
    match c
    case StartNormalize(kind, start, end, spawns) =>
      spawns || kind == Bake || BeginNormalize(w.svc, start, end).reply.Err?
    case SavePrepare(id) =>
      HasSaveJob(w, id) && w.tasks[id].phase.Begun? ==>
        w.svc.open.Some? && (w.tasks[id].saveAs.None? ==> w.svc.open.value.path.Some?)
    case _ => true
  }

  predicate SameFlags(s: Svc, t: Svc) {
    && t.normalizeBusy == s.normalizeBusy && t.bakeRunning == s.bakeRunning
    && t.pasteBusy == s.pasteBusy && t.saveRunning == s.saveRunning
  }

  lemma SameOwns(w: World, v: World)
    requires FlagInv(w) && v.tasks == w.tasks && v.nextTask == w.nextTask && SameFlags(w.svc, v.svc)
    ensures FlagInv(v)
  {}

  // --- One flag --------------------------------------------------------------------------------

  lemma OwnsAfterAdd(tasks: map<nat, Task>, id: nat, t: Task, flag: bool, kind: Task -> bool)
    requires id !in tasks && Owns(tasks, flag, kind) && (kind(t) ==> !flag)
    ensures Owns(tasks[id := t], flag || kind(t), kind)
  {
    var after := tasks[id := t];
    if Live(tasks, kind) {
      var i :| i in tasks && kind(tasks[i]);
      assert i in after && kind(after[i]);
    }
    if kind(t) {
      assert after[id] == t;
    }
  }

  lemma OwnsAfterDrop(tasks: map<nat, Task>, id: nat, flag: bool, kind: Task -> bool)
    requires id in tasks && Owns(tasks, flag, kind)
    ensures Owns(tasks - {id}, flag && !kind(tasks[id]), kind)
  {
    if Live(tasks, kind) && !kind(tasks[id]) {
      var i :| i in tasks && kind(tasks[i]);
      assert i in tasks - {id} && kind((tasks - {id})[i]);
    }
  }

  lemma OwnsAfterMove(tasks: map<nat, Task>, id: nat, t: Task, flag: bool, kind: Task -> bool)
    requires id in tasks && Owns(tasks, flag, kind) && kind(t) == kind(tasks[id])
    ensures Owns(tasks[id := t], flag, kind)
  {
    var after := tasks[id := t];
    if Live(tasks, kind) {
      var i :| i in tasks && kind(tasks[i]);
      assert i in after && kind(after[i]);
    }
  }

  // --- All flags -------------------------------------------------------------------------------

  /** A job appears, and the flags it owns go up with it. */
  lemma AddOwns(w: World, v: World, t: Task)
    requires FlagInv(w) && v.tasks == w.tasks[w.nextTask := t] && v.nextTask == w.nextTask + 1
    requires (t.EditJob? ==> RangeOk(t.src)) && (t.PasteJob? ==> TargetOk(t.paste))
    requires t.EditJob? ==> !w.svc.normalizeBusy
    requires t.PasteJob? ==> !w.svc.pasteBusy
    requires t.SaveJob? ==> !w.svc.saveRunning
    requires v.svc.normalizeBusy == (w.svc.normalizeBusy || AnyEdit(t))
    requires v.svc.bakeRunning == (w.svc.bakeRunning || AnyBake(t))
    requires v.svc.pasteBusy == (w.svc.pasteBusy || AnyPaste(t))
    requires v.svc.saveRunning == (w.svc.saveRunning || AnySave(t))
    ensures FlagInv(v)
  {
    BakeIsEdit(w);
    hide Owns;
    OwnsAfterAdd(w.tasks, w.nextTask, t, w.svc.normalizeBusy, AnyEdit);
    OwnsAfterAdd(w.tasks, w.nextTask, t, w.svc.bakeRunning, AnyBake);
    OwnsAfterAdd(w.tasks, w.nextTask, t, w.svc.pasteBusy, AnyPaste);
    OwnsAfterAdd(w.tasks, w.nextTask, t, w.svc.saveRunning, AnySave);
  }

  /** The rack is locked only while the document is busy. */
  lemma BakeIsEdit(w: World)
    requires FlagInv(w)
    ensures w.svc.bakeRunning ==> w.svc.normalizeBusy
  {
    if w.svc.bakeRunning {
      var i :| i in w.tasks && AnyBake(w.tasks[i]);
      assert AnyEdit(w.tasks[i]);
    }
  }

  /** A job ends, and the flags it owned go down with it. */
  lemma DropOwns(w: World, v: World, id: nat)
    requires FlagInv(w) && id in w.tasks && v.tasks == w.tasks - {id} && v.nextTask == w.nextTask
    requires v.svc.normalizeBusy == (w.svc.normalizeBusy && !AnyEdit(w.tasks[id]))
    requires v.svc.bakeRunning == (w.svc.bakeRunning && !AnyBake(w.tasks[id]))
    requires v.svc.pasteBusy == (w.svc.pasteBusy && !AnyPaste(w.tasks[id]))
    requires v.svc.saveRunning == (w.svc.saveRunning && !AnySave(w.tasks[id]))
    ensures FlagInv(v)
  {
    hide Owns;
    OwnsAfterDrop(w.tasks, id, w.svc.normalizeBusy, AnyEdit);
    OwnsAfterDrop(w.tasks, id, w.svc.bakeRunning, AnyBake);
    OwnsAfterDrop(w.tasks, id, w.svc.pasteBusy, AnyPaste);
    OwnsAfterDrop(w.tasks, id, w.svc.saveRunning, AnySave);
  }

  lemma MoveOwns(w: World, v: World, id: nat, t: Task)
    requires FlagInv(w) && HasSaveJob(w, id) && t.SaveJob? && v.tasks == w.tasks[id := t] && v.nextTask == w.nextTask
    requires SameFlags(w.svc, v.svc)
    ensures FlagInv(v)
  {
    hide Owns;
    OwnsAfterMove(w.tasks, id, t, w.svc.normalizeBusy, AnyEdit);
    OwnsAfterMove(w.tasks, id, t, w.svc.bakeRunning, AnyBake);
    OwnsAfterMove(w.tasks, id, t, w.svc.pasteBusy, AnyPaste);
    OwnsAfterMove(w.tasks, id, t, w.svc.saveRunning, AnySave);
  }

  /** A live job's flag is up, so ending it lowers exactly its own flags. */
  lemma LiveFlags(w: World, id: nat)
    requires FlagInv(w) && id in w.tasks
    ensures AnyEdit(w.tasks[id]) ==> w.svc.normalizeBusy && w.svc.bakeRunning == AnyBake(w.tasks[id])
    ensures AnyPaste(w.tasks[id]) ==> w.svc.pasteBusy
    ensures AnySave(w.tasks[id]) ==> w.svc.saveRunning
  {
    if w.svc.bakeRunning && AnyEdit(w.tasks[id]) {
      var i :| i in w.tasks && AnyBake(w.tasks[i]);
      assert AnyEdit(w.tasks[i]);
    }
    assert AnyEdit(w.tasks[id]) ==> Live(w.tasks, AnyEdit);
    assert AnyBake(w.tasks[id]) ==> Live(w.tasks, AnyBake);
    assert AnyPaste(w.tasks[id]) ==> Live(w.tasks, AnyPaste);
    assert AnySave(w.tasks[id]) ==> Live(w.tasks, AnySave);
  }

  // --- The commands --------------------------------------------------------------------------------

  predicate IsJobCommand(c: Cmd) {
    c.StartNormalize? || c.EndNormalize? || c.StopNormalize? || c.StartBake? || c.EndBake? || c.StopBake? ||
    c.StartPaste? || c.EndPaste? || c.StopPaste? || c.StartSave? || c.StartSaveAs? || c.SavePrepare? || c.SaveWrite? ||
    c.SaveEnd?
  }

  lemma EditsLeaveFlags(s: Svc, e: EditCmd, io: bool)
    ensures SameFlags(s, EditOut(s, e, io).svc)
  {
    hide Apply, ValidateRange, PasteEdit, TrimEdit;
  }

  lemma DetachLeavesFlags(s: Svc, io: bool)
    ensures SameFlags(s, Detach(s, io))
  {}

  lemma OpenLeavesFlags(s: Svc, doc: OpenDoc, rack: Option<Rack>, io: bool)
    ensures SameFlags(s, Open(s, doc, rack, io).svc) && SameFlags(s, Close(s, io).svc)
  {
    hide Detach;
    DetachLeavesFlags(s, io);
    DetachLeavesFlags(if rack.Some? then s.(rack := rack.value) else s, io);
  }

  lemma TakesLeaveFlags(s: Svc, rate: nat, format: Format, replace: bool, created: Option<nat>, take: Option<Edit>, clipIo: bool, io: bool)
    ensures SameFlags(s, BeginRecording(s, rate, format, replace, created, clipIo, io).svc)
    ensures SameFlags(s, CommitTake(s, take, io, created, clipIo).svc)
  {
    hide Detach, CommitInternal, NewRecording, SameFlags;
    SameFlagsRefl(s);
    DetachLeavesFlags(s, clipIo);
    OpenKeepsFlags(Detach(s, clipIo), s);
  }

  lemma SameFlagsRefl(s: Svc)
    ensures SameFlags(s, s)
  {}

  /** Which document is open has no part in the flags. */
  lemma OpenKeepsFlags(t: Svc, s: Svc)
    ensures SameFlags(s, t) ==> forall open :: SameFlags(s, t.(open := open))
    ensures forall open :: SameFlags(s, s.(open := open))
  {}

  lemma DocumentsLeaveFlags(w: World, c: Cmd)
    requires c.OpenFile? || c.RecoverSession? || c.CloseDoc? || c.StartRecording? || c.EndTake? || c.ForeignWrite?
    ensures SameFlags(w.svc, Do(w, c).svc) && Do(w, c).tasks == w.tasks && Do(w, c).nextTask == w.nextTask
  {
    hide Learn, KeptBakes, Agrees, BakesAgree, OpenedMarkers, ClipFileAfter, Open, Close, BeginRecording, CommitTake, SameFlags,
         NewRecording, AsEdit, Do;
    SameFlagsRefl(w.svc);
    DoDocument(w, c);
    match c {
      case OpenFile(p, fm, sc, rate, format, rack, io) =>
        if CanOpen(w, p, fm, sc) {
          OpenLeavesFlags(w.svc, OpenedDoc(w, p, OpenedMarkers(w.files[p], fm, sc), rate, format), rack, io);
        }
      case RecoverSession(h, l, b, p, rate, format, rack, io) =>
        var facts := if p.Some? && p.value in w.files then w.files[p.value].stamp else 0;
        OpenLeavesFlags(w.svc, OpenDoc(w.nextSession, rate, h, false, p, format, true, SidecarState(0, h.current.markers, facts), []), rack, io);
      case CloseDoc(io) => OpenLeavesFlags(w.svc, NewRecording(0, 0, DEFAULT_FORMAT), None, io);
      case StartRecording(rate, format, replace, creates, clipIo, io) =>
        TakesLeaveFlags(w.svc, rate, format, replace, if creates then Some(w.nextSession) else None, None, clipIo, io);
      case EndTake(take, io, creates, clipIo) =>
        TakesLeaveFlags(w.svc, 0, DEFAULT_FORMAT, false, if creates then Some(w.nextSession) else None, AsEdit(take), clipIo, io);
      case ForeignWrite(_, _) =>
    }
  }

  lemma OthersLeaveFlags(w: World, c: Cmd)
    requires !IsJobCommand(c)
    ensures SameFlags(w.svc, Do(w, c).svc) && Do(w, c).tasks == w.tasks && Do(w, c).nextTask == w.nextTask
  {
    if c.OpenFile? || c.RecoverSession? || c.CloseDoc? || c.StartRecording? || c.EndTake? || c.ForeignWrite? {
      DocumentsLeaveFlags(w, c);
    } else if c.DoEdit? {
      hide EditOut, Do;
      DoPlain(w, c);
      EditsLeaveFlags(w.svc, c.edit, c.io);
    } else {
      hide *;
      PlainCommandsLeaveFlags(w, c);
    }
  }

  lemma PlainCommandsLeaveFlags(w: World, c: Cmd)
    requires c.DoMarkers? || c.DoHistory? || c.DoRack? || c.StartRecordOp? || c.EndTakeOp? || c.CancelTake? || c.StoreChange? || c.TrimUndo?
    ensures SameFlags(w.svc, Do(w, c).svc) && Do(w, c).tasks == w.tasks && Do(w, c).nextTask == w.nextTask
  {
    hide Do, Learn, KeptBakes, DropOldest, RecordFloor, PlainOut;
    if c.TrimUndo? {
      DoDocument(w, c);
    } else {
      DoPlain(w, c);
      PlainOutLeavesFlags(w.svc, c);
    }
  }

  lemma PlainOutLeavesFlags(s: Svc, c: Cmd)
    requires c.DoMarkers? || c.DoHistory? || c.DoRack? || c.StartRecordOp? || c.EndTakeOp? || c.CancelTake? || c.StoreChange?
    ensures SameFlags(s, PlainOut(s, c))
  {
    hide Undo, Redo, CommitInternal, CommitEdit, EditOut;
  }

  lemma FinishingLowersFlags(s: Svc, t: Task, plan: NormalizePlan, rendered: Samples, io: bool)
    requires t.EditJob? && RangeOk(t.src)
    ensures SameFlags(s.(normalizeBusy := false), FinishNormalize(s, t.src, plan, io).svc)
    ensures SameFlags(s.(normalizeBusy := false, bakeRunning := false),
                      FinishBake(s, t.src, BakeEdit(t.src, rendered, t.model), [], io).svc)
  {
    hide Apply, ReplaceRangeEdit, BakeEdit;
  }

  lemma FinishingPasteLowersFlag(s: Svc, src: PasteSource, written: Pieces, io: bool)
    requires TargetOk(src)
    ensures SameFlags(s.(pasteBusy := false), FinishPaste(s, src, written, io).svc)
  {
    hide Apply, PasteEdit;
  }

  /** A refused start leaves the flags; a leaked one has a flag up without a job. */
  lemma StartNormalizeOwns(w: World, kind: JobKind, start: nat, end: nat, spawns: bool)
    requires FlagInv(w)
    ensures var c := StartNormalize(kind, start, end, spawns);
            FlagInv(Do(w, c)) <==> FlagOrderly(w, c)
  {
    hide Learn, KeptBakes, Do;
    DoEditJob(w, StartNormalize(kind, start, end, spawns));
    var v := StepStartNormalize(w, kind, start, end, spawns);
    if kind == Bake || BeginNormalize(w.svc, start, end).reply.Err? {
      SameOwns(w, v);
    } else if spawns {
      AddOwns(w, v, EditJob(kind, BeginNormalize(w.svc, start, end).reply.value, []));
    } else {
      assert v.svc.normalizeBusy && !Live(v.tasks, AnyEdit);
    }
  }

  lemma StartBakeOwns(w: World, model: Rack, start: nat, end: nat, spawns: bool)
    requires FlagInv(w)
    ensures FlagInv(StepStartBake(w, model, start, end, spawns))
  {
    hide Learn, KeptBakes, Owns;
    var v := StepStartBake(w, model, start, end, spawns);
    BakeIsEdit(w);
    if IsActive(model) && BeginBake(w.svc, start, end).reply.Ok? && spawns {
      AddOwns(w, v, EditJob(Bake, BeginBake(w.svc, start, end).reply.value, model));
    } else {
      SameOwns(w, v);
    }
  }

  lemma EndEditJobOwns(w: World, c: Cmd)
    requires FlagInv(w) && (c.EndNormalize? || c.StopNormalize? || c.EndBake? || c.StopBake?)
    ensures FlagInv(Do(w, c))
  {
    hide Learn, KeptBakes, FlagInv, FinishNormalize, FinishBake, BakeEdit, Do, StepStartNormalize, StepStartBake;
    DoEditJob(w, c);
    var v := Do(w, c);
    var id := c.task;
    if id in w.tasks && w.tasks[id].EditJob? && RangeOk(w.tasks[id].src) && v.tasks == w.tasks - {id} {
      LiveFlags(w, id);
      var t := w.tasks[id];
      FinishingLowersFlags(w.svc, t, if c.EndNormalize? then c.plan else NoOp, if c.EndBake? then c.rendered else [],
                           if c.EndNormalize? || c.EndBake? then c.io else true);
      if (t.kind == Bake) == (c.EndBake? || c.StopBake?) {
        DropOwns(w, v, id);
      } else {
        SameOwns(w, v);
      }
    } else {
      SameOwns(w, v);
    }
  }

  lemma PasteOwns(w: World, c: Cmd)
    requires FlagInv(w) && (c.StartPaste? || c.EndPaste? || c.StopPaste?)
    ensures FlagInv(Do(w, c))
  {
    hide Learn, KeptBakes, FlagInv, FinishPaste, Do;
    DoPaste(w, c);
    var v := Do(w, c);
    if c.StartPaste? {
      if BeginPaste(w.svc, c.target).reply.Ok? {
        AddOwns(w, v, PasteJob(BeginPaste(w.svc, c.target).reply.value));
      } else {
        SameOwns(w, v);
      }
    } else if HasPasteJob(w, c.task) {
      LiveFlags(w, c.task);
      var src := w.tasks[c.task].paste;
      if c.EndPaste? && w.clipFile.Some? && |w.clipFile.value| >= |src.clip.audio| {
        FinishingPasteLowersFlag(w.svc, src,
          Pieces(src.session, c.table, if src.clip.rateHz == src.rateHz then w.clipFile.value[..|src.clip.audio|] else c.resampled), c.io);
      }
      if c.task in v.tasks {
        SameOwns(w, v);
      } else {
        DropOwns(w, v, c.task);
      }
    } else {
      SameOwns(w, v);
    }
  }

  lemma StartSaveOwns(w: World, s: Svc, saveAs: Option<(Path, Format)>)
    requires FlagInv(w) && !w.svc.saveRunning && s == w.svc.(saveRunning := true)
    ensures FlagInv(AddTask(WithSvc(w, s), SaveJob(saveAs, Begun)))
  {
    hide FlagInv, Learn, KeptBakes;
    AddOwns(w, AddTask(WithSvc(w, s), SaveJob(saveAs, Begun)), SaveJob(saveAs, Begun));
  }

  lemma SaveWriteOwns(w: World, id: nat, ok: bool, sidecarOk: bool)
    requires FlagInv(w)
    ensures FlagInv(StepSaveWrite(w, id, ok, sidecarOk))
  {
    hide FlagInv, WrittenImage;
    var v := StepSaveWrite(w, id, ok, sidecarOk);
    if HasSaveJob(w, id) && w.tasks[id].phase.Prepared? {
      MoveOwns(w, v, id, v.tasks[id]);
    } else {
      SameOwns(w, v);
    }
  }

  lemma FinishingSaveLowersFlag(s: Svc, prep: SavePrep, saveAs: bool, outcome: WriteOutcome, io: bool)
    ensures SameFlags(s.(saveRunning := false), FinishSave(s, prep, saveAs, outcome, io).svc)
  {
    hide SavedSidecar, MarkSavedAt;
  }

  lemma SaveEndOwns(w: World, id: nat, io: bool)
    requires FlagInv(w)
    ensures FlagInv(StepSaveEnd(w, id, io))
  {
    hide FlagInv, FinishSave, Learn, KeptBakes;
    var v := StepSaveEnd(w, id, io);
    if HasSaveJob(w, id) && w.tasks[id].phase.WriteDone? {
      var t := w.tasks[id];
      FinishingSaveLowersFlag(w.svc, t.phase.prep, t.saveAs.Some?, t.phase.outcome, io);
      LiveFlags(w, id);
      DropOwns(w, v, id);
    } else {
      SameOwns(w, v);
    }
  }

  lemma SaveOwns(w: World, c: Cmd)
    requires FlagInv(w) && (c.StartSave? || c.StartSaveAs? || c.SaveWrite? || c.SaveEnd?)
    ensures FlagInv(Do(w, c))
  {
    hide Do, FlagInv, AddTask, WithSvc, StepSaveWrite, StepSaveEnd, StepSavePrepare;
    DoSave(w, c);
    match c
    case StartSave(overwrite, preflight) =>
      UnchangedOwns(w);
      if BeginSave(w.svc, OnDisk(w), overwrite, preflight).reply.Ok? {
        StartSaveOwns(w, w.svc.(saveRunning := true), None);
      }
    case StartSaveAs(path, format, preflight) =>
      UnchangedOwns(w);
      if BeginSaveAs(w.svc, format, preflight).reply.Ok? {
        StartSaveOwns(w, w.svc.(saveRunning := true), Some((path, format)));
      }
    case SaveWrite(id, ok, sidecarOk) => SaveWriteOwns(w, id, ok, sidecarOk);
    case SaveEnd(id, io) => SaveEndOwns(w, id, io);
  }

  lemma UnchangedOwns(w: World)
    requires FlagInv(w)
    ensures FlagInv(WithSvc(w, w.svc))
  {
    hide FlagInv, Learn, KeptBakes;
    SameOwns(w, WithSvc(w, w.svc));
  }

  /** A save that finds no document to capture is gone, and its flag stays up for good. */
  lemma PrepareOwns(w: World, id: nat)
    requires FlagInv(w)
    ensures FlagInv(Do(w, SavePrepare(id))) <==> FlagOrderly(w, SavePrepare(id))
  {
    hide PrepareSave, Do;
    DoSave(w, SavePrepare(id));
    var v := StepSavePrepare(w, id);
    if !HasSaveJob(w, id) || !w.tasks[id].phase.Begun? {
    } else if id in v.tasks {
      MoveOwns(w, v, id, v.tasks[id]);
    } else {
      LiveFlags(w, id);
      assert v.svc.saveRunning && !Live(v.tasks, AnySave);
    }
  }

  /** A command keeps every flag owned exactly when it is in order. */
  lemma StepOwns(w: World, c: Cmd)
    requires FlagInv(w)
    ensures FlagInv(Do(w, c)) <==> FlagOrderly(w, c)
  {
    hide FlagInv, Do;
    if !IsJobCommand(c) {
      OthersLeaveFlags(w, c);
      SameOwns(w, Do(w, c));
    } else if c.StartNormalize? {
      StartNormalizeOwns(w, c.kind, c.start, c.end, c.spawns);
    } else if c.StartBake? {
      DoEditJob(w, c);
      StartBakeOwns(w, c.model, c.start, c.end, c.spawns);
    } else if c.SavePrepare? {
      PrepareOwns(w, c.task);
    } else if c.StartPaste? || c.EndPaste? || c.StopPaste? {
      PasteOwns(w, c);
    } else if c.StartSave? || c.StartSaveAs? || c.SaveWrite? || c.SaveEnd? {
      SaveOwns(w, c);
    } else {
      EndEditJobOwns(w, c);
    }
  }

  ghost predicate FlagOrderlyRun(w: World, cs: seq<Cmd>)
    decreases |cs|
  {
    cs != [] ==> FlagOrderly(w, cs[0]) && FlagOrderlyRun(Do(w, cs[0]), cs[1..])
  }

  /**
   * After any orderly run every flag is up exactly while its one job lives, a bake keeps the
   * document busy, and there is never more than one peak, LUFS or bake job.
   */
  lemma {:induction false} FlagsAreOwned(w: World, cs: seq<Cmd>)
    requires FlagInv(w) && FlagOrderlyRun(w, cs)
    ensures FlagInv(Run(w, cs))
    ensures Run(w, cs).svc.bakeRunning ==> Run(w, cs).svc.normalizeBusy
    decreases |cs|
  {
    hide FlagInv, FlagOrderly, Do;
    if cs != [] {
      StepOwns(w, cs[0]);
      FlagsAreOwned(Do(w, cs[0]), cs[1..]);
    } else {
      BakeIsEdit(w);
    }
  }

  lemma StartOwned()
    ensures FlagInv(START)
  {}

  // --- After a job has ended -----------------------------------------------------------------------

  /** A command only adds jobs under ids that were never used. */
  ghost predicate FreshIds(w: World, v: World) {
    w.nextTask <= v.nextTask && forall i :: i in v.tasks ==> i in w.tasks || w.nextTask <= i
  }

  lemma EditJobIds(w: World, c: Cmd)
    requires c.StartNormalize? || c.EndNormalize? || c.StopNormalize? || c.StartBake? || c.EndBake? || c.StopBake?
    ensures FreshIds(w, Do(w, c))
  {
    hide Do, Learn, KeptBakes, BeginNormalize, FinishNormalize, FinishBake, BakeEdit, AbandonBake;
    DoEditJob(w, c);
  }

  lemma PasteIds(w: World, c: Cmd)
    requires c.StartPaste? || c.EndPaste? || c.StopPaste?
    ensures FreshIds(w, Do(w, c))
  {
    hide Do, Learn, KeptBakes, BeginPaste, FinishPaste;
    DoPaste(w, c);
  }

  lemma SaveIds(w: World, c: Cmd)
    requires c.StartSave? || c.StartSaveAs? || c.SavePrepare? || c.SaveWrite? || c.SaveEnd?
    ensures FreshIds(w, Do(w, c))
  {
    hide Do, Learn, KeptBakes, BeginSave, BeginSaveAs, PrepareSave, WrittenImage, FinishSave;
    DoSave(w, c);
  }

  lemma StepIds(w: World, c: Cmd)
    ensures FreshIds(w, Do(w, c))
  {
    hide Do;
    if !IsJobCommand(c) {
      OthersLeaveFlags(w, c);
    } else if c.StartPaste? || c.EndPaste? || c.StopPaste? {
      PasteIds(w, c);
    } else if c.StartSave? || c.StartSaveAs? || c.SavePrepare? || c.SaveWrite? || c.SaveEnd? {
      SaveIds(w, c);
    } else {
      EditJobIds(w, c);
    }
  }

  lemma {:induction false} RunIds(w: World, cs: seq<Cmd>)
    ensures FreshIds(w, Run(w, cs))
    decreases |cs|
  {
    hide Do;
    if cs != [] {
      StepIds(w, cs[0]);
      RunIds(Do(w, cs[0]), cs[1..]);
    }
  }

  lemma {:induction false} RunSplits(w: World, cs: seq<Cmd>, more: seq<Cmd>)
    ensures Run(w, cs + more) == Run(Run(w, cs), more)
    ensures FlagOrderlyRun(w, cs + more) ==> FlagOrderlyRun(w, cs)
    decreases |cs|
  {
    hide Do, FlagOrderly;
    if cs == [] {
      assert cs + more == more;
    } else {
      assert (cs + more)[1..] == cs[1..] + more;
      RunSplits(Do(w, cs[0]), cs[1..], more);
    }
  }

  /** A flag is up for some job other than `id`. */
  ghost predicate HeldByAnother(w: World, id: nat, kind: Task -> bool) {
    exists j :: j in w.tasks && j != id && kind(w.tasks[j])
  }

  /**
   * Job `id` has ended by the end of `cs`. Whenever after that its thread sends the terminal tick,
   * whatever the others did in between: a flag that is up then is another job's, never its own.
   */
  lemma EndedJobHoldsNoFlag(cs: seq<Cmd>, more: seq<Cmd>, id: nat)
    requires FlagOrderlyRun(START, cs + more)
    requires id < Run(START, cs).nextTask && id !in Run(START, cs).tasks
    ensures var w := Run(START, cs + more);
            && id !in w.tasks
            && (w.svc.normalizeBusy ==> HeldByAnother(w, id, AnyEdit))
            && (w.svc.bakeRunning ==> HeldByAnother(w, id, AnyBake))
            && (w.svc.pasteBusy ==> HeldByAnother(w, id, AnyPaste))
            && (w.svc.saveRunning ==> HeldByAnother(w, id, AnySave))
  {
    hide Run, FlagOrderlyRun;
    StartOwned();
    RunSplits(START, cs, more);
    RunIds(Run(START, cs), more);
    FlagsAreOwned(START, cs + more);
  }
}
