/**
 * No lost update. A normalize or bake job plans against a snapshot without holding the document; in
 * every run whatsoever its result lands on exactly that snapshot or nowhere.
 */
module JobSafety {
  import opened Wrappers
  import opened Audio
  import opened Racks
  import opened Stores
  import opened Document
  import opened Histories
  import opened Ledgers
  import opened EditOps
  import opened Markers
  import opened Service
  import opened World
  import opened Evolution

  /** The number a save of `t` will record, once it has captured one. */
  function CapturedBy(t: Task): Option<SavePrep> {
    if t.SaveJob? && !t.phase.Begun? then Some(t.phase.prep) else None
  }

  ghost predicate PlansFit(src: JobSource) {
    src.range.start < src.range.end <= |src.snapshot.audio|
  }

  /** Job sources name snapshots of their session, by the number the session stamped on them. */
  ghost predicate TaskKnown(t: Task, open: Option<OpenDoc>, l: Ledger, nextSession: nat) {
    && (t.EditJob? ==> PlansFit(t.src) && t.src.session < nextSession)
    && (CapturedBy(t).Some? ==> CapturedBy(t).value.session < nextSession)
    && (open.Some? ==>
          && (t.EditJob? && t.src.session == open.value.session ==>
                t.src.snapshot.rev in l.snaps && l.snaps[t.src.snapshot.rev] == t.src.snapshot)
          && (CapturedBy(t).Some? && CapturedBy(t).value.session == open.value.session ==>
                CapturedBy(t).value.number in l.made))
  }

  ghost predicate TasksKnown(tasks: map<nat, Task>, open: Option<OpenDoc>, l: Ledger, nextSession: nat) {
    forall i :: i in tasks ==> TaskKnown(tasks[i], open, l, nextSession)
  }

  ghost predicate JobInv(w: World) {
    && TasksBounded(w)
    && (w.svc.open.Some? ==> Agrees(w.svc.open.value.hist, w.ledger) && w.svc.open.value.session < w.nextSession)
    && TasksKnown(w.tasks, w.svc.open, w.ledger, w.nextSession)
  }

  /** A task of `v` was there in `w`, or was planned just now against the open document. */
  ghost predicate Planned(t: Task, open: Option<OpenDoc>) {
    && (t.EditJob? ==>
          open.Some? && t.src.session == open.value.session && t.src.snapshot == open.value.hist.current &&
          PlansFit(t.src))
    && (CapturedBy(t).Some? ==>
          open.Some? && CapturedBy(t).value.session == open.value.session &&
          CapturedBy(t).value.number == open.value.hist.CurrentNumber())
  }

  /** What is new in `v` concerns the document that is open before and after. */
  ghost predicate TasksFollow(w: World, v: World) {
    forall i :: i in v.tasks ==>
      || (i in w.tasks && v.tasks[i] == w.tasks[i])
      || (i in w.tasks && CapturedBy(w.tasks[i]).Some? && CapturedBy(v.tasks[i]) == CapturedBy(w.tasks[i]))
      || (v.svc.open == w.svc.open && Planned(v.tasks[i], w.svc.open))
  }

  lemma CurrentKnown(h: History, l: Ledger)
    requires Agrees(h, l)
    ensures h.current.rev in l.snaps && l.snaps[h.current.rev] == h.current && h.CurrentNumber() in l.made
  {
    assert Known(Below(h, |h.undo|), l) && Named(NumberBelow(h, |h.undo|), Below(h, |h.undo|), l);
  }

  /** The document evolved and the ledger grew: every source stays known. */
  lemma EvolvingKeepsJobs(w: World, v: World)
    requires JobInv(w) && TasksBounded(v) && TasksFollow(w, v) && w.nextSession <= v.nextSession
    requires Evolves(w.svc.open, v.svc.open) && v.ledger == Learn(w.ledger, w.svc.open, v.svc.open)
    ensures JobInv(v)
  {
    hide Moves, PlansFit;
    EvolvesAgrees(w.svc.open, v.svc.open, w.ledger);
    if w.svc.open.Some? {
      CurrentKnown(w.svc.open.value.hist, w.ledger);
    }
    GrowingKeepsTasks(w, v);
  }

  lemma GrowingKeepsTasks(w: World, v: World)
    requires TasksKnown(w.tasks, w.svc.open, w.ledger, w.nextSession) && TasksFollow(w, v) && w.nextSession <= v.nextSession
    requires w.svc.open.Some? == v.svc.open.Some?
    requires w.svc.open.Some? ==>
               && v.svc.open.value.session == w.svc.open.value.session < w.nextSession
               && w.svc.open.value.hist.current.rev in w.ledger.snaps
               && w.ledger.snaps[w.svc.open.value.hist.current.rev] == w.svc.open.value.hist.current
               && w.svc.open.value.hist.CurrentNumber() in w.ledger.made
    requires forall n :: n in w.ledger.snaps ==> n in v.ledger.snaps && v.ledger.snaps[n] == w.ledger.snaps[n]
    requires forall n :: n in w.ledger.made ==> n in v.ledger.made
    ensures TasksKnown(v.tasks, v.svc.open, v.ledger, v.nextSession)
  {
    hide PlansFit;
    forall i | i in v.tasks ensures TaskKnown(v.tasks[i], v.svc.open, v.ledger, v.nextSession) {
      if i in w.tasks {
        assert TaskKnown(w.tasks[i], w.svc.open, w.ledger, w.nextSession);
      }
    }
  }

  /** Nothing any job planned concerns a document of a session created just now. */
  lemma FreshKeepsJobs(w: World, v: World)
    requires JobInv(w) && v.tasks == w.tasks && v.nextTask == w.nextTask && w.nextSession <= v.nextSession
    requires v.svc.open.Some? ==>
               v.svc.open.value.session == w.nextSession < v.nextSession && Agrees(v.svc.open.value.hist, v.ledger)
    ensures JobInv(v)
  {
    hide Agrees, PlansFit;
    forall i | i in v.tasks ensures TaskKnown(v.tasks[i], v.svc.open, v.ledger, v.nextSession) {
      assert TaskKnown(w.tasks[i], w.svc.open, w.ledger, w.nextSession);
    }
  }

  // --- Each command -------------------------------------------------------------------------------

  lemma BeginPlans(s: Svc, start: nat, end: nat)
    requires BeginNormalize(s, start, end).reply.Ok?
    ensures var src := BeginNormalize(s, start, end).reply.value;
            s.open.Some? && src.session == s.open.value.session && src.snapshot == s.open.value.hist.current && PlansFit(src)
    ensures BeginNormalize(s, start, end).svc.open == s.open
  {}

  lemma SameTasksFollow(w: World, v: World)
    requires forall i :: i in v.tasks ==> i in w.tasks && v.tasks[i] == w.tasks[i]
    ensures TasksFollow(w, v)
  {}

  lemma StartsFollow(w: World, c: Cmd)
    requires c.StartNormalize? || c.StartBake?
    ensures TasksFollow(w, Do(w, c))
  {
    hide Do, Learn, KeptBakes, PlansFit, StepEndNormalize, StepEndBake, BeginNormalize, HasEditJob;
    DoEditJob(w, c);
    BeginLeavesDocument(w.svc, c.start, c.end);
    if BeginNormalize(w.svc, c.start, c.end).reply.Ok? {
      BeginPlans(w.svc, c.start, c.end);
    }
  }

  lemma BeginLeavesDocument(s: Svc, start: nat, end: nat)
    ensures BeginNormalize(s, start, end).svc.open == s.open
  {}

  lemma EndsFollow(w: World, c: Cmd)
    requires c.EndNormalize? || c.StopNormalize? || c.EndBake? || c.StopBake?
    ensures TasksFollow(w, Do(w, c))
  {
    hide Do, Learn, KeptBakes, FinishNormalize, FinishBake, BakeEdit, StepStartNormalize, StepStartBake, TasksFollow;
    DoEditJob(w, c);
    SameTasksFollow(w, Do(w, c));
  }

  lemma PastesFollow(w: World, c: Cmd)
    requires c.StartPaste? || c.EndPaste? || c.StopPaste?
    ensures TasksFollow(w, Do(w, c))
  {
    hide Do, Learn, KeptBakes, FinishPaste, BeginPaste;
    DoPaste(w, c);
    if c.StartPaste? {
      BeginPasteLeavesDocument(w.svc, c.target);
    }
  }

  lemma BeginPasteLeavesDocument(s: Svc, target: Target)
    ensures BeginPaste(s, target).svc.open == s.open
  {}

  /** Evolving commands: only starting a job adds one, and it plans against the current snapshot. */
  lemma EvolvingFollows(w: World, c: Cmd)
    requires IsEvolving(c)
    ensures TasksFollow(w, Do(w, c))
  {
    hide Do, TasksFollow, PlainOut, Learn, KeptBakes;
    if c.StartNormalize? || c.StartBake? {
      StartsFollow(w, c);
    } else if c.EndNormalize? || c.StopNormalize? || c.EndBake? || c.StopBake? {
      EndsFollow(w, c);
    } else if c.StartPaste? || c.EndPaste? || c.StopPaste? {
      PastesFollow(w, c);
    } else {
      DoPlain(w, c);
      SameTasksFollow(w, Do(w, c));
    }
  }

  lemma OpenKeepsJobs(
    w: World, path: Path, fileMarkers: seq<Marker>, sidecar: Option<seq<Marker>>, rate: nat, format: Format,
    rack: Option<Rack>, io: bool)
    requires JobInv(w)
    ensures JobInv(StepOpen(w, path, fileMarkers, sidecar, rate, format, rack, io))
  {
    hide PlansFit, CuesOf, OpenedMarkers, Placed;
    var v := StepOpen(w, path, fileMarkers, sidecar, rate, format, rack, io);
    if CanOpen(w, path, fileMarkers, sidecar) {
      if Recording(w.svc) {
        GrowingKeepsJobs(w, v);
      } else {
        OpenedFit(w, path, fileMarkers, sidecar);
        NewAgrees(Content(w.files[path].audio, OpenedMarkers(w.files[path], fileMarkers, sidecar)));
        FreshKeepsJobs(w, v);
      }
    }
  }

  lemma GrowingKeepsJobs(w: World, v: World)
    requires JobInv(w) && w.nextSession <= v.nextSession
    requires v == w.(nextSession := v.nextSession, bakes := v.bakes, clipFile := v.clipFile)
    ensures JobInv(v)
  {
    hide Agrees, PlansFit;
    forall i | i in v.tasks ensures TaskKnown(v.tasks[i], v.svc.open, v.ledger, v.nextSession) {
      assert TaskKnown(w.tasks[i], w.svc.open, w.ledger, w.nextSession);
    }
  }

  lemma RecoverKeepsJobs(
    w: World, hist: History, ledger: Ledger, bakes: map<nat, BakeRecord>, path: Option<Path>, rate: nat, format: Format,
    rack: Option<Rack>, io: bool)
    requires JobInv(w)
    ensures JobInv(StepRecover(w, hist, ledger, bakes, path, rate, format, rack, io))
  {
    hide BakesAgree, PlansFit;
    var v := StepRecover(w, hist, ledger, bakes, path, rate, format, rack, io);
    if Agrees(hist, ledger) && BakesAgree(hist, bakes) && !Recording(w.svc) {
      FreshKeepsJobs(w, v);
    }
  }

  lemma CloseKeepsJobs(w: World, io: bool)
    requires JobInv(w)
    ensures JobInv(WithDetached(w, Close(w.svc, io).svc))
  {
    hide Agrees, PlansFit;
    var v := WithDetached(w, Close(w.svc, io).svc);
    if Recording(w.svc) {
      GrowingKeepsJobs(w, v);
    } else {
      FreshKeepsJobs(w, v);
    }
  }

  lemma StartRecordingKeepsJobs(w: World, rate: nat, format: Format, replace: bool, creates: bool, clipIo: bool, io: bool)
    requires JobInv(w)
    ensures JobInv(StepStartRecording(w, rate, format, replace, creates, clipIo, io))
  {
    hide Moves, Agrees, TasksKnown;
    var v := StepStartRecording(w, rate, format, replace, creates, clipIo, io);
    RecordingShape(w.svc, rate, format, replace, if creates then Some(w.nextSession) else None, clipIo, io);
    if Evolves(w.svc.open, v.svc.open) {
      EvolvingKeepsJobs(w, v);
    } else {
      NewAgrees(Content([], []));
      FreshKeepsJobs(w, v);
    }
  }

  lemma EndTakeKeepsJobs(w: World, take: Option<TakeEdit>, io: bool, creates: bool, clipIo: bool)
    requires JobInv(w)
    ensures JobInv(StepEndTake(w, take, io, creates, clipIo))
  {
    hide Moves, Agrees, TasksKnown, CommitTake;
    var created := if creates then Some(w.nextSession) else None;
    TakeEvolves(w.svc, AsEdit(take), io, created, clipIo);
    var v := StepEndTake(w, take, io, creates, clipIo);
    if Evolves(w.svc.open, v.svc.open) {
      EvolvingKeepsJobs(w, v);
    } else {
      NewAgrees(Content([], []));
      FreshKeepsJobs(w, v);
    }
  }

  lemma TrimKeepsJobs(w: World, count: nat)
    requires JobInv(w)
    ensures JobInv(StepTrimUndo(w, count))
  {
    hide PlansFit, Known, Named, Placed, StepTrimUndo;
    if w.svc.open.Some? {
      var d, v := w.svc.open.value, StepTrimUndo(w, count);
      TrimShape(w, count, d);
      DropAgrees(d.hist, w.ledger, Dropped(w, count));
      CurrentKnown(d.hist, w.ledger);
      GrowingKeepsTasks(w, v);
    } else {
      NothingTrimmed(w, count);
      GrowingKeepsJobs(w, StepTrimUndo(w, count));
    }
  }

  lemma NothingTrimmed(w: World, count: nat)
    requires w.svc.open.None?
    ensures var v := StepTrimUndo(w, count);
            v == w.(nextSession := v.nextSession, bakes := v.bakes, clipFile := v.clipFile) && v.nextSession == w.nextSession
  {}

  lemma SaveStartKeepsJobs(w: World, s: Svc, saveAs: Option<(Path, Format)>)
    requires JobInv(w) && s == w.svc.(saveRunning := true)
    ensures JobInv(AddTask(WithSvc(w, s), SaveJob(saveAs, Begun)))
  {
    hide Agrees, PlansFit;
    var v := AddTask(WithSvc(w, s), SaveJob(saveAs, Begun));
    forall i | i in v.tasks ensures TaskKnown(v.tasks[i], v.svc.open, v.ledger, v.nextSession) {
      assert i in w.tasks ==> TaskKnown(w.tasks[i], w.svc.open, w.ledger, w.nextSession);
    }
  }

  lemma PrepareKeepsJobs(w: World, id: nat)
    requires JobInv(w)
    ensures JobInv(StepSavePrepare(w, id))
  {
    hide Agrees, PlansFit, NeedsFull;
    var v := StepSavePrepare(w, id);
    if w.svc.open.Some? {
      CurrentKnown(w.svc.open.value.hist, w.ledger);
    }
    forall i | i in v.tasks ensures TaskKnown(v.tasks[i], v.svc.open, v.ledger, v.nextSession) {
      assert i in w.tasks ==> TaskKnown(w.tasks[i], w.svc.open, w.ledger, w.nextSession);
    }
  }

  lemma WriteKeepsJobs(w: World, id: nat, ok: bool, sidecarOk: bool)
    requires JobInv(w)
    ensures JobInv(StepSaveWrite(w, id, ok, sidecarOk))
  {
    hide Agrees, PlansFit, WrittenImage;
    var v := StepSaveWrite(w, id, ok, sidecarOk);
    forall i | i in v.tasks ensures TaskKnown(v.tasks[i], v.svc.open, v.ledger, v.nextSession) {
      assert i in w.tasks ==> TaskKnown(w.tasks[i], w.svc.open, w.ledger, w.nextSession);
    }
  }

  lemma EndKeepsJobs(w: World, id: nat, io: bool)
    requires JobInv(w)
    ensures JobInv(StepSaveEnd(w, id, io))
  {
    hide Agrees, PlansFit, Learn, KeptBakes;
    var v := StepSaveEnd(w, id, io);
    if HasSaveJob(w, id) && w.tasks[id].phase.WriteDone? {
      EndKeepsDocument(w, id, io);
      forall i | i in v.tasks ensures TaskKnown(v.tasks[i], v.svc.open, v.ledger, v.nextSession) {
        assert TaskKnown(w.tasks[i], w.svc.open, w.ledger, w.nextSession);
      }
    }
  }

  /** Recording a save leaves the session, and the ledger still agrees with it. */
  lemma EndKeepsDocument(w: World, id: nat, io: bool)
    requires JobInv(w) && HasSaveJob(w, id) && w.tasks[id].phase.WriteDone?
    ensures var v := StepSaveEnd(w, id, io);
            && v.svc.open.Some? == w.svc.open.Some? && v.ledger == w.ledger
            && (v.svc.open.Some? ==>
                  v.svc.open.value.session == w.svc.open.value.session && Agrees(v.svc.open.value.hist, v.ledger))
  {
    hide Agrees, PlansFit, KeptBakes;
    var v := StepSaveEnd(w, id, io);
    assert TaskKnown(w.tasks[id], w.svc.open, w.ledger, w.nextSession);
    if w.svc.open.Some? {
      var h, k := w.svc.open.value.hist, v.svc.open.value.hist;
      if k != h {
        SavedAgrees(h, k, w.ledger);
      }
    }
  }

  lemma ForeignKeepsJobs(w: World, path: Path, image: Option<(Samples, Option<multiset<Cue>>)>)
    requires JobInv(w)
    ensures JobInv(StepForeign(w, path, image))
  {
    hide Agrees, PlansFit;
    assert TasksKnown(StepForeign(w, path, image).tasks, w.svc.open, w.ledger, w.nextSession);
  }

  lemma StepKeepsJobInv(w: World, c: Cmd)
    requires JobInv(w)
    ensures JobInv(Do(w, c))
  {
    hide Agrees, TasksKnown, Moves, TasksFollow, StepOpen, StepRecover, StepStartRecording, StepEndTake, StepTrimUndo,
         StepSavePrepare, StepSaveWrite, StepSaveEnd, StepForeign, WithDetached, AddTask, WithSvc;
    if IsEvolving(c) {
      EvolvingFrame(w, c);
      EvolvingFollows(w, c);
      EvolvingKeepsJobs(w, Do(w, c));
    } else {
      match c
      case OpenFile(p, fm, sc, rate, format, rack, io) => OpenKeepsJobs(w, p, fm, sc, rate, format, rack, io);
      case RecoverSession(h, l, b, p, rate, format, rack, io) => RecoverKeepsJobs(w, h, l, b, p, rate, format, rack, io);
      case CloseDoc(io) => CloseKeepsJobs(w, io);
      case StartRecording(rate, format, replace, creates, clipIo, io) =>
        StartRecordingKeepsJobs(w, rate, format, replace, creates, clipIo, io);
      case EndTake(take, io, creates, clipIo) => EndTakeKeepsJobs(w, take, io, creates, clipIo);
      case TrimUndo(count) => TrimKeepsJobs(w, count);
      case StartSave(overwrite, preflight) =>
        SameSvcKeepsJobs(w);
        if BeginSave(w.svc, OnDisk(w), overwrite, preflight).reply.Ok? {
          SaveStartKeepsJobs(w, w.svc.(saveRunning := true), None);
        }
      case StartSaveAs(path, format, preflight) =>
        SameSvcKeepsJobs(w);
        if BeginSaveAs(w.svc, format, preflight).reply.Ok? {
          SaveStartKeepsJobs(w, w.svc.(saveRunning := true), Some((path, format)));
        }
      case SavePrepare(id) => PrepareKeepsJobs(w, id);
      case SaveWrite(id, ok, sidecarOk) => WriteKeepsJobs(w, id, ok, sidecarOk);
      case SaveEnd(id, io) => EndKeepsJobs(w, id, io);
      case ForeignWrite(path, image) => ForeignKeepsJobs(w, path, image);
    }
  }

  lemma SameSvcKeepsJobs(w: World)
    requires JobInv(w)
    ensures JobInv(WithSvc(w, w.svc))
  {
    hide Agrees, PlansFit;
    GrowingKeepsJobs(w, WithSvc(w, w.svc));
  }

  /** Job sources stay known over every run, orderly or not. */
  lemma {:induction false} RunKeepsJobInv(w: World, cs: seq<Cmd>)
    requires JobInv(w)
    ensures JobInv(Run(w, cs))
    decreases |cs|
  {
    hide JobInv, Do;
    if cs != [] {
      StepKeepsJobInv(w, cs[0]);
      RunKeepsJobInv(Do(w, cs[0]), cs[1..]);
    }
  }

  /** In every run the open document's markers lie inside it, in order. */
  lemma MarkersStayPlaced(cs: seq<Cmd>)
    ensures var w := Run(START, cs);
            w.svc.open.Some? ==> Placed(w.svc.open.value.hist.current.markers, |w.svc.open.value.hist.current.audio|)
  {
    hide Run, Placed, TasksKnown;
    StartJobs();
    RunKeepsJobInv(START, cs);
    var w := Run(START, cs);
    if w.svc.open.Some? {
      var h := w.svc.open.value.hist;
      assert Known(Below(h, |h.undo|), w.ledger);
    }
  }

  // --- No lost update ---------------------------------------------------------------------------

  /** `after` is `before` with `samples` in `r`'s place: every sample outside `r` is where it was. */
  ghost predicate OnlyRangeChanged(before: Samples, after: Samples, r: Range, samples: Samples) {
    && r.start <= r.end <= |before|
    && |after| == |before|
    && |samples| == r.end - r.start
    && (forall i :: 0 <= i < |before| && !(r.start <= i < r.end) ==> after[i] == before[i])
    && (forall i :: r.start <= i < r.end ==> after[i] == samples[i - r.start])
  }

  /** What a committed job leaves: one entry on top of the planned snapshot, the range replaced. */
  ghost predicate LandedOn(before: OpenDoc, after: OpenDoc, src: JobSource, samples: Samples) {
    && before.hist.current == src.snapshot
    && OnlyRangeChanged(src.snapshot.audio, after.hist.current.audio, src.range, samples)
    && SameList(src.snapshot.markers, after.hist.current.markers)
    && |after.hist.undo| == |before.hist.undo| + 1
    && after.hist.undo[..|before.hist.undo|] == before.hist.undo
    && after.hist.undo[|before.hist.undo|].snapshot == src.snapshot
    && after == before.(hist := after.hist)
  }

  lemma ReplaceLands(doc: OpenDoc, src: JobSource, samples: Samples, att: Option<BakeAttachment>)
    requires doc.hist.current == src.snapshot && PlansFit(src) && Fills(samples, src)
    ensures var edit := ReplaceRangeEdit(src.range, samples, att);
            Apply(doc.hist, edit).Ok? && edit.ChangesAudio() &&
            LandedOn(doc, doc.(hist := Apply(doc.hist, edit).value.history), src, samples)
  {
    hide Prepare, Splice;
    var edit := ReplaceRangeEdit(src.range, samples, att);
    assert edit.ops[0].ChangesAudio();
    RangeReplaced(src.snapshot.audio, src.snapshot.markers, src.range, samples, att);
    SpliceChangesRange(src.snapshot.audio, src.range, samples);
    var h := Apply(doc.hist, edit).value.history;
    assert h.undo[..|doc.hist.undo|] == doc.hist.undo;
  }

  lemma SpliceChangesRange(audio: Samples, r: Range, samples: Samples)
    requires r.start <= r.end <= |audio| && |samples| == r.end - r.start
    ensures OnlyRangeChanged(audio, Splice(audio, r.start, r.end - r.start, samples), r, samples)
  {}

  /** Replacing a range by as many samples: the splice, and the markers stay as they are. */
  lemma RangeReplaced(audio: Samples, ms: seq<Marker>, r: Range, samples: Samples, att: Option<BakeAttachment>)
    requires r.start < r.end <= |audio| && |samples| == r.end - r.start
    ensures var p := Prepare(audio, ms, ReplaceRangeEdit(r, samples, att));
            && p.Ok? && p.value.changed && p.value.audio == Splice(audio, r.start, r.end - r.start, samples)
            && SameList(ms, p.value.markers)
  {
    hide Splice, Prepare, SameList;
    var edit := ReplaceRangeEdit(r, samples, att);
    SingleReplace(audio, ms, edit.ops[0], att);
    IdentityMoves(audio, ms, edit.ops[0], att);
    assert edit.ops == [edit.ops[0]];
  }

  /** Equal revision numbers of one session are the same snapshot. */
  lemma SameRevSameSnapshot(w: World, id: nat)
    requires JobInv(w) && id in w.tasks && w.tasks[id].EditJob? && w.svc.open.Some?
    requires w.svc.open.value.session == w.tasks[id].src.session
    ensures w.svc.open.value.hist.current.rev == w.tasks[id].src.snapshot.rev <==>
            w.svc.open.value.hist.current == w.tasks[id].src.snapshot
  {
    hide Known, Named, PlansFit;
    CurrentKnown(w.svc.open.value.hist, w.ledger);
    assert TaskKnown(w.tasks[id], w.svc.open, w.ledger, w.nextSession);
  }

  /** The only situation in which a job may commit. */
  ghost predicate MayLand(w: World, src: JobSource) {
    && w.svc.open.Some?
    && w.svc.open.value.session == src.session
    && w.svc.open.value.hist.current == src.snapshot
    && !w.svc.open.value.recording
  }

  lemma NormalizeLands(w: World, id: nat, samples: Samples, io: bool)
    requires JobInv(w) && HasEditJob(w, id, false) && Fills(samples, w.tasks[id].src)
    ensures var src := w.tasks[id].src;
            var out := FinishNormalize(w.svc, src, Gain(samples), io);
            (out.reply.Ok? <==> MayLand(w, src) && io) &&
            (out.reply.Ok? ==> out.svc.open.Some? && LandedOn(w.svc.open.value, out.svc.open.value, src, samples)) &&
            out.svc == w.svc.(normalizeBusy := false, open := out.svc.open) &&
            (out.reply.Err? ==> out.svc.open == w.svc.open)
  {
    hide LandedOn, Agrees, Prepare, ReplaceRangeEdit;
    var src := w.tasks[id].src;
    assert TaskKnown(w.tasks[id], w.svc.open, w.ledger, w.nextSession);
    if w.svc.open.Some? && w.svc.open.value.session == src.session {
      SameRevSameSnapshot(w, id);
      if w.svc.open.value.hist.current == src.snapshot {
        ReplaceLands(w.svc.open.value, src, samples, None);
      }
    }
  }

  lemma BakeLands(w: World, id: nat, rendered: Samples, io: bool)
    requires JobInv(w) && HasEditJob(w, id, true) && Fills(rendered, w.tasks[id].src)
    ensures var t := w.tasks[id];
            var out := FinishBake(w.svc, t.src, BakeEdit(t.src, rendered, t.model), [], io);
            (out.reply.Ok? <==> MayLand(w, t.src) && io) &&
            (out.reply.Ok? ==>
               out.svc.open.Some? && LandedOn(w.svc.open.value, out.svc.open.value, t.src, rendered) && out.svc.rack == []) &&
            out.svc == w.svc.(normalizeBusy := false, bakeRunning := false, open := out.svc.open, rack := out.svc.rack) &&
            (out.reply.Err? ==> out.svc.open == w.svc.open && out.svc.rack == w.svc.rack)
  {
    hide LandedOn, Agrees, Prepare, ReplaceRangeEdit;
    var t := w.tasks[id];
    assert TaskKnown(t, w.svc.open, w.ledger, w.nextSession);
    if w.svc.open.Some? && w.svc.open.value.session == t.src.session {
      SameRevSameSnapshot(w, id);
      if w.svc.open.value.hist.current == t.src.snapshot {
        ReplaceLands(w.svc.open.value, t.src, rendered, Some(BakeAttachment(t.model, [])));
      }
    }
  }

  lemma StartJobs()
    ensures JobInv(START)
  {}

  /**
   * A normalize job after any run of commands. Its gain is committed exactly if its session is still
   * open at the very snapshot it planned from and the journal takes it; then only its range changed.
   * Otherwise document, history, clipboard and rack are what they were.
   */
  lemma NormalizeLandsOrLeaves(cs: seq<Cmd>, id: nat, samples: Samples, io: bool)
    requires HasEditJob(Run(START, cs), id, false) && Fills(samples, Run(START, cs).tasks[id].src)
    ensures var w := Run(START, cs);
            var src := w.tasks[id].src;
            var out := FinishNormalize(w.svc, src, Gain(samples), io);
            (out.reply.Ok? <==> MayLand(w, src) && io) &&
            (out.reply.Ok? ==> out.svc.open.Some? && LandedOn(w.svc.open.value, out.svc.open.value, src, samples)) &&
            out.svc == w.svc.(normalizeBusy := false, open := out.svc.open) &&
            (out.reply.Err? ==> out.svc.open == w.svc.open)
  {
    hide LandedOn, Run, JobInv, FinishNormalize, MayLand;
    StartJobs();
    RunKeepsJobInv(START, cs);
    NormalizeLands(Run(START, cs), id, samples, io);
  }

  /** The same for a bake, which also resets the rack, and only when its edit was committed. */
  lemma BakeLandsOrLeaves(cs: seq<Cmd>, id: nat, rendered: Samples, io: bool)
    requires HasEditJob(Run(START, cs), id, true) && Fills(rendered, Run(START, cs).tasks[id].src)
    ensures var w := Run(START, cs);
            var t := w.tasks[id];
            var out := FinishBake(w.svc, t.src, BakeEdit(t.src, rendered, t.model), [], io);
            (out.reply.Ok? <==> MayLand(w, t.src) && io) &&
            (out.reply.Ok? ==>
               out.svc.open.Some? && LandedOn(w.svc.open.value, out.svc.open.value, t.src, rendered) && out.svc.rack == []) &&
            out.svc == w.svc.(normalizeBusy := false, bakeRunning := false, open := out.svc.open, rack := out.svc.rack) &&
            (out.reply.Err? ==> out.svc.open == w.svc.open && out.svc.rack == w.svc.rack)
  {
    hide LandedOn, Run, JobInv, FinishBake, MayLand, BakeEdit;
    StartJobs();
    RunKeepsJobInv(START, cs);
    BakeLands(Run(START, cs), id, rendered, io);
  }

  /** What it wrote must be readable and change something, and what it planned to replace must still be there. */
  predicate LandsIn(doc: OpenDoc, src: PasteSource, written: Pieces) {
    && doc.session == src.session && !doc.recording
    && Lookup(written.table, doc.store).Some?
    && Changing(written, src.target) && TargetEnd(src.target) <= doc.Len()
  }

  function TargetEnd(t: Target): nat {
    match t
    case Cursor(c) => c
    case Over(r) => r.end
  }

  /** The old sound with `clip` in the target's place. */
  predicate PastedOver(before: Samples, after: Samples, t: Target, clip: Samples) {
    t.Start() <= TargetEnd(t) <= |before| && after == before[..t.Start()] + clip + before[TargetEnd(t)..]
  }

  /**
   * The paste job makes no such check, and undo is not gated by its flag: it splices into whatever
   * its session holds by then, exactly if the planned target still lies inside it.
   */
  lemma PasteLandsAnywhere(s: Svc, src: PasteSource, written: Pieces, io: bool)
    requires TargetOk(src)
    ensures var out := FinishPaste(s, src, written, io);
            && (out.reply.Ok? <==> s.open.Some? && LandsIn(s.open.value, src, written) && io)
            && (out.reply.Ok? ==>
                  && out.svc.open.Some?
                  && PastedOver(s.open.value.hist.current.audio, out.svc.open.value.hist.current.audio, src.target,
                                Lookup(written.table, s.open.value.store).value)
                  && Moved(ContentOf(s.open.value.hist.current), ContentOf(out.svc.open.value.hist.current),
                           src.target.Start(), TargetEnd(src.target) - src.target.Start(), Length(written.table)))
  {
    hide PasteRebind, CommitWith, PasteEdit, Moved, PastedOver;
    RebindLeavesDocument(PasteCommit(s, src, written, io).svc, src, written);
    if s.open.Some? && s.open.value.session == src.session && Lookup(written.table, s.open.value.store).Some? {
      PasteLands(s, s.open.value, src, Lookup(written.table, s.open.value.store).value, io);
    }
  }

  lemma RebindLeavesDocument(s: Svc, src: PasteSource, written: Pieces)
    ensures PasteRebind(s, src, written).open == s.open
  {}

  lemma PasteLands(s: Svc, doc: OpenDoc, src: PasteSource, audio: Samples, io: bool)
    requires s.open == Some(doc) && TargetOk(src)
    ensures var out := CommitWith(s, doc, PasteEdit(audio, src.target), PostPaste(src.target, |audio|), io);
            && (out.reply.Ok? <==> io && Changes(audio, src.target) && !doc.recording && TargetEnd(src.target) <= doc.Len())
            && (out.reply.Ok? ==>
                  && out.svc.open.Some?
                  && PastedOver(doc.hist.current.audio, out.svc.open.value.hist.current.audio, src.target, audio)
                  && Moved(ContentOf(doc.hist.current), ContentOf(out.svc.open.value.hist.current),
                           src.target.Start(), TargetEnd(src.target) - src.target.Start(), |audio|))
  {
    hide Prepare, PasteEdit, PastedOver, Moved;
    PastePrepares(doc.hist.current.audio, doc.hist.current.markers, audio, src.target);
  }

  predicate Changes(clip: Samples, t: Target) {
    clip != [] || (t.Over? && t.range.start < t.range.end)
  }

  lemma PastePrepares(audio: Samples, ms: seq<Marker>, clip: Samples, t: Target)
    requires t.Over? ==> t.range.start <= t.range.end
    ensures PasteEdit(clip, t).ChangesAudio() <==> Changes(clip, t)
    ensures var p := Prepare(audio, ms, PasteEdit(clip, t));
            && (p.Ok? <==> Changes(clip, t) && TargetEnd(t) <= |audio|)
            && (p.Ok? ==> PastedOver(audio, p.value.audio, t, clip))
            && (p.Ok? ==> Moved(Content(audio, ms), Content(p.value.audio, p.value.markers), t.Start(), TargetEnd(t) - t.Start(), |clip|))
  {
    hide SortMarkers, ShiftMarkers, Moved;
    var edit, w := PasteEdit(clip, t), Work(audio, ms, false);
    var op := edit.ops[0];
    assert edit.ops[1..] == [];
    assert ApplyOps(w, edit.ops) == if ApplyOp(w, op).Ok? then ApplyOps(ApplyOp(w, op).value, []) else ApplyOp(w, op);
    if Changes(clip, t) && TargetEnd(t) <= |audio| {
      ReplaceMoves(audio, ms, op, None);
      assert edit.ops == [op];
    }
  }
}
