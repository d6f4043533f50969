/**
 * Save tells the truth. A save captures a revision under the document lock, writes it without the
 * lock and records the captured edit number afterwards. Over every interleaving with edits, undo,
 * recordings, jobs and other documents: a clean document's file holds its audio, and a save that
 * skips the audio file leaves it exactly as a full write would.
 */
module SaveSafety {
  import opened Wrappers
  import opened Audio
  import opened Racks
  import opened Document
  import opened Histories
  import opened Ledgers
  import opened EditOps
  import opened Markers
  import opened Service
  import opened World
  import opened Evolution

  function PrepOf(t: Task): Option<SavePrep> {
    if t.SaveJob? && t.phase.Prepared? then Some(t.phase.prep)
    else if t.SaveJob? && t.phase.WriteDone? then Some(t.phase.prep)
    else None
  }

  /** The write of `t` replaced the file at `path`, and nothing has been recorded about it yet. */
  predicate Landed(t: Task, session: nat, path: Path) {
    && t.SaveJob?
    && t.phase.WriteDone?
    && t.phase.outcome.Written?
    && t.phase.prep.needsFull
    && t.phase.prep.session == session
    && t.phase.prep.path == path
  }

  ghost predicate AwaitingOutcome(w: World, session: nat, path: Path) {
    exists i :: i in w.tasks && Landed(w.tasks[i], session, path)
  }

  /** At most one save job, and never one without the busy flag. */
  ghost predicate OneSave(w: World) {
    && (forall i :: i in w.tasks ==> i < w.nextTask)
    && (forall i, j :: i in w.tasks && j in w.tasks && w.tasks[i].SaveJob? && w.tasks[j].SaveJob? ==> i == j)
    && (forall i :: i in w.tasks && w.tasks[i].SaveJob? ==> w.svc.saveRunning)
    && (forall i :: i in w.tasks && PrepOf(w.tasks[i]).Some? ==> PrepOf(w.tasks[i]).value.session < w.nextSession)
    && (w.svc.open.Some? ==> w.svc.open.value.session < w.nextSession)
  }

  predicate Titled(d: OpenDoc) {
    d.path.Some? && !d.recovered
  }

  /** The baselines of a titled document name what its file holds. */
  ghost predicate OnFile(w: World, d: OpenDoc) {
    Titled(d) ==>
      && d.path.value in w.files
      && d.sidecar.lastSavedAudioRev in w.ledger.audioOf
      && d.hist.savedNumber in w.ledger.made
      && (!AwaitingOutcome(w, d.session, d.path.value) ==>
            && w.files[d.path.value].audio == w.ledger.audioOf[d.sidecar.lastSavedAudioRev]
            && w.files[d.path.value].audio == w.ledger.made[d.hist.savedNumber].audio)
  }

  /** What a save job of the open session captured, and what it has already put on disk. */
  ghost predicate PrepHolds(w: World, d: OpenDoc, t: Task)
    requires PrepOf(t).Some?
  {
    var prep := PrepOf(t).value;
    && prep.number in w.ledger.made
    && w.ledger.made[prep.number] == ContentOf(prep.snapshot)
    && prep.snapshot.audioRev in w.ledger.audioOf
    && w.ledger.audioOf[prep.snapshot.audioRev] == prep.snapshot.audio
    && (t.saveAs.None? ==> d.path == Some(prep.path))
    && (t.saveAs.Some? ==> prep.needsFull && prep.path == t.saveAs.value.0)
    && (!prep.needsFull || (t.phase.WriteDone? && t.phase.outcome.Written?) ==>
          prep.path in w.files && w.files[prep.path].audio == prep.snapshot.audio)
    && (t.phase.WriteDone? && !prep.needsFull ==> t.phase.outcome.Written?)
    && (!prep.needsFull ==> !d.recovered)
  }

  ghost predicate SaveInv(w: World) {
    && OneSave(w)
    && (w.svc.open.Some? ==>
          var d := w.svc.open.value;
          && Agrees(d.hist, w.ledger)
          && OnFile(w, d)
          && (d.recovered ==> d.sidecar.lastSavedAudioRev == 0)
          && (forall i :: i in w.tasks && PrepOf(w.tasks[i]).Some? && PrepOf(w.tasks[i]).value.session == d.session
                ==> PrepHolds(w, d, w.tasks[i])))
  }

  // --- Commands that leave files and saves alone ------------------------------------------------

  lemma SameSavesAwait(w: World, v: World, session: nat, path: Path)
    requires SameSaves(w, v)
    ensures AwaitingOutcome(w, session, path) == AwaitingOutcome(v, session, path)
  {
    if AwaitingOutcome(w, session, path) {
      var i :| i in w.tasks && Landed(w.tasks[i], session, path);
      assert i in v.tasks && Landed(v.tasks[i], session, path);
    }
    if AwaitingOutcome(v, session, path) {
      var i :| i in v.tasks && Landed(v.tasks[i], session, path);
      assert i in w.tasks && Landed(w.tasks[i], session, path);
    }
  }

  /** A document that evolves keeps its relation to the file. */
  lemma EvolvingKeeps(w: World, v: World)
    requires SaveInv(w) && Evolving(w, v)
    ensures SaveInv(v)
  {
    hide Moves;
    EvolvesAgrees(w.svc.open, v.svc.open, w.ledger);
    if v.svc.open.Some? {
      var d := v.svc.open.value;
      if d.path.Some? {
        SameSavesAwait(w, v, d.session, d.path.value);
      }
      assert OnFile(v, d);
      forall i | i in v.tasks && PrepOf(v.tasks[i]).Some? && PrepOf(v.tasks[i]).value.session == d.session
        ensures PrepHolds(v, d, v.tasks[i])
      {
        assert PrepHolds(w, w.svc.open.value, w.tasks[i]);
      }
    }
  }

  /** A document of a fresh session has no save job of its own; only its baselines matter. */
  lemma FreshDocKeeps(w: World, v: World)
    requires SaveInv(w) && SameSaves(w, v)
    requires v.svc.open.Some? ==>
               v.svc.open.value.session == w.nextSession < v.nextSession &&
               Agrees(v.svc.open.value.hist, v.ledger) && OnFile(v, v.svc.open.value) &&
               (v.svc.open.value.recovered ==> v.svc.open.value.sidecar.lastSavedAudioRev == 0)
    ensures SaveInv(v)
  {
    hide Agrees, Moves;
  }

  /** `before` went to `s` for a fresh document or none, with the clipboard detached on the way. */
  lemma NewRecordingKeeps(w: World, v: World, rate: nat, format: Format)
    requires SaveInv(w) && SameSaves(w, v) && w.nextSession < v.nextSession
    requires v.svc.open.Some? &&
             (v.svc.open.value == NewRecording(w.nextSession, rate, format) ||
              v.svc.open.value == NewRecording(w.nextSession, rate, format).(recording := true))
    requires v.ledger == Learn(w.ledger, w.svc.open, v.svc.open)
    ensures SaveInv(v)
  {
    NewAgrees(Content([], []));
    FreshDocKeeps(w, v);
  }

  lemma OpenKeeps(
    w: World, path: Path, fileMarkers: seq<Marker>, sidecar: Option<seq<Marker>>, rate: nat, format: Format,
    rack: Option<Rack>, io: bool)
    requires SaveInv(w)
    ensures SaveInv(StepOpen(w, path, fileMarkers, sidecar, rate, format, rack, io))
  {
    hide CuesOf, Known, Named, OpenedMarkers, ClipFileAfter;
    var v := StepOpen(w, path, fileMarkers, sidecar, rate, format, rack, io);
    if CanOpen(w, path, fileMarkers, sidecar) && !Recording(w.svc) {
      OpenedFit(w, path, fileMarkers, sidecar);
      NewAgrees(Content(w.files[path].audio, OpenedMarkers(w.files[path], fileMarkers, sidecar)));
      FreshDocKeeps(w, v);
    }
  }

  lemma RecoverKeeps(
    w: World, hist: History, ledger: Ledger, bakes: map<nat, BakeRecord>, path: Option<Path>, rate: nat, format: Format,
    rack: Option<Rack>, io: bool)
    requires SaveInv(w)
    ensures SaveInv(StepRecover(w, hist, ledger, bakes, path, rate, format, rack, io))
  {
    hide BakesAgree, Known, Named, Bounded, ClipFileAfter;
    var v := StepRecover(w, hist, ledger, bakes, path, rate, format, rack, io);
    if Agrees(hist, ledger) && BakesAgree(hist, bakes) && !Recording(w.svc) {
      FreshDocKeeps(w, v);
    }
  }

  lemma CloseKeeps(w: World, io: bool)
    requires SaveInv(w)
    ensures SaveInv(WithDetached(w, Close(w.svc, io).svc))
  {}

  lemma SaveInvBounded(w: World)
    requires SaveInv(w)
    ensures TasksBounded(w)
  {}

  lemma StartRecordingKeeps(w: World, rate: nat, format: Format, replace: bool, creates: bool, clipIo: bool, io: bool)
    requires SaveInv(w)
    ensures SaveInv(StepStartRecording(w, rate, format, replace, creates, clipIo, io))
  {
    hide Moves, Agrees, SaveInv;
    var v := StepStartRecording(w, rate, format, replace, creates, clipIo, io);
    RecordingShape(w.svc, rate, format, replace, if creates then Some(w.nextSession) else None, clipIo, io);
    SaveInvBounded(w);
    if Evolves(w.svc.open, v.svc.open) {
      EvolvingKeeps(w, v);
    } else {
      NewRecordingKeeps(w, v, rate, format);
    }
  }

  lemma EndTakeKeeps(w: World, take: Option<TakeEdit>, io: bool, creates: bool, clipIo: bool)
    requires SaveInv(w)
    ensures SaveInv(StepEndTake(w, take, io, creates, clipIo))
  {
    hide Agrees, StepEndTake, SaveInv, Evolving;
    SaveInvBounded(w);
    EndTakeShape(w, take, io, creates, clipIo);
    var v := StepEndTake(w, take, io, creates, clipIo);
    if Evolving(w, v) {
      EvolvingKeeps(w, v);
    } else {
      NewRecordingKeeps(w, v, w.svc.open.value.rateHz, w.svc.open.value.format);
    }
  }

  lemma StartSaveKeeps(w: World, s: Svc, saveAs: Option<(Path, Format)>)
    requires SaveInv(w) && !w.svc.saveRunning && s == w.svc.(saveRunning := true)
    ensures SaveInv(AddTask(WithSvc(w, s), SaveJob(saveAs, Begun)))
  {
    var v := AddTask(WithSvc(w, s), SaveJob(saveAs, Begun));
    if v.svc.open.Some? {
      assert OnFile(w, v.svc.open.value);
      assert OnFile(v, v.svc.open.value);
    }
  }

  // --- The three phases of a save ---------------------------------------------------------------

  /** The save job of a world is the only thing that can be waiting to be recorded. */
  lemma OnlyAwaiting(w: World, id: nat, session: nat, path: Path)
    requires OneSave(w) && HasSaveJob(w, id)
    ensures AwaitingOutcome(w, session, path) == Landed(w.tasks[id], session, path)
  {}

  /** The save job alone moved on; nothing it captured or wrote concerns the open document. */
  lemma NothingAwaits(w: World, session: nat, path: Path)
    requires forall i :: i in w.tasks ==> !w.tasks[i].SaveJob?
    ensures !AwaitingOutcome(w, session, path)
  {}

  lemma PrepareKeeps(w: World, id: nat)
    requires SaveInv(w)
    ensures SaveInv(StepSavePrepare(w, id))
  {
    hide Moves, Placed;
    var v := StepSavePrepare(w, id);
    if HasSaveJob(w, id) && w.tasks[id].phase.Begun? && w.svc.open.Some? {
      var d := w.svc.open.value;
      assert Known(Below(d.hist, |d.hist.undo|), w.ledger);
      assert Named(NumberBelow(d.hist, |d.hist.undo|), Below(d.hist, |d.hist.undo|), w.ledger);
      assert 0 !in w.ledger.audioOf;
      PrepareKeepsOpen(w, id, d);
    }
  }

  /** Capturing writes nothing, so what awaits an outcome stays the same. */
  lemma PrepareLeavesFiles(w: World, id: nat)
    requires OneSave(w)
    ensures var v := StepSavePrepare(w, id);
            && v == w.(tasks := v.tasks) && OneSave(v)
            && (forall session, p :: AwaitingOutcome(v, session, p) == AwaitingOutcome(w, session, p))
            && (HasSaveJob(w, id) && w.tasks[id].phase.Begun? ==> forall session, p :: !AwaitingOutcome(w, session, p))
  {
    hide Agrees, OnFile, PrepHolds;
    var v := StepSavePrepare(w, id);
    forall session, p ensures AwaitingOutcome(v, session, p) == AwaitingOutcome(w, session, p) {
      if AwaitingOutcome(w, session, p) {
        var i :| i in w.tasks && Landed(w.tasks[i], session, p);
        assert i in v.tasks && Landed(v.tasks[i], session, p);
      }
    }
  }

  lemma PrepareKeepsOpen(w: World, id: nat, d: OpenDoc)
    requires SaveInv(w) && w.svc.open == Some(d) && HasSaveJob(w, id) && w.tasks[id].phase.Begun?
    requires d.hist.current.audioRev in w.ledger.audioOf && 0 !in w.ledger.audioOf
    requires w.ledger.audioOf[d.hist.current.audioRev] == d.hist.current.audio
    requires d.hist.CurrentNumber() in w.ledger.made
    requires w.ledger.made[d.hist.CurrentNumber()] == ContentOf(d.hist.current)
    ensures SaveInv(StepSavePrepare(w, id))
  {
    hide Agrees, AwaitingOutcome, OneSave;
    PrepareLeavesFiles(w, id);
    var v := StepSavePrepare(w, id);
    assert OnFile(w, d);
    assert OnFile(v, d);
    if id in v.tasks {
      assert PrepHolds(v, d, v.tasks[id]);
    }
  }

  /** A write moves its job on and may replace a file; the service and the ledger stay. */
  lemma WriteLeaves(w: World, id: nat, ok: bool, sidecarOk: bool)
    requires OneSave(w)
    ensures var v := StepSaveWrite(w, id, ok, sidecarOk);
            && OneSave(v) && v.svc == w.svc && v.ledger == w.ledger
            && (HasSaveJob(w, id) && w.tasks[id].phase.Prepared? ==>
                  forall i :: i in v.tasks && PrepOf(v.tasks[i]).Some? ==> i == id && PrepOf(v.tasks[i]).value == w.tasks[id].phase.prep)
  {}

  lemma WriteKeeps(w: World, id: nat, ok: bool, sidecarOk: bool)
    requires SaveInv(w) && SaveOrderly(w, SaveWrite(id, ok, sidecarOk))
    ensures SaveInv(StepSaveWrite(w, id, ok, sidecarOk))
  {
    if HasSaveJob(w, id) && w.tasks[id].phase.Prepared? {
      hide Agrees, OnFile, PrepHolds, OneSave, StepSaveWrite;
      WriteLeaves(w, id, ok, sidecarOk);
      if w.svc.open.Some? {
        var d := w.svc.open.value;
        WriteKeepsFile(w, id, ok, sidecarOk, d);
        if w.tasks[id].phase.prep.session == d.session {
          WriteKeepsPrep(w, id, ok, sidecarOk, d);
        }
      }
    }
  }

  lemma WriteKeepsFile(w: World, id: nat, ok: bool, sidecarOk: bool, d: OpenDoc)
    requires SaveInv(w) && SaveOrderly(w, SaveWrite(id, ok, sidecarOk)) && w.svc.open == Some(d)
    requires HasSaveJob(w, id) && w.tasks[id].phase.Prepared? && OneSave(StepSaveWrite(w, id, ok, sidecarOk))
    ensures OnFile(StepSaveWrite(w, id, ok, sidecarOk), d)
  {
    hide Agrees, PrepHolds, CuesOf;
    var v := StepSaveWrite(w, id, ok, sidecarOk);
    assert OnFile(w, d);
    if d.path.Some? {
      OnlyAwaiting(w, id, d.session, d.path.value);
      OnlyAwaiting(v, id, d.session, d.path.value);
    }
  }

  lemma WriteKeepsPrep(w: World, id: nat, ok: bool, sidecarOk: bool, d: OpenDoc)
    requires SaveInv(w) && w.svc.open == Some(d) && HasSaveJob(w, id) && w.tasks[id].phase.Prepared?
    requires w.tasks[id].phase.prep.session == d.session
    ensures PrepHolds(StepSaveWrite(w, id, ok, sidecarOk), d, StepSaveWrite(w, id, ok, sidecarOk).tasks[id])
  {
    hide Agrees, OnFile, CuesOf, OneSave;
    assert PrepHolds(w, d, w.tasks[id]);
  }

  lemma EndKeeps(w: World, id: nat, io: bool)
    requires SaveInv(w) && SaveOrderly(w, SaveEnd(id, io))
    ensures SaveInv(StepSaveEnd(w, id, io))
  {
    hide Agrees, Placed, OnFile, PrepHolds;
    var v := StepSaveEnd(w, id, io);
    if HasSaveJob(w, id) && w.tasks[id].phase.WriteDone? {
      assert OneSave(v);
      if w.svc.open.Some? {
        EndKeepsFile(w, id, io, w.svc.open.value);
        EndAgrees(w, id, io, w.svc.open.value);
      }
    }
  }

  /** What ending a save leaves: the same document, its baselines moved if the write is its own. */
  lemma EndLeaves(w: World, id: nat, io: bool, d: OpenDoc)
    requires OneSave(w) && w.svc.open == Some(d) && HasSaveJob(w, id) && w.tasks[id].phase.WriteDone?
    ensures var v, t := StepSaveEnd(w, id, io), w.tasks[id];
            var prep := t.phase.prep;
            && v.svc.open.Some? && v.files == w.files && v.ledger == w.ledger
            && (forall p :: !AwaitingOutcome(v, d.session, p))
            && v.svc.open.value ==
                 (if t.phase.outcome.Failed? || prep.session != d.session then d
                  else
                    var doc := d.(sidecar := SavedSidecar(d, prep, t.phase.outcome.stamp, t.phase.outcome.sidecarOk));
                    if !io then doc
                    else
                      var marked := doc.(hist := MarkSavedAt(doc.hist, prep.number), recovered := false);
                      if t.saveAs.Some? then marked.(path := Some(prep.path), format := prep.format) else marked)
  {
    hide Agrees, Placed, KeptBakes, OnFile, PrepHolds, SavedSidecar;
    var v := StepSaveEnd(w, id, io);
    forall p ensures !AwaitingOutcome(v, d.session, p) {
      NothingAwaits(v, d.session, p);
    }
  }

  lemma EndLeavesNoCapture(w: World, id: nat, io: bool)
    requires OneSave(w) && HasSaveJob(w, id) && w.tasks[id].phase.WriteDone?
    ensures var v := StepSaveEnd(w, id, io);
            forall i :: i in v.tasks ==> PrepOf(v.tasks[i]).None?
  {}

  lemma EndKeepsFile(w: World, id: nat, io: bool, d: OpenDoc)
    requires SaveInv(w) && SaveOrderly(w, SaveEnd(id, io)) && w.svc.open == Some(d)
    requires HasSaveJob(w, id) && w.tasks[id].phase.WriteDone?
    ensures var v := StepSaveEnd(w, id, io);
            v.svc.open.Some? && OnFile(v, v.svc.open.value) &&
            (v.svc.open.value.recovered ==> v.svc.open.value.sidecar.lastSavedAudioRev == 0)
  {
    hide Agrees, Placed, KeptBakes, StepSaveEnd, AwaitingOutcome;
    EndLeaves(w, id, io, d);
    assert OnFile(w, d);
    if d.path.Some? {
      OnlyAwaiting(w, id, d.session, d.path.value);
    }
    if w.tasks[id].phase.prep.session == d.session {
      assert PrepHolds(w, d, w.tasks[id]);
    }
  }

  lemma EndAgrees(w: World, id: nat, io: bool, d: OpenDoc)
    requires SaveInv(w) && w.svc.open == Some(d) && HasSaveJob(w, id) && w.tasks[id].phase.WriteDone?
    ensures var v := StepSaveEnd(w, id, io);
            v.svc.open.Some? && v.ledger == w.ledger && Agrees(v.svc.open.value.hist, v.ledger)
  {
    hide Agrees, Placed, KeptBakes, OnFile, StepSaveEnd, AwaitingOutcome;
    EndLeaves(w, id, io, d);
    var e := StepSaveEnd(w, id, io).svc.open.value;
    if w.tasks[id].phase.prep.session == d.session {
      assert PrepHolds(w, d, w.tasks[id]);
    }
    if e.hist != d.hist {
      SavedAgrees(d.hist, e.hist, w.ledger);
    }
  }

  // --- Which commands are in order --------------------------------------------------------------

  /** A file some claim is about: the open document's, or one a save job is at work on. */
  ghost predicate Watched(w: World, path: Path) {
    || (w.svc.open.Some? && w.svc.open.value.path == Some(path))
    || (exists i :: i in w.tasks && PrepOf(w.tasks[i]).Some? && PrepOf(w.tasks[i]).value.path == path)
  }

  /**
   * The four things that can part a document from its file: another program writes it; a save of a
   * document that was closed meanwhile lands on it; the journal append after a full write fails;
   * the disk check moves the undo floor while number 0 is a saved or a captured state.
   */
  ghost predicate SaveOrderly(w: World, c: Cmd) {
    match c
    case ForeignWrite(path, _) => !Watched(w, path)
    case SaveWrite(id, ok, _) => !(ok && WritesForStranger(w, id))
    case SaveEnd(id, io) => io || !RecordsFullWrite(w, id)
    case TrimUndo(count) => Dropped(w, count) == 0 || !FloorMatters(w)
    case _ => true
  }

  /** The save's document is gone, and another one is open on the very path it writes. */
  predicate WritesForStranger(w: World, id: nat) {
    && HasSaveJob(w, id)
    && w.tasks[id].phase.Prepared?
    && w.tasks[id].phase.prep.needsFull
    && w.svc.open.Some?
    && w.svc.open.value.session != w.tasks[id].phase.prep.session
    && w.svc.open.value.path == Some(w.tasks[id].phase.prep.path)
  }

  /** The outcome to record is a full write of the open session. */
  predicate RecordsFullWrite(w: World, id: nat) {
    && HasSaveJob(w, id)
    && w.tasks[id].phase.WriteDone?
    && w.tasks[id].phase.outcome.Written?
    && w.tasks[id].phase.prep.needsFull
    && w.svc.open.Some?
    && w.svc.open.value.session == w.tasks[id].phase.prep.session
  }

  /** Number 0 is the saved state, or the one a save has captured. */
  ghost predicate FloorMatters(w: World) {
    && w.svc.open.Some?
    && (w.svc.open.value.hist.savedNumber == 0 ||
        exists i :: CapturedFloor(w, i))
  }

  /** Save job `i` has captured number 0 of the open session. */
  predicate CapturedFloor(w: World, i: nat) {
    && w.svc.open.Some? && i in w.tasks && PrepOf(w.tasks[i]).Some?
    && PrepOf(w.tasks[i]).value.session == w.svc.open.value.session
    && PrepOf(w.tasks[i]).value.number == 0
  }

  lemma TrimKeeps(w: World, count: nat)
    requires SaveInv(w) && SaveOrderly(w, TrimUndo(count))
    ensures SaveInv(StepTrimUndo(w, count))
  {
    if w.svc.open.Some? {
      TrimKeepsDocument(w, count, w.svc.open.value);
    }
  }

  lemma TrimKeepsDocument(w: World, count: nat, d: OpenDoc)
    requires SaveInv(w) && SaveOrderly(w, TrimUndo(count)) && w.svc.open == Some(d)
    ensures SaveInv(StepTrimUndo(w, count))
  {
    hide Agrees, OnFile, PrepHolds, StepTrimUndo, OneSave, Below;
    TrimShape(w, count, d);
    var v := StepTrimUndo(w, count);
    var e := v.svc.open.value;
    FloorNamed(d.hist, w.ledger);
    DropAgrees(d.hist, w.ledger, Dropped(w, count));
    if FloorMatters(w) {
      assert v.ledger == w.ledger;
    } else {
      assert forall i :: i in w.tasks && PrepOf(w.tasks[i]).Some? && PrepOf(w.tasks[i]).value.session == d.session
                ==> !CapturedFloor(w, i);
    }
    TrimKeepsFile(w, v, d, e);
  }

  lemma FloorNamed(h: History, l: Ledger)
    requires Agrees(h, l)
    ensures RecordFloor(l, h) == l && DropOldest(h, 0) == h
  {
    assert Named(NumberBelow(h, 0), Below(h, 0), l);
    assert l.made[0 := ContentOf(Below(h, 0))] == l.made;
  }

  lemma TrimKeepsFile(w: World, v: World, d: OpenDoc, e: OpenDoc)
    requires SaveInv(w) && w.svc.open == Some(d) && v == w.(svc := v.svc, ledger := v.ledger, bakes := v.bakes)
    requires v.svc == w.svc.(open := Some(e)) && e == d.(hist := e.hist) && e.hist.savedNumber == d.hist.savedNumber
    requires Agrees(e.hist, v.ledger)
    requires v.ledger.audioOf == w.ledger.audioOf
    requires forall n :: n in w.ledger.made ==> n in v.ledger.made
    requires forall n :: n in w.ledger.made && n != 0 ==> v.ledger.made[n] == w.ledger.made[n]
    requires v.ledger.made != w.ledger.made ==>
               d.hist.savedNumber != 0 &&
               forall i :: i in w.tasks && PrepOf(w.tasks[i]).Some? && PrepOf(w.tasks[i]).value.session == d.session ==>
                             PrepOf(w.tasks[i]).value.number != 0
    ensures SaveInv(v)
  {
    hide Agrees;
    assert forall session, path :: AwaitingOutcome(w, session, path) == AwaitingOutcome(v, session, path);
    assert OnFile(w, d);
    assert OnFile(v, e);
    forall i | i in v.tasks && PrepOf(v.tasks[i]).Some? && PrepOf(v.tasks[i]).value.session == e.session
      ensures PrepHolds(v, e, v.tasks[i])
    {
      assert PrepHolds(w, d, w.tasks[i]);
    }
  }
}
