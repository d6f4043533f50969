/**
 * What the save invariant gives over whole runs, and the exact conditions under which the steps it
 * excludes part a document from its file.
 */
module SaveRuns {
  import opened Wrappers
  import opened Audio
  import opened Racks
  import opened Document
  import opened Histories
  import opened Ledgers
  import opened EditOps
  import opened Service
  import opened World
  import opened Evolution
  import opened SaveSafety

  /** Another program's write to a file nothing is about. */
  lemma ForeignKeeps(w: World, path: Path, image: Option<(Samples, Option<multiset<Cue>>)>)
    requires SaveInv(w) && !Watched(w, path)
    ensures SaveInv(StepForeign(w, path, image))
  {
    hide Agrees;
    var v := StepForeign(w, path, image);
    assert forall session, p :: AwaitingOutcome(w, session, p) == AwaitingOutcome(v, session, p);
    if w.svc.open.Some? {
      var d := w.svc.open.value;
      assert OnFile(w, d);
      assert OnFile(v, d);
      forall i | i in v.tasks && PrepOf(v.tasks[i]).Some? && PrepOf(v.tasks[i]).value.session == d.session
        ensures PrepHolds(v, d, v.tasks[i])
      {
        assert PrepHolds(w, d, w.tasks[i]);
      }
    }
  }

  lemma UnchangedKeeps(w: World)
    requires SaveInv(w)
    ensures SaveInv(WithSvc(w, w.svc))
  {
    hide Agrees, Moves;
    SvcEvolving(w, w.svc);
    EvolvingKeeps(w, WithSvc(w, w.svc));
  }

  /** Every orderly command keeps the invariant. */
  lemma StepKeepsSaveInv(w: World, c: Cmd)
    requires SaveInv(w) && SaveOrderly(w, c)
    ensures SaveInv(Do(w, c))
  {
    hide SaveInv, Moves, Evolving, WithSvc, StepOpen, StepRecover, StepStartRecording, StepEndTake, StepTrimUndo,
         StepSavePrepare, StepSaveWrite, StepSaveEnd, StepForeign, WithDetached, AddTask, Watched, FloorMatters;
    if IsEvolving(c) {
      SaveInvBounded(w);
      EvolvingFrame(w, c);
      EvolvingKeeps(w, Do(w, c));
    } else {
      UnchangedKeeps(w);
      match c
      case OpenFile(p, fm, sc, rate, format, rack, io) => OpenKeeps(w, p, fm, sc, rate, format, rack, io);
      case RecoverSession(h, l, b, p, rate, format, rack, io) => RecoverKeeps(w, h, l, b, p, rate, format, rack, io);
      case CloseDoc(io) => CloseKeeps(w, io);
      case StartRecording(rate, format, replace, creates, clipIo, io) =>
        StartRecordingKeeps(w, rate, format, replace, creates, clipIo, io);
      case EndTake(take, io, creates, clipIo) => EndTakeKeeps(w, take, io, creates, clipIo);
      case TrimUndo(count) => TrimKeeps(w, count);
      case StartSave(overwrite, preflight) =>
        if BeginSave(w.svc, OnDisk(w), overwrite, preflight).reply.Ok? {
          StartSaveKeeps(w, w.svc.(saveRunning := true), None);
        }
      case StartSaveAs(path, format, preflight) =>
        if BeginSaveAs(w.svc, format, preflight).reply.Ok? {
          StartSaveKeeps(w, w.svc.(saveRunning := true), Some((path, format)));
        }
      case SavePrepare(id) => PrepareKeeps(w, id);
      case SaveWrite(id, ok, sidecarOk) => WriteKeeps(w, id, ok, sidecarOk);
      case SaveEnd(id, io) => EndKeeps(w, id, io);
      case ForeignWrite(path, image) => ForeignKeeps(w, path, image);
    }
  }

  /** Every command of the run is in order where it happens. */
  ghost predicate OrderlyRun(w: World, cs: seq<Cmd>)
    decreases |cs|
  {
    cs != [] ==> SaveOrderly(w, cs[0]) && OrderlyRun(Do(w, cs[0]), cs[1..])
  }

  lemma {:induction false} RunKeepsSaveInv(w: World, cs: seq<Cmd>)
    requires SaveInv(w) && OrderlyRun(w, cs)
    ensures SaveInv(Run(w, cs))
    decreases |cs|
  {
    hide SaveInv, SaveOrderly, Do;
    if cs != [] {
      StepKeepsSaveInv(w, cs[0]);
      RunKeepsSaveInv(Do(w, cs[0]), cs[1..]);
    }
  }

  /** The open document is titled, reads as clean, and no finished write waits to be recorded. */
  ghost predicate Settled(w: World) {
    && w.svc.open.Some?
    && Titled(w.svc.open.value)
    && !w.svc.open.value.hist.IsDirty()
    && !AwaitingOutcome(w, w.svc.open.value.session, w.svc.open.value.path.value)
  }

  /**
   * Save safety. After any orderly run from the start, a clean titled document's file holds exactly
   * the audio of the current snapshot, however many edits, undos, saves and takes were interleaved.
   */
  lemma CleanFileHoldsTheDocument(cs: seq<Cmd>)
    requires OrderlyRun(START, cs) && Settled(Run(START, cs))
    ensures var w := Run(START, cs);
            var d := w.svc.open.value;
            d.path.value in w.files && w.files[d.path.value].audio == d.hist.current.audio
  {
    RunKeepsSaveInv(START, cs);
    var w := Run(START, cs);
    var d := w.svc.open.value;
    assert OnFile(w, d);
    CleanMeansSavedContent(d.hist, w.ledger);
  }

  /**
   * The audio-less save refines the full one. In every reachable state, when a save job of the open
   * document has decided to skip the audio file, that file already holds byte for byte the audio a
   * full write would put there: performing the write would change at most cues and the stamp.
   */
  lemma SkippedWriteRefinesFull(cs: seq<Cmd>, id: nat)
    requires OrderlyRun(START, cs)
    requires var w := Run(START, cs);
             HasSaveJob(w, id) && w.tasks[id].phase.Prepared? && !w.tasks[id].phase.prep.needsFull
             && w.svc.open.Some? && w.svc.open.value.session == w.tasks[id].phase.prep.session
    ensures var w := Run(START, cs);
            var prep := w.tasks[id].phase.prep;
            prep.path in w.files && w.files[prep.path].audio == WrittenImage(prep, w.nextStamp).audio
  {
    RunKeepsSaveInv(START, cs);
    var w := Run(START, cs);
    assert PrepHolds(w, w.svc.open.value, w.tasks[id]);
  }

  // --- An edit between prepare and outcome ------------------------------------------------------

  lemma {:induction false} ApplyAllNumbers(h: History, edits: seq<Edit>)
    requires ApplyAll(h, edits).Some?
    ensures var end := ApplyAll(h, edits).value;
            h.nextNumber <= end.nextNumber && end.savedNumber == h.savedNumber &&
            (edits != [] ==> h.nextNumber <= end.CurrentNumber())
    decreases |edits|
  {
    if edits != [] {
      var next := Apply(h, edits[0]).value.history;
      ApplyAllNumbers(next, edits[1..]);
      assert edits[1..] == [] ==> ApplyAll(next, edits[1..]) == Some(next);
    }
  }

  lemma {:induction false} UndoTimesKeepsSaved(h: History, n: nat)
    requires n <= |h.undo|
    ensures UndoTimes(h, n).savedNumber == h.savedNumber
    decreases n
  {
    if n > 0 {
      UndoTimesKeepsSaved(Undo(h).value.history, n - 1);
    }
  }

  lemma NumberIsOld(h: History, l: Ledger)
    requires Agrees(h, l)
    ensures h.CurrentNumber() < h.nextNumber
  {
    hide Known;
    assert Named(NumberBelow(h, |h.undo|), Below(h, |h.undo|), l);
  }

  /**
   * Edits that land between a save's prepare and its outcome. The save succeeds and records what it
   * captured, so the document is dirty exactly if there was such an edit, and undoing those edits
   * brings back the captured content and a clean document.
   */
  lemma LateEditsStayDirty(s: Svc, d: OpenDoc, l: Ledger, edits: seq<Edit>, prep: SavePrep, saveAs: bool, stamp: nat, sidecarOk: bool)
    requires Agrees(d.hist, l) && prep == PrepareSave(d, prep.path, prep.format, saveAs, true)
    requires ApplyAll(d.hist, edits).Some? && s.open == Some(d.(hist := ApplyAll(d.hist, edits).value))
    ensures var out := FinishSave(s, prep, saveAs, Written(stamp, sidecarOk), true);
            && out.reply.Ok?
            && var h := out.svc.open.value.hist;
               && out.svc.open.value.Dirty() == (edits != [])
               && |edits| <= |h.undo|
               && !UndoTimes(h, |edits|).IsDirty()
               && ContentOf(UndoTimes(h, |edits|).current) == ContentOf(prep.snapshot)
  {
    hide Agrees, NeedsFull, Apply, ApplyAll, UndoTimes, RedoTimes, ShapeOf;
    NumberIsOld(d.hist, l);
    var end := ApplyAll(d.hist, edits).value;
    ApplyAllStacks(d.hist, edits);
    ApplyAllNumbers(d.hist, edits);
    var h := MarkSavedAt(end, prep.number);
    UndosThenRedos(h, |edits|);
    UndoTimesTrims(h, |edits|);
    UndoTimesKeepsSaved(h, |edits|);
  }

  // --- The steps that are out of order, exactly --------------------------------------------------

  /**
   * The disk check's undo trim and the dirty flag at once. A dirty document reads as clean after the trim
   * exactly when it was last saved at the undo floor and the whole undo stack goes; a clean one
   * reads as dirty exactly when it was saved above the floor and the whole stack goes.
   */
  lemma TrimFlipsDirty(h: History, l: Ledger, count: nat)
    requires Agrees(h, l)
    ensures h.IsDirty() && !DropOldest(h, count).IsDirty() <==> h.savedNumber == 0 && 0 < |h.undo| <= count
    ensures !h.IsDirty() && DropOldest(h, count).IsDirty() <==>
            !h.IsDirty() && h.savedNumber != 0 && 0 < |h.undo| <= count
  {
    hide Known, Named;
    assert |h.undo| > 0 ==> 0 < h.undo[|h.undo| - 1].number;
    if |h.undo| > count {
      assert DropOldest(h, count).undo[|h.undo| - count - 1] == h.undo[|h.undo| - 1];
    }
  }

  /** Number 0 as a saved or captured state survives a trim exactly if the new floor holds what it named. */
  ghost predicate FloorHolds(w: World, count: nat) {
    w.svc.open.Some? ==>
      var d, floor := w.svc.open.value, Below(w.svc.open.value.hist, Dropped(w, count));
      && (Titled(d) && d.hist.savedNumber == 0 && !AwaitingOutcome(w, d.session, d.path.value) ==>
            d.path.value in w.files && w.files[d.path.value].audio == floor.audio)
      && (forall i :: CapturedFloor(w, i) ==> ContentOf(PrepOf(w.tasks[i]).value.snapshot) == ContentOf(floor))
  }

  /** The document's half: it stays in step unless number 0 is its saved state and the new floor sounds different. */
  lemma TrimInStep(w: World, count: nat)
    requires SaveInv(w) && w.svc.open.Some? && Titled(w.svc.open.value)
    requires !AwaitingOutcome(w, w.svc.open.value.session, w.svc.open.value.path.value)
    ensures var d, v := w.svc.open.value, StepTrimUndo(w, count);
            v.svc.open.Some? &&
            (OnFile(v, v.svc.open.value) <==>
               d.hist.savedNumber != 0 || Below(d.hist, Dropped(w, count)).audio == w.files[d.path.value].audio)
  {
    hide Agrees, StepTrimUndo;
    var d := w.svc.open.value;
    TrimShape(w, count, d);
    var v := StepTrimUndo(w, count);
    assert forall session, p :: AwaitingOutcome(w, session, p) == AwaitingOutcome(v, session, p);
    assert OnFile(w, d);
    NewFloor(d.hist, Dropped(w, count));
  }

  lemma NewFloor(h: History, n: nat)
    requires n <= |h.undo|
    ensures Below(DropOldest(h, n), 0) == Below(h, n) && DropOldest(h, n).savedNumber == h.savedNumber
  {}

  /** The save's half: what job `id` captured keeps its name unless it is number 0 and the new floor differs. */
  lemma TrimKeepsCapture(w: World, id: nat, count: nat)
    requires SaveInv(w) && w.svc.open.Some? && id in w.tasks && PrepOf(w.tasks[id]).Some?
    requires PrepOf(w.tasks[id]).value.session == w.svc.open.value.session
    ensures var d, v := w.svc.open.value, StepTrimUndo(w, count);
            var prep := PrepOf(w.tasks[id]).value;
            v.svc.open.Some? &&
            (PrepHolds(v, v.svc.open.value, w.tasks[id]) <==>
               prep.number != 0 || ContentOf(Below(d.hist, Dropped(w, count))) == ContentOf(prep.snapshot))
  {
    hide Agrees, StepTrimUndo, OnFile;
    var d := w.svc.open.value;
    TrimShape(w, count, d);
    assert PrepHolds(w, d, w.tasks[id]);
    NewFloor(d.hist, Dropped(w, count));
  }

  /** Both together: the save invariant survives a trim exactly if the new floor holds what number 0 named. */
  lemma TrimKeepsExactly(w: World, count: nat)
    requires SaveInv(w)
    ensures SaveInv(StepTrimUndo(w, count)) <==> FloorHolds(w, count)
  {
    if w.svc.open.Some? {
      hide Agrees, StepTrimUndo, OnFile, PrepHolds, AwaitingOutcome;
      var d, v := w.svc.open.value, StepTrimUndo(w, count);
      TrimShape(w, count, d);
      var e := v.svc.open.value;
      DropAgrees(d.hist, w.ledger, Dropped(w, count));
      TrimLeavesRest(w, count, d);
      if Titled(d) && !AwaitingOutcome(w, d.session, d.path.value) {
        TrimInStep(w, count);
      }
      forall i | i in w.tasks && PrepOf(w.tasks[i]).Some? && PrepOf(w.tasks[i]).value.session == d.session
        ensures PrepHolds(v, e, w.tasks[i]) <==>
                  (CapturedFloor(w, i) ==> ContentOf(PrepOf(w.tasks[i]).value.snapshot) ==
                                           ContentOf(Below(d.hist, Dropped(w, count))))
      {
        TrimKeepsCapture(w, i, count);
      }
    }
  }

  lemma TrimLeavesRest(w: World, count: nat, d: OpenDoc)
    requires SaveInv(w) && w.svc.open == Some(d)
    ensures var v := StepTrimUndo(w, count);
            && OneSave(v) && v.svc.open.Some? && v.files == w.files && v.tasks == w.tasks
            && Titled(v.svc.open.value) == Titled(d) && v.svc.open.value.session == d.session
            && (Titled(d) ==> d.path.value in w.files)
            && (!Titled(d) || AwaitingOutcome(w, d.session, d.path.value) ==> OnFile(v, v.svc.open.value))
            && (v.svc.open.value.recovered ==> v.svc.open.value.sidecar.lastSavedAudioRev == 0)
  {
    hide Agrees, StepTrimUndo;
    TrimShape(w, count, d);
    var v := StepTrimUndo(w, count);
    assert forall session, p :: AwaitingOutcome(w, session, p) == AwaitingOutcome(v, session, p);
    assert OnFile(w, d);
    NewFloor(d.hist, Dropped(w, count));
  }

  /** Clean and settled, yet the file holds other audio than the document. */
  ghost predicate CleanButWrong(w: World) {
    && Settled(w)
    && w.svc.open.value.path.value in w.files
    && w.files[w.svc.open.value.path.value].audio != w.svc.open.value.hist.current.audio
  }

  function Undos(n: nat): seq<Cmd>
    decreases n
  {
    if n == 0 then [] else [DoHistory(true, true)] + Undos(n - 1)
  }

  lemma {:induction false} UndoRun(w: World, d: OpenDoc, n: nat)
    requires w.svc.open == Some(d) && !w.svc.normalizeBusy && !d.recording && n <= |d.hist.undo|
    ensures var v := Run(w, Undos(n));
            v.svc.open == Some(d.(hist := UndoTimes(d.hist, n))) && v.files == w.files && v.tasks == w.tasks
    decreases n
  {
    hide Do;
    if n > 0 {
      var v := Do(w, DoHistory(true, true));
      UndoesOne(w, d);
      UndoRun(v, v.svc.open.value, n - 1);
      assert Undos(n)[1..] == Undos(n - 1);
    }
  }

  lemma UndoesOne(w: World, d: OpenDoc)
    requires w.svc.open == Some(d) && !w.svc.normalizeBusy && !d.recording && 0 < |d.hist.undo|
    ensures var v := Do(w, DoHistory(true, true));
            && v.svc.open == Some(d.(hist := Undo(d.hist).value.history)) && !v.svc.normalizeBusy
            && v.files == w.files && v.tasks == w.tasks
  {
    hide Do, Learn, KeptBakes;
    DoPlain(w, DoHistory(true, true));
  }

  /** A file that does not hold the saved state is found out as soon as undo leads back to that state. */
  lemma UndoneToSaved(w: World, d: OpenDoc, l: Ledger, n: nat)
    requires w.svc.open == Some(d) && Titled(d) && !w.svc.normalizeBusy && !d.recording
    requires Agrees(d.hist, l) && n <= |d.hist.undo| && NumberBelow(d.hist, |d.hist.undo| - n) == d.hist.savedNumber
    requires d.path.value in w.files && w.files[d.path.value].audio != l.made[d.hist.savedNumber].audio
    requires !AwaitingOutcome(w, d.session, d.path.value)
    ensures CleanButWrong(Run(w, Undos(n)))
  {
    hide Run, UndoTimes, RedoTimes, ShapeOf, Known;
    var h, at := d.hist, |d.hist.undo| - n;
    UndoRun(w, d, n);
    UndosThenRedos(h, n);
    UndoTimesTrims(h, n);
    UndoTimesKeepsSaved(h, n);
    assert Named(NumberBelow(h, at), Below(h, at), l);
    assert ContentOf(UndoTimes(h, n).current) == ContentOf(Below(h, at));
    assert UndoTimes(h, n).CurrentNumber() == NumberBelow(h, at);
    var v := Run(w, Undos(n));
    assert AwaitingOutcome(w, d.session, d.path.value) == AwaitingOutcome(v, d.session, d.path.value);
  }

  /** Undoing what a harmful trim left on the stack reads clean over another file. */
  lemma TrimHarms(w: World, count: nat)
    requires SaveInv(w) && w.svc.open.Some? && Titled(w.svc.open.value)
    requires !w.svc.normalizeBusy && !w.svc.open.value.recording
    requires !AwaitingOutcome(w, w.svc.open.value.session, w.svc.open.value.path.value)
    requires w.svc.open.value.hist.savedNumber == 0
    requires Below(w.svc.open.value.hist, Dropped(w, count)).audio != w.files[w.svc.open.value.path.value].audio
    ensures CleanButWrong(Run(StepTrimUndo(w, count), Undos(|w.svc.open.value.hist.undo| - Dropped(w, count))))
  {
    hide Agrees, StepTrimUndo, Run;
    var d := w.svc.open.value;
    TrimShape(w, count, d);
    var trimmed := StepTrimUndo(w, count);
    var e := trimmed.svc.open.value;
    assert OnFile(w, d);
    NewFloor(d.hist, Dropped(w, count));
    DropAgrees(d.hist, w.ledger, Dropped(w, count));
    assert AwaitingOutcome(w, d.session, d.path.value) == AwaitingOutcome(trimmed, d.session, d.path.value);
    UndoneToSaved(trimmed, e, trimmed.ledger, |e.hist.undo|);
  }

  /**
   * A full write whose journal append fails still moves the baselines. The open titled document and
   * its file stay in step exactly if that file, and the last recorded state, hold the captured audio.
   */
  lemma FailedRecordInStep(w: World, id: nat)
    requires SaveInv(w) && RecordsFullWrite(w, id) && Titled(w.svc.open.value)
    ensures var d, v := w.svc.open.value, StepSaveEnd(w, id, false);
            var written := w.tasks[id].phase.prep.snapshot.audio;
            v.svc.open.Some? &&
            (OnFile(v, v.svc.open.value) <==>
               d.path.value in w.files && w.files[d.path.value].audio == written &&
               w.ledger.made[d.hist.savedNumber].audio == written)
  {
    hide Agrees, Moves;
    var d, v := w.svc.open.value, StepSaveEnd(w, id, false);
    assert OnFile(w, d) && PrepHolds(w, d, w.tasks[id]);
    NothingAwaits(v, d.session, d.path.value);
  }

  /** In place, the harm shows once undo leads back to the last recorded state. */
  lemma FailedRecordHarms(w: World, id: nat, n: nat)
    requires SaveInv(w) && RecordsFullWrite(w, id) && Titled(w.svc.open.value)
    requires w.svc.open.value.path == Some(w.tasks[id].phase.prep.path)
    requires w.ledger.made[w.svc.open.value.hist.savedNumber].audio != w.tasks[id].phase.prep.snapshot.audio
    requires !w.svc.normalizeBusy && !w.svc.open.value.recording
    requires var h := w.svc.open.value.hist; n <= |h.undo| && NumberBelow(h, |h.undo| - n) == h.savedNumber
    ensures CleanButWrong(Run(StepSaveEnd(w, id, false), Undos(n)))
  {
    hide Agrees, Run, StepSaveEnd;
    var d, v := w.svc.open.value, StepSaveEnd(w, id, false);
    EndLeaves(w, id, false, d);
    assert PrepHolds(w, d, w.tasks[id]);
    assert OnFile(w, d);
    FailedRecordKeepsFlag(w, id);
    UndoneToSaved(v, v.svc.open.value, w.ledger, n);
  }

  lemma FailedRecordKeepsFlag(w: World, id: nat)
    requires RecordsFullWrite(w, id)
    ensures StepSaveEnd(w, id, false).svc.normalizeBusy == w.svc.normalizeBusy
  {}

  /**
   * A save left over from a closed document lands on a reopened path: the baselines are off unless
   * both hold the same audio, and a document that reads clean then is off at once.
   */
  lemma StrangerWriteInStep(w: World, id: nat, sidecarOk: bool)
    requires SaveInv(w) && WritesForStranger(w, id) && Titled(w.svc.open.value)
    ensures var d, v := w.svc.open.value, StepSaveWrite(w, id, true, sidecarOk);
            OnFile(v, d) <==>
              w.tasks[id].phase.prep.snapshot.audio == w.files[d.path.value].audio
    ensures var d, v := w.svc.open.value, StepSaveWrite(w, id, true, sidecarOk);
            CleanButWrong(v) <==>
              !d.hist.IsDirty() && w.tasks[id].phase.prep.snapshot.audio != d.hist.current.audio
  {
    hide Agrees, Moves, CuesOf;
    var d, v := w.svc.open.value, StepSaveWrite(w, id, true, sidecarOk);
    assert OnFile(w, d);
    OnlyAwaiting(w, id, d.session, d.path.value);
    OnlyAwaiting(v, id, d.session, d.path.value);
  }

  /** Another program's write to the open document's own file, or its removal. */
  lemma ForeignWriteInStep(w: World, path: Path, image: Option<(Samples, Option<multiset<Cue>>)>)
    requires SaveInv(w) && w.svc.open.Some? && Titled(w.svc.open.value) && w.svc.open.value.path == Some(path)
    requires !AwaitingOutcome(w, w.svc.open.value.session, path)
    ensures OnFile(StepForeign(w, path, image), w.svc.open.value) <==>
            image.Some? && image.value.0 == w.files[path].audio
    ensures CleanButWrong(StepForeign(w, path, image)) <==>
            !w.svc.open.value.hist.IsDirty() && image.Some? && image.value.0 != w.svc.open.value.hist.current.audio
  {
    hide Agrees, Moves;
    var d, v := w.svc.open.value, StepForeign(w, path, image);
    assert forall session, p :: AwaitingOutcome(w, session, p) == AwaitingOutcome(v, session, p);
    assert OnFile(w, d);
  }
}
