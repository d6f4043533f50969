/**
 * Markers in the file. A WAV carries the markers as cues; a save that skips the audio file must find
 * them there already. That needs more than the audio does: every sidecar written, and no cue of the
 * opened file dropped.
 */
module CueSafety {
  import opened Wrappers
  import opened Audio
  import opened Racks
  import opened Document
  import opened Histories
  import opened Ledgers
  import opened EditOps
  import opened Markers
  import opened Service
  import opened World
  import opened Evolution
  import opened SaveSafety
  import opened SaveRuns

  predicate OnWav(d: OpenDoc) {
    Titled(d) && d.format.container == Wav
  }

  /** The marker baseline, and the last recorded state, name the cues of the document's file. */
  ghost predicate CuesOnFile(w: World, d: OpenDoc) {
    OnWav(d) && !AwaitingOutcome(w, d.session, d.path.value) ==>
      && d.path.value in w.files
      && d.hist.savedNumber in w.ledger.made
      && w.files[d.path.value].cues == Some(CuesOf(d.sidecar.lastWrittenMarkers))
      && w.files[d.path.value].cues == Some(CuesOf(w.ledger.made[d.hist.savedNumber].markers))
  }

  ghost predicate CuesOfPrep(w: World, d: OpenDoc, t: Task)
    requires PrepOf(t).Some?
  {
    var prep := PrepOf(t).value;
    && (t.saveAs.None? ==> prep.format == d.format)
    && (!prep.needsFull ==> d.sidecar.lastWrittenMarkers == prep.snapshot.markers)
    && (prep.format.container == Wav && (!prep.needsFull || (t.phase.WriteDone? && t.phase.outcome.Written?)) ==>
          prep.path in w.files && w.files[prep.path].cues == Some(CuesOf(prep.snapshot.markers)))
  }

  ghost predicate CueInv(w: World) {
    w.svc.open.Some? ==>
      && CuesOnFile(w, w.svc.open.value)
      && (forall i :: i in w.tasks && PrepOf(w.tasks[i]).Some? && PrepOf(w.tasks[i]).value.session == w.svc.open.value.session
            ==> CuesOfPrep(w, w.svc.open.value, w.tasks[i]))
  }

  /** The opened markers are exactly the cues of the file: readable, and none dropped. */
  ghost predicate OpensItsCues(w: World, path: Path, fileMarkers: seq<Marker>, sidecar: Option<seq<Marker>>) {
    path in w.files ==>
      w.files[path].cues == Some(CuesOf(OpenedMarkers(w.files[path], fileMarkers, sidecar)))
  }

  ghost predicate CueOrderly(w: World, c: Cmd) {
    && SaveOrderly(w, c)
    && match c
       case OpenFile(path, fm, sc, _, format, _, _) => format.container == Wav ==> OpensItsCues(w, path, fm, sc)
       case SaveEnd(id, _) => RecordsFullWrite(w, id) ==> w.tasks[id].phase.outcome.sidecarOk
       case _ => true
  }

  lemma EvolvingKeepsCues(w: World, v: World)
    requires SaveInv(w) && CueInv(w) && Evolving(w, v)
    ensures CueInv(v)
  {
    hide Moves, Placed;
    EvolvesAgrees(w.svc.open, v.svc.open, w.ledger);
    if v.svc.open.Some? {
      var c, d := w.svc.open.value, v.svc.open.value;
      if d.path.Some? {
        SameSavesAwait(w, v, d.session, d.path.value);
      }
      assert CuesOnFile(w, c);
      assert CuesOnFile(v, d);
      forall i | i in v.tasks && PrepOf(v.tasks[i]).Some? && PrepOf(v.tasks[i]).value.session == d.session
        ensures CuesOfPrep(v, d, v.tasks[i])
      {
        assert CuesOfPrep(w, c, w.tasks[i]);
      }
    }
  }

  /** A document of a fresh session has no save job yet. */
  lemma FreshKeepsCues(w: World, v: World)
    requires SaveInv(w) && SameSaves(w, v)
    requires v.svc.open.Some? ==> v.svc.open.value.session == w.nextSession && CuesOnFile(v, v.svc.open.value)
    ensures CueInv(v)
  {
    hide Agrees, Moves, PrepHolds, OnFile, CuesOnFile;
  }

  lemma OpenKeepsCues(
    w: World, path: Path, fileMarkers: seq<Marker>, sidecar: Option<seq<Marker>>, rate: nat, format: Format,
    rack: Option<Rack>, io: bool)
    requires SaveInv(w) && CueInv(w)
    requires format.container == Wav ==> OpensItsCues(w, path, fileMarkers, sidecar)
    ensures CueInv(StepOpen(w, path, fileMarkers, sidecar, rate, format, rack, io))
  {
    hide Agrees, Moves, Placed, MarkersFit, PrepHolds, OnFile, SortMarkers, CuesOf;
    var v := StepOpen(w, path, fileMarkers, sidecar, rate, format, rack, io);
    if CanOpen(w, path, fileMarkers, sidecar) && !Recording(w.svc) {
      FreshKeepsCues(w, v);
    } else if CanOpen(w, path, fileMarkers, sidecar) {
      RefusedKeepsCues(w, v);
    }
  }

  /** A refused command changes nothing the invariant reads. */
  lemma RefusedKeepsCues(w: World, v: World)
    requires SaveInv(w) && CueInv(w) && w.nextSession <= v.nextSession
    requires v == w.(bakes := v.bakes, nextSession := v.nextSession, clipFile := v.clipFile)
    ensures CueInv(v)
  {
    hide Moves, Agrees, PrepHolds, OnFile;
    EvolvingKeepsCues(w, v);
  }

  lemma RecoverKeepsCues(
    w: World, hist: History, ledger: Ledger, bakes: map<nat, BakeRecord>, path: Option<Path>, rate: nat, format: Format,
    rack: Option<Rack>, io: bool)
    requires SaveInv(w) && CueInv(w)
    ensures CueInv(StepRecover(w, hist, ledger, bakes, path, rate, format, rack, io))
  {
    hide BakesAgree, Agrees, Moves, PrepHolds, OnFile;
    var v := StepRecover(w, hist, ledger, bakes, path, rate, format, rack, io);
    if Agrees(hist, ledger) && BakesAgree(hist, bakes) && !Recording(w.svc) {
      FreshKeepsCues(w, v);
    }
  }

  lemma CloseKeepsCues(w: World, io: bool)
    requires SaveInv(w) && CueInv(w)
    ensures CueInv(WithDetached(w, Close(w.svc, io).svc))
  {
    if Recording(w.svc) {
      RefusedKeepsCues(w, WithDetached(w, Close(w.svc, io).svc));
    }
  }

  lemma StartRecordingKeepsCues(w: World, rate: nat, format: Format, replace: bool, creates: bool, clipIo: bool, io: bool)
    requires SaveInv(w) && CueInv(w)
    ensures CueInv(StepStartRecording(w, rate, format, replace, creates, clipIo, io))
  {
    hide Moves, Agrees, SaveInv, CueInv;
    var v := StepStartRecording(w, rate, format, replace, creates, clipIo, io);
    RecordingShape(w.svc, rate, format, replace, if creates then Some(w.nextSession) else None, clipIo, io);
    SaveInvBounded(w);
    if Evolves(w.svc.open, v.svc.open) {
      EvolvingKeepsCues(w, v);
    } else {
      FreshKeepsCues(w, v);
    }
  }

  lemma EndTakeKeepsCues(w: World, take: Option<TakeEdit>, io: bool, creates: bool, clipIo: bool)
    requires SaveInv(w) && CueInv(w)
    ensures CueInv(StepEndTake(w, take, io, creates, clipIo))
  {
    hide Agrees, StepEndTake, SaveInv, CueInv, Evolving;
    SaveInvBounded(w);
    EndTakeShape(w, take, io, creates, clipIo);
    var v := StepEndTake(w, take, io, creates, clipIo);
    if Evolving(w, v) {
      EvolvingKeepsCues(w, v);
    } else {
      FreshKeepsCues(w, v);
    }
  }

  lemma StartSaveKeepsCues(w: World, s: Svc, saveAs: Option<(Path, Format)>)
    requires SaveInv(w) && CueInv(w) && !w.svc.saveRunning && s == w.svc.(saveRunning := true)
    ensures CueInv(AddTask(WithSvc(w, s), SaveJob(saveAs, Begun)))
  {
    hide Agrees, Moves, PrepHolds, OnFile, CuesOf;
    var v := AddTask(WithSvc(w, s), SaveJob(saveAs, Begun));
    if v.svc.open.Some? {
      var d := v.svc.open.value;
      assert forall session, p :: AwaitingOutcome(w, session, p) == AwaitingOutcome(v, session, p) by {
        SaveStartsQuietly(w, v, saveAs);
      }
      assert CuesOnFile(w, d);
      assert CuesOnFile(v, d);
    }
  }

  lemma SaveStartsQuietly(w: World, v: World, saveAs: Option<(Path, Format)>)
    requires OneSave(w) && v.tasks == w.tasks[w.nextTask := SaveJob(saveAs, Begun)]
    ensures forall session, p :: AwaitingOutcome(w, session, p) == AwaitingOutcome(v, session, p)
  {
    forall session, p ensures AwaitingOutcome(w, session, p) == AwaitingOutcome(v, session, p) {
      if AwaitingOutcome(w, session, p) {
        var i :| i in w.tasks && Landed(w.tasks[i], session, p);
        assert i in v.tasks && Landed(v.tasks[i], session, p);
      }
    }
  }

  lemma PrepareKeepsCues(w: World, id: nat)
    requires SaveInv(w) && CueInv(w)
    ensures CueInv(StepSavePrepare(w, id))
  {
    hide Agrees, Moves, CuesOf, AwaitingOutcome, OneSave, PrepHolds;
    PrepareLeavesFiles(w, id);
    var v := StepSavePrepare(w, id);
    if HasSaveJob(w, id) && w.tasks[id].phase.Begun? && w.svc.open.Some? {
      var d := w.svc.open.value;
      assert CuesOnFile(w, d) && OnFile(w, d);
      assert 0 !in w.ledger.audioOf && d.hist.current.audioRev != 0 by { CurrentAudioNamed(d.hist, w.ledger); }
      if id in v.tasks {
        assert CuesOfPrep(v, d, v.tasks[id]);
      }
      assert CuesOnFile(v, d);
    }
  }

  lemma CurrentAudioNamed(h: History, l: Ledger)
    requires Agrees(h, l)
    ensures 0 !in l.audioOf && h.current.audioRev != 0
  {
    assert Known(Below(h, |h.undo|), l);
  }

  lemma WriteKeepsCues(w: World, id: nat, ok: bool, sidecarOk: bool)
    requires SaveInv(w) && CueInv(w) && SaveOrderly(w, SaveWrite(id, ok, sidecarOk))
    ensures CueInv(StepSaveWrite(w, id, ok, sidecarOk))
  {
    if HasSaveJob(w, id) && w.tasks[id].phase.Prepared? && w.svc.open.Some? {
      hide Agrees, CuesOnFile, CuesOfPrep, CuesOf, OnFile, PrepHolds, OneSave, StepSaveWrite;
      var d := w.svc.open.value;
      WriteLeaves(w, id, ok, sidecarOk);
      WriteKeepsCuesOnFile(w, id, ok, sidecarOk, d);
      if w.tasks[id].phase.prep.session == d.session {
        WriteKeepsCuesOfPrep(w, id, ok, sidecarOk, d);
      }
    }
  }

  lemma WriteKeepsCuesOnFile(w: World, id: nat, ok: bool, sidecarOk: bool, d: OpenDoc)
    requires SaveInv(w) && CueInv(w) && SaveOrderly(w, SaveWrite(id, ok, sidecarOk)) && w.svc.open == Some(d)
    requires HasSaveJob(w, id) && w.tasks[id].phase.Prepared? && OneSave(StepSaveWrite(w, id, ok, sidecarOk))
    ensures CuesOnFile(StepSaveWrite(w, id, ok, sidecarOk), d)
  {
    hide Agrees, PrepHolds, CuesOf;
    var v := StepSaveWrite(w, id, ok, sidecarOk);
    assert CuesOnFile(w, d);
    if d.path.Some? {
      OnlyAwaiting(w, id, d.session, d.path.value);
      OnlyAwaiting(v, id, d.session, d.path.value);
    }
  }

  lemma WriteKeepsCuesOfPrep(w: World, id: nat, ok: bool, sidecarOk: bool, d: OpenDoc)
    requires SaveInv(w) && CueInv(w) && w.svc.open == Some(d) && HasSaveJob(w, id) && w.tasks[id].phase.Prepared?
    requires w.tasks[id].phase.prep.session == d.session
    ensures CuesOfPrep(StepSaveWrite(w, id, ok, sidecarOk), d, StepSaveWrite(w, id, ok, sidecarOk).tasks[id])
  {
    hide Agrees, OnFile, CuesOf, OneSave, CuesOnFile;
    assert CuesOfPrep(w, d, w.tasks[id]);
  }

  lemma EndKeepsCues(w: World, id: nat, io: bool)
    requires SaveInv(w) && CueInv(w) && CueOrderly(w, SaveEnd(id, io))
    ensures CueInv(StepSaveEnd(w, id, io))
  {
    if HasSaveJob(w, id) && w.tasks[id].phase.WriteDone? && w.svc.open.Some? {
      EndKeepsCuesOnFile(w, id, io, w.svc.open.value);
    }
  }

  lemma EndKeepsCuesOnFile(w: World, id: nat, io: bool, d: OpenDoc)
    requires SaveInv(w) && CueInv(w) && CueOrderly(w, SaveEnd(id, io)) && w.svc.open == Some(d)
    requires HasSaveJob(w, id) && w.tasks[id].phase.WriteDone?
    ensures CueInv(StepSaveEnd(w, id, io))
  {
    hide Agrees, CuesOf, StepSaveEnd, AwaitingOutcome;
    EndLeaves(w, id, io, d);
    var v := StepSaveEnd(w, id, io);
    assert CuesOnFile(w, d) && OnFile(w, d);
    if d.path.Some? {
      OnlyAwaiting(w, id, d.session, d.path.value);
    }
    if w.tasks[id].phase.prep.session == d.session {
      assert PrepHolds(w, d, w.tasks[id]) && CuesOfPrep(w, d, w.tasks[id]);
    }
    assert CuesOnFile(v, v.svc.open.value);
    EndLeavesNoCapture(w, id, io);
  }

  lemma TrimKeepsCues(w: World, count: nat)
    requires SaveInv(w) && CueInv(w) && SaveOrderly(w, TrimUndo(count))
    ensures CueInv(StepTrimUndo(w, count))
  {
    if w.svc.open.Some? {
      TrimKeepsDocumentCues(w, count, w.svc.open.value);
    }
  }

  lemma TrimKeepsDocumentCues(w: World, count: nat, d: OpenDoc)
    requires SaveInv(w) && CueInv(w) && SaveOrderly(w, TrimUndo(count)) && w.svc.open == Some(d)
    ensures CueInv(StepTrimUndo(w, count))
  {
    hide Agrees, Moves, CuesOf, PrepHolds, OnFile, OneSave, StepTrimUndo, Below;
    TrimShape(w, count, d);
    FloorNamed(d.hist, w.ledger);
    var v := StepTrimUndo(w, count);
    var e := v.svc.open.value;
    assert forall session, path :: AwaitingOutcome(w, session, path) == AwaitingOutcome(v, session, path);
    assert CuesOnFile(w, d);
    assert CuesOnFile(v, e);
    forall i | i in v.tasks && PrepOf(v.tasks[i]).Some? && PrepOf(v.tasks[i]).value.session == e.session
      ensures CuesOfPrep(v, e, v.tasks[i])
    {
      assert CuesOfPrep(w, d, w.tasks[i]);
    }
  }

  lemma ForeignKeepsCues(w: World, path: Path, image: Option<(Samples, Option<multiset<Cue>>)>)
    requires SaveInv(w) && CueInv(w) && !Watched(w, path)
    ensures CueInv(StepForeign(w, path, image))
  {
    hide Agrees, CuesOf, PrepHolds;
    var v := StepForeign(w, path, image);
    assert forall session, p :: AwaitingOutcome(w, session, p) == AwaitingOutcome(v, session, p);
    if w.svc.open.Some? {
      var d := w.svc.open.value;
      assert CuesOnFile(w, d);
      assert CuesOnFile(v, d);
      forall i | i in v.tasks && PrepOf(v.tasks[i]).Some? && PrepOf(v.tasks[i]).value.session == d.session
        ensures CuesOfPrep(v, d, v.tasks[i])
      {
        assert CuesOfPrep(w, d, w.tasks[i]);
      }
    }
  }

  lemma DocumentStepKeepsCues(w: World, c: Cmd)
    requires SaveInv(w) && CueInv(w) && CueOrderly(w, c)
    requires c.OpenFile? || c.RecoverSession? || c.CloseDoc? || c.StartRecording? || c.EndTake? || c.TrimUndo? || c.ForeignWrite?
    ensures CueInv(Do(w, c))
  {
    hide Do, SaveInv, CueInv, WithSvc, StepOpen, StepRecover, StepStartRecording, StepEndTake, StepTrimUndo, StepForeign,
         WithDetached, Watched, FloorMatters, OpensItsCues;
    DoDocument(w, c);
    match c
    case OpenFile(p, fm, sc, rate, format, rack, io) => OpenKeepsCues(w, p, fm, sc, rate, format, rack, io);
    case RecoverSession(h, l, b, p, rate, format, rack, io) => RecoverKeepsCues(w, h, l, b, p, rate, format, rack, io);
    case CloseDoc(io) => CloseKeepsCues(w, io);
    case StartRecording(rate, format, replace, creates, clipIo, io) =>
      StartRecordingKeepsCues(w, rate, format, replace, creates, clipIo, io);
    case EndTake(take, io, creates, clipIo) => EndTakeKeepsCues(w, take, io, creates, clipIo);
    case TrimUndo(count) => TrimKeepsCues(w, count);
    case ForeignWrite(path, image) => ForeignKeepsCues(w, path, image);
  }

  lemma SaveStepKeepsCues(w: World, c: Cmd)
    requires SaveInv(w) && CueInv(w) && CueOrderly(w, c)
    requires c.StartSave? || c.StartSaveAs? || c.SavePrepare? || c.SaveWrite? || c.SaveEnd?
    ensures CueInv(Do(w, c))
  {
    hide Do, SaveInv, CueInv, Moves, Evolving, WithSvc, StepSavePrepare, StepSaveWrite, StepSaveEnd, AddTask;
    DoSave(w, c);
    SaveInvBounded(w);
    NothingEvolves(w.svc.open);
    SvcEvolving(w, w.svc);
    EvolvingKeepsCues(w, WithSvc(w, w.svc));
    match c
    case StartSave(overwrite, preflight) =>
      if BeginSave(w.svc, OnDisk(w), overwrite, preflight).reply.Ok? {
        StartSaveKeepsCues(w, w.svc.(saveRunning := true), None);
      }
    case StartSaveAs(path, format, preflight) =>
      if BeginSaveAs(w.svc, format, preflight).reply.Ok? {
        StartSaveKeepsCues(w, w.svc.(saveRunning := true), Some((path, format)));
      }
    case SavePrepare(id) => PrepareKeepsCues(w, id);
    case SaveWrite(id, ok, sidecarOk) => WriteKeepsCues(w, id, ok, sidecarOk);
    case SaveEnd(id, io) => EndKeepsCues(w, id, io);
  }

  lemma StepKeepsCueInv(w: World, c: Cmd)
    requires SaveInv(w) && CueInv(w) && CueOrderly(w, c)
    ensures CueInv(Do(w, c))
  {
    hide Do, SaveInv, CueInv, CueOrderly, Evolving;
    if IsEvolving(c) {
      SaveInvBounded(w);
      EvolvingFrame(w, c);
      EvolvingKeepsCues(w, Do(w, c));
    } else if c.StartSave? || c.StartSaveAs? || c.SavePrepare? || c.SaveWrite? || c.SaveEnd? {
      SaveStepKeepsCues(w, c);
    } else {
      DocumentStepKeepsCues(w, c);
    }
  }

  ghost predicate CueOrderlyRun(w: World, cs: seq<Cmd>)
    decreases |cs|
  {
    cs != [] ==> CueOrderly(w, cs[0]) && CueOrderlyRun(Do(w, cs[0]), cs[1..])
  }

  lemma {:induction false} RunKeepsCueInv(w: World, cs: seq<Cmd>)
    requires SaveInv(w) && CueInv(w) && CueOrderlyRun(w, cs)
    ensures SaveInv(Run(w, cs)) && CueInv(Run(w, cs))
    decreases |cs|
  {
    hide SaveInv, CueInv, SaveOrderly, Do;
    if cs != [] {
      StepKeepsSaveInv(w, cs[0]);
      StepKeepsCueInv(w, cs[0]);
      RunKeepsCueInv(Do(w, cs[0]), cs[1..]);
    }
  }

  /**
   * A skipped write of a WAV equals a performed one in everything but the file's stamp: the image
   * on disk already is the one a full write would leave.
   */
  lemma SkippedWriteIsComplete(cs: seq<Cmd>, id: nat)
    requires CueOrderlyRun(START, cs)
    requires var w := Run(START, cs);
             HasSaveJob(w, id) && w.tasks[id].phase.Prepared? && !w.tasks[id].phase.prep.needsFull
             && w.tasks[id].phase.prep.format.container == Wav
             && w.svc.open.Some? && w.svc.open.value.session == w.tasks[id].phase.prep.session
    ensures var w := Run(START, cs);
            var prep := w.tasks[id].phase.prep;
            prep.path in w.files && w.files[prep.path] == WrittenImage(prep, w.files[prep.path].stamp)
  {
    RunKeepsCueInv(START, cs);
    var w := Run(START, cs);
    assert PrepHolds(w, w.svc.open.value, w.tasks[id]);
    assert CuesOfPrep(w, w.svc.open.value, w.tasks[id]);
  }

  /** A clean document on a WAV finds its markers in the file. */
  lemma CleanFileHoldsTheMarkers(cs: seq<Cmd>)
    requires CueOrderlyRun(START, cs) && Settled(Run(START, cs))
    requires Run(START, cs).svc.open.value.format.container == Wav
    ensures var w := Run(START, cs);
            var d := w.svc.open.value;
            d.path.value in w.files && w.files[d.path.value].cues == Some(CuesOf(d.hist.current.markers))
  {
    RunKeepsCueInv(START, cs);
    var w := Run(START, cs);
    var d := w.svc.open.value;
    assert CuesOnFile(w, d);
    CleanMeansSavedContent(d.hist, w.ledger);
  }

  /**
   * A full WAV write whose sidecar write failed: the save is recorded, the marker baseline is not.
   * The baseline still names the file's cues exactly if the old baseline had the same cues.
   */
  lemma FailedSidecarInStep(w: World, id: nat)
    requires SaveInv(w) && CueInv(w) && RecordsFullWrite(w, id) && !w.tasks[id].phase.outcome.sidecarOk
    requires w.tasks[id].phase.prep.format.container == Wav
    ensures var d, v := w.svc.open.value, StepSaveEnd(w, id, true);
            v.svc.open.Some? &&
            (CuesOnFile(v, v.svc.open.value) <==>
               CuesOf(d.sidecar.lastWrittenMarkers) == CuesOf(w.tasks[id].phase.prep.snapshot.markers))
  {
    hide Agrees, Moves, CuesOf;
    var d, v := w.svc.open.value, StepSaveEnd(w, id, true);
    assert PrepHolds(w, d, w.tasks[id]) && CuesOfPrep(w, d, w.tasks[id]);
    NothingAwaits(v, d.session, v.svc.open.value.path.value);
  }

  /**
   * Opening a WAV: the baseline names the file's cues exactly if the cue chunk was readable and no
   * cue lay outside the audio, whether or not a sidecar's markers were taken instead.
   */
  lemma OpenedCuesInStep(
    w: World, path: Path, fileMarkers: seq<Marker>, sidecar: Option<seq<Marker>>, rate: nat, format: Format,
    rack: Option<Rack>, io: bool)
    requires SaveInv(w) && CanOpen(w, path, fileMarkers, sidecar) && !Recording(w.svc) && format.container == Wav
    ensures var v := StepOpen(w, path, fileMarkers, sidecar, rate, format, rack, io);
            v.svc.open.Some? &&
            (CuesOnFile(v, v.svc.open.value) <==>
               w.files[path].cues.Some? && |fileMarkers| == |w.files[path].cues.value|)
  {
    hide Agrees, Moves, Placed, MarkersFit, PrepHolds, OnFile, SortMarkers, CuesOf;
    var v := StepOpen(w, path, fileMarkers, sidecar, rate, format, rack, io);
    var chosen := ChosenMarkers(w.files[path], fileMarkers, sidecar);
    SortedCues(chosen);
    CueCount(fileMarkers);
    if w.files[path].cues.Some? && |fileMarkers| == |w.files[path].cues.value| {
      EqualIfAsLarge(CuesOf(fileMarkers), w.files[path].cues.value);
    }
  }

  lemma CueCount(ms: seq<Marker>)
    ensures |CuesOf(ms)| == |ms|
  {}

  lemma {:induction false} CuesSnoc(ms: seq<Marker>, m: Marker)
    ensures CuesOf([m] + ms) == multiset{CueOf(m)} + CuesOf(ms)
  {
    var cues := seq(|ms|, i requires 0 <= i < |ms| => CueOf(ms[i]));
    assert seq(|[m] + ms|, i requires 0 <= i < |[m] + ms| => CueOf(([m] + ms)[i])) == [CueOf(m)] + cues;
  }

  lemma {:induction false} InsertedCue(m: Marker, ms: seq<Marker>)
    ensures CuesOf(InsertByPos(m, ms)) == multiset{CueOf(m)} + CuesOf(ms)
    decreases |ms|
  {
    hide CuesOf;
    CuesSnoc(ms, m);
    if ms != [] && ms[0].pos <= m.pos {
      InsertedCue(m, ms[1..]);
      CuesSnoc(InsertByPos(m, ms[1..]), ms[0]);
      CuesSnoc(ms[1..], ms[0]);
      assert [ms[0]] + ms[1..] == ms;
    }
  }

  lemma {:induction false} CuesAppend(ms: seq<Marker>, m: Marker)
    ensures CuesOf(ms + [m]) == CuesOf(ms) + multiset{CueOf(m)}
  {
    var cues := seq(|ms|, i requires 0 <= i < |ms| => CueOf(ms[i]));
    assert seq(|ms + [m]|, i requires 0 <= i < |ms + [m]| => CueOf((ms + [m])[i])) == cues + [CueOf(m)];
  }

  /** The order of markers says nothing about their cues. */
  lemma {:induction false} SortedCues(ms: seq<Marker>)
    ensures CuesOf(SortMarkers(ms)) == CuesOf(ms)
    decreases |ms|
  {
    hide CuesOf, SortMarkers, InsertByPos;
    if ms != [] {
      var n := |ms| - 1;
      SortedCues(ms[..n]);
      LastIsInserted(ms, n);
      InsertedCue(ms[n], SortMarkers(ms[..n]));
      CuesAppend(ms[..n], ms[n]);
      assert ms[..n] + [ms[n]] == ms;
    }
  }

  lemma EqualIfAsLarge(a: multiset<Cue>, b: multiset<Cue>)
    requires a <= b && |a| == |b|
    ensures a == b
  {
    assert b == a + (b - a);
  }
}
