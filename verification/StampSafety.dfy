/**
 * "Changed on disk". Save compares the stamp of the file with the one remembered from opening or the
 * last recorded save. Over every run, orderly or not: an unconfirmed save is refused for that reason
 * exactly if a file is there that somebody else put there since.
 */
module StampSafety {
  import opened Wrappers
  import opened Audio
  import opened Racks
  import opened Stores
  import opened Document
  import opened Histories
  import opened Ledgers
  import opened EditOps
  import opened Service
  import opened World
  import opened Evolution
  import opened SaveSafety
  import opened SaveRuns

  /**
   * Who wrote a file last, after its stamp was read: nobody else, another program, or the save of a
   * document that was closed meanwhile. `Elsewhere`: the stamp that was read last is another file's.
   */
  datatype Since = Nobody | Program | ClosedDocument | Elsewhere

  /** `file`: since the open document's stamp was read; `job[i]`: since save job `i` read the one it will record. */
  datatype Watch = Watch(file: Since, job: map<nat, Since>)

  const FIRST_WATCH := Watch(Nobody, map[])

  predicate OpenAt(w: World, path: Path) {
    w.svc.open.Some? && w.svc.open.value.path == Some(path)
  }

  /** Save job `id` has written, or found nothing to write, at `path`. */
  predicate DoneAt(w: World, id: nat, path: Path) {
    id in w.tasks && w.tasks[id].SaveJob? && w.tasks[id].phase.WriteDone? && w.tasks[id].phase.prep.path == path
  }

  predicate SameSessionOpen(w: World, v: World) {
    v.svc.open.Some? ==> w.svc.open.Some? && w.svc.open.value.session == v.svc.open.value.session
  }

  /** The outcome of save job `id` concerns the open document. */
  predicate Records(w: World, id: nat) {
    && HasSaveJob(w, id) && w.tasks[id].phase.WriteDone? && w.tasks[id].phase.outcome.Written?
    && w.svc.open.Some? && w.svc.open.value.session == w.tasks[id].phase.prep.session
  }

  /** A Save As to another path that cannot be recorded: the document keeps its path. */
  predicate Unbound(w: World, id: nat, io: bool)
    requires Records(w, id)
  {
    w.tasks[id].saveAs.Some? && !io && w.svc.open.value.path != Some(w.tasks[id].phase.prep.path)
  }

  /** What a command adds to the watch: read off the commands alone, whatever stamps the service keeps. */
  ghost function Seen(w: World, m: Watch, c: Cmd): Watch {
    match c
    case ForeignWrite(path, Some(_)) =>
      Watch(if OpenAt(w, path) then Program else m.file,
            map i | i in m.job :: if DoneAt(w, i, path) then Program else m.job[i])
    case SaveWrite(id, ok, _) =>
      if !HasSaveJob(w, id) || !w.tasks[id].phase.Prepared? then m
      else Watch(if ok && WritesForStranger(w, id) then ClosedDocument else m.file, m.job[id := Nobody])
    case SaveEnd(id, io) =>
      if Records(w, id) && id in m.job then m.(file := if Unbound(w, id, io) then Elsewhere else m.job[id]) else m
    case _ => if SameSessionOpen(w, Do(w, c)) then m else m.(file := Nobody)
  }

  /** The watch at the end of a run. */
  ghost function Watching(w: World, m: Watch, cs: seq<Cmd>): Watch
    decreases |cs|
  {
    if cs == [] then m else Watching(Do(w, cs[0]), Seen(w, m, cs[0]), cs[1..])
  }

  // --- The invariant --------------------------------------------------------------------------------

  ghost predicate Stamped(w: World) {
    && 0 < w.nextStamp
    && (forall p :: p in w.files ==> 0 < w.files[p].stamp < w.nextStamp)
    && (forall p, q :: p in w.files && q in w.files && p != q ==> w.files[p].stamp != w.files[q].stamp)
  }

  /** The open document remembers its file's stamp exactly if nobody else, and no save of its own, wrote since. */
  ghost predicate Remembers(w: World, d: OpenDoc, since: Since) {
    d.path.Some? ==>
      && d.sidecar.facts < w.nextStamp
      && (d.path.value in w.files ==>
            (d.sidecar.facts == w.files[d.path.value].stamp <==>
               since.Nobody? && !AwaitingOutcome(w, d.session, d.path.value)))
  }

  /** What a save job of the open document will make it remember. */
  ghost predicate WillRemember(w: World, d: OpenDoc, t: Task, since: Since)
    requires PrepOf(t).Some?
  {
    var prep := PrepOf(t).value;
    && (t.saveAs.None? ==> d.path == Some(prep.path))
    && (t.saveAs.Some? ==> prep.needsFull)
    && (t.phase.WriteDone? && t.phase.outcome.Written? ==>
          && t.phase.outcome.stamp < w.nextStamp
          && (prep.path in w.files ==> (t.phase.outcome.stamp == w.files[prep.path].stamp <==> since.Nobody?))
          && (prep.needsFull ==> forall q :: q in w.files && q != prep.path ==> w.files[q].stamp != t.phase.outcome.stamp))
  }

  ghost predicate JobsRemember(w: World, d: OpenDoc, m: Watch) {
    forall i :: i in w.tasks && PrepOf(w.tasks[i]).Some? && PrepOf(w.tasks[i]).value.session == d.session ==>
      && (w.tasks[i].phase.WriteDone? ==> i in m.job)
      && WillRemember(w, d, w.tasks[i], if i in m.job then m.job[i] else Nobody)
  }

  ghost predicate StampInv(w: World, m: Watch) {
    && OneSave(w) && Stamped(w)
    && (w.svc.open.Some? ==> Remembers(w, w.svc.open.value, m.file) && JobsRemember(w, w.svc.open.value, m))
  }

  // --- Commands that write nothing ------------------------------------------------------------------

  predicate MovesStamps(c: Cmd) {
    c.ForeignWrite? || c.SaveWrite? || c.SaveEnd?
  }

  /** Files, their stamps and save jobs are as before, except that a save may have started or captured. */
  ghost predicate SameFiles(w: World, v: World) {
    v.files == w.files && v.nextStamp == w.nextStamp
  }

  lemma JobsWriteNothing(w: World, c: Cmd)
    requires c.StartNormalize? || c.EndNormalize? || c.StopNormalize? || c.StartBake? || c.EndBake? || c.StopBake?
    ensures SameFiles(w, Do(w, c))
  {
    hide Do, Learn, KeptBakes, BeginNormalize, FinishNormalize, FinishBake, BakeEdit;
    DoEditJob(w, c);
  }

  lemma PastesWriteNothing(w: World, c: Cmd)
    requires c.StartPaste? || c.EndPaste? || c.StopPaste?
    ensures SameFiles(w, Do(w, c))
  {
    hide Do, Learn, KeptBakes, BeginPaste, FinishPaste;
    DoPaste(w, c);
  }

  lemma DocumentsWriteNothing(w: World, c: Cmd)
    requires c.OpenFile? || c.RecoverSession? || c.CloseDoc? || c.TrimUndo? || c.StartRecording? || c.EndTake?
    ensures SameFiles(w, Do(w, c))
  {
    hide Do, Learn, KeptBakes, Agrees, BakesAgree, CanOpen, OpenedMarkers, Detach, DropOldest, BeginRecording, CommitTake, Open, Close;
    DoDocument(w, c);
  }

  lemma SavesStartWithoutWriting(w: World, c: Cmd)
    requires c.StartSave? || c.StartSaveAs? || c.SavePrepare?
    ensures SameFiles(w, Do(w, c))
  {
    hide Do, Learn, KeptBakes, PrepareSave;
    DoSave(w, c);
  }

  lemma OthersWriteNothing(w: World, c: Cmd)
    requires !MovesStamps(c)
    ensures SameFiles(w, Do(w, c))
  {
    hide Do;
    if c.StartNormalize? || c.EndNormalize? || c.StopNormalize? || c.StartBake? || c.EndBake? || c.StopBake? {
      JobsWriteNothing(w, c);
    } else if c.StartPaste? || c.EndPaste? || c.StopPaste? {
      PastesWriteNothing(w, c);
    } else if c.OpenFile? || c.RecoverSession? || c.CloseDoc? || c.TrimUndo? || c.StartRecording? || c.EndTake? {
      DocumentsWriteNothing(w, c);
    } else if c.StartSave? || c.StartSaveAs? || c.SavePrepare? {
      SavesStartWithoutWriting(w, c);
    } else {
      DoPlain(w, c);
    }
  }

  /** The document evolved, or only its undo stack was trimmed; its saves are as before. */
  lemma StayingKeeps(w: World, v: World, m: Watch)
    requires StampInv(w, m) && SameFiles(w, v) && SameSaves(w, v)
    requires w.svc.open.Some? == v.svc.open.Some?
    requires w.svc.open.Some? ==> v.svc.open.value == w.svc.open.value.(hist := v.svc.open.value.hist, recording := v.svc.open.value.recording, store := v.svc.open.value.store)
    ensures StampInv(v, m)
  {
    if v.svc.open.Some? {
      var d, e := w.svc.open.value, v.svc.open.value;
      assert Remembers(w, d, m.file);
      if d.path.Some? {
        SameSavesAwait(w, v, d.session, d.path.value);
      }
      forall i | i in v.tasks && PrepOf(v.tasks[i]).Some? && PrepOf(v.tasks[i]).value.session == e.session
        ensures v.tasks[i].phase.WriteDone? ==> i in m.job
        ensures WillRemember(v, e, v.tasks[i], if i in m.job then m.job[i] else Nobody)
      {
        assert WillRemember(w, d, w.tasks[i], if i in m.job then m.job[i] else Nobody);
      }
    }
  }

  /** A document of a fresh session has no save job; it remembers the stamp its file has. */
  lemma FreshKeeps(w: World, v: World, m: Watch)
    requires StampInv(w, m) && SameFiles(w, v) && SameSaves(w, v)
    requires v.svc.open.Some? ==>
               var d := v.svc.open.value;
               && d.session == w.nextSession < v.nextSession
               && (d.path.Some? ==> d.sidecar.facts == if d.path.value in w.files then w.files[d.path.value].stamp else 0)
    ensures StampInv(v, m.(file := Nobody))
  {}

  lemma EvolvingStays(w: World, c: Cmd, m: Watch)
    requires StampInv(w, m) && IsEvolving(c)
    ensures StampInv(Do(w, c), Seen(w, m, c))
  {
    hide Do, StampInv, Moves;
    IdsBounded(w, m);
    EvolvingFrame(w, c);
    OthersWriteNothing(w, c);
    StayingKeeps(w, Do(w, c), m);
    assert Seen(w, m, c) == m;
  }

  lemma IdsBounded(w: World, m: Watch)
    requires StampInv(w, m)
    ensures TasksBounded(w)
  {}

  lemma TrimStays(w: World, count: nat, m: Watch)
    requires StampInv(w, m)
    ensures StampInv(StepTrimUndo(w, count), m)
  {
    hide StampInv, RecordFloor, DropOldest, Learn, KeptBakes;
    IdsBounded(w, m);
    StayingKeeps(w, StepTrimUndo(w, count), m);
  }

  lemma OpenStays(w: World, c: Cmd, m: Watch)
    requires StampInv(w, m) && (c.OpenFile? || c.RecoverSession? || c.CloseDoc?)
    ensures StampInv(Do(w, c), Seen(w, m, c))
  {
    hide Do, StampInv, Learn, KeptBakes, Agrees, BakesAgree, MarkersFit, CuesOf, OpenedMarkers, Detach, ClipFileAfter;
    IdsBounded(w, m);
    DoDocument(w, c);
    var v := Do(w, c);
    if SameSessionOpen(w, v) && v.svc.open.Some? {
      OldSession(w, m);
      StayingKeeps(w, v, m);
    } else {
      DetachKeepsFlag(w.svc);
      FreshKeeps(w, v, m);
      if v.svc.open.None? {
        NoneOpen(v, m.(file := Nobody), Seen(w, m, c));
      }
    }
  }

  lemma OldSession(w: World, m: Watch)
    requires StampInv(w, m)
    ensures w.svc.open.Some? ==> w.svc.open.value.session < w.nextSession
  {}

  lemma NoneOpen(v: World, m: Watch, n: Watch)
    requires StampInv(v, m) && v.svc.open.None?
    ensures StampInv(v, n)
  {}

  lemma DetachKeepsFlag(s: Svc)
    ensures forall io :: Detach(s, io).saveRunning == s.saveRunning
    ensures forall io, rack :: Detach(s.(rack := rack), io).saveRunning == s.saveRunning
  {
    hide Lookup;
  }

  /** The document went on, or gave way to a fresh untitled one. */
  lemma EvolvedOrFresh(w: World, v: World, m: Watch)
    requires StampInv(w, m) && SameFiles(w, v) && v.tasks == w.tasks && v.nextTask == w.nextTask
    requires v.svc.saveRunning == w.svc.saveRunning && w.nextSession < v.nextSession
    requires Evolves(w.svc.open, v.svc.open) ||
             (v.svc.open.Some? && v.svc.open.value.session == w.nextSession && v.svc.open.value.path.None?)
    ensures StampInv(v, if SameSessionOpen(w, v) then m else m.(file := Nobody))
  {
    hide StampInv, Moves, HistoryEvolves;
    IdsBounded(w, m);
    OldSession(w, m);
    if Evolves(w.svc.open, v.svc.open) {
      StayingKeeps(w, v, m);
    } else {
      FreshKeeps(w, v, m);
    }
  }

  lemma RecordingStays(w: World, rate: nat, format: Format, replace: bool, creates: bool, clipIo: bool, io: bool, m: Watch)
    requires StampInv(w, m)
    ensures var v := StepStartRecording(w, rate, format, replace, creates, clipIo, io);
            StampInv(v, if SameSessionOpen(w, v) then m else m.(file := Nobody))
  {
    hide StampInv, Evolves, Learn, KeptBakes, Install, BeginRecording, ClipFileAfter;
    var created := if creates then Some(w.nextSession) else None;
    RecordingShape(w.svc, rate, format, replace, created, clipIo, io);
    if creates {
      InstallKeepsFlag(w.svc, NewRecording(w.nextSession, rate, format), clipIo);
    }
    EvolvedOrFresh(w, StepStartRecording(w, rate, format, replace, creates, clipIo, io), m);
  }

  lemma TakeStays(w: World, take: Option<TakeEdit>, io: bool, creates: bool, clipIo: bool, m: Watch)
    requires StampInv(w, m)
    ensures var v := StepEndTake(w, take, io, creates, clipIo);
            StampInv(v, if SameSessionOpen(w, v) then m else m.(file := Nobody))
  {
    hide StampInv, Evolves, Learn, KeptBakes, Install, CommitTake, ClipFileAfter, AsEdit;
    var created := if creates then Some(w.nextSession) else None;
    TakeEvolves(w.svc, AsEdit(take), io, created, clipIo);
    if w.svc.open.Some? && creates {
      InstallKeepsFlag(w.svc, NewRecording(w.nextSession, w.svc.open.value.rateHz, w.svc.open.value.format), clipIo);
    }
    EvolvedOrFresh(w, StepEndTake(w, take, io, creates, clipIo), m);
  }

  lemma TakesStay(w: World, c: Cmd, m: Watch)
    requires StampInv(w, m) && (c.StartRecording? || c.EndTake?)
    ensures StampInv(Do(w, c), Seen(w, m, c))
  {
    hide Do, StampInv, StepStartRecording, StepEndTake;
    DoDocument(w, c);
    match c
    case StartRecording(rate, format, replace, creates, clipIo, io) =>
      RecordingStays(w, rate, format, replace, creates, clipIo, io, m);
    case EndTake(take, io, creates, clipIo) => TakeStays(w, take, io, creates, clipIo, m);
  }

  lemma InstallKeepsFlag(s: Svc, doc: OpenDoc, io: bool)
    ensures Install(s, doc, io).saveRunning == s.saveRunning && Install(s, doc, io).open == Some(doc)
  {
    hide Lookup;
  }

  // --- Saves ----------------------------------------------------------------------------------------

  lemma SaveStartStays(w: World, c: Cmd, m: Watch)
    requires StampInv(w, m) && (c.StartSave? || c.StartSaveAs?)
    ensures StampInv(Do(w, c), m) && SameSessionOpen(w, Do(w, c))
  {
    hide Do, BeginSave, BeginSaveAs, WillRemember, Learn, KeptBakes;
    DoSave(w, c);
    var out := if c.StartSave? then BeginSave(w.svc, OnDisk(w), c.overwrite, c.preflight) else BeginSaveAs(w.svc, c.format, c.preflight);
    BeginClaims(w.svc, OnDisk(w), c);
    var v := Do(w, c);
    if v.svc.open.Some? {
      var d := v.svc.open.value;
      assert Remembers(w, d, m.file);
      if d.path.Some? {
        BegunAwaitsNothing(w, v, d.session, d.path.value);
      }
      assert Remembers(v, d, m.file);
      forall i | i in v.tasks && PrepOf(v.tasks[i]).Some? && PrepOf(v.tasks[i]).value.session == d.session
        ensures v.tasks[i].phase.WriteDone? ==> i in m.job
        ensures WillRemember(v, d, v.tasks[i], if i in m.job then m.job[i] else Nobody)
      {
        SameMemory(w, v, d, w.tasks[i], if i in m.job then m.job[i] else Nobody);
      }
    }
  }

  lemma SameMemory(w: World, v: World, d: OpenDoc, t: Task, since: Since)
    requires PrepOf(t).Some? && WillRemember(w, d, t, since) && SameFiles(w, v)
    ensures WillRemember(v, d, t, since)
  {}

  /** A start that is accepted sets the flag and nothing else; one that is refused changes nothing. */
  lemma BeginClaims(s: Svc, onDisk: Option<nat>, c: Cmd)
    ensures c.StartSave? ==>
              var out := BeginSave(s, onDisk, c.overwrite, c.preflight);
              if out.reply.Ok? then !s.saveRunning && out.svc == s.(saveRunning := true) else out.svc == s
    ensures c.StartSaveAs? ==>
              var out := BeginSaveAs(s, c.format, c.preflight);
              if out.reply.Ok? then !s.saveRunning && out.svc == s.(saveRunning := true) else out.svc == s
  {}

  lemma BegunAwaitsNothing(w: World, v: World, session: nat, path: Path)
    requires TasksBounded(w)
    requires v.tasks == w.tasks || (exists t: Task :: t.SaveJob? && t.phase.Begun? && v.tasks == w.tasks[w.nextTask := t])
    ensures AwaitingOutcome(v, session, path) == AwaitingOutcome(w, session, path)
  {
    if AwaitingOutcome(w, session, path) {
      var i :| i in w.tasks && Landed(w.tasks[i], session, path);
      assert i in v.tasks && Landed(v.tasks[i], session, path);
    }
  }

  lemma PrepareStays(w: World, id: nat, m: Watch)
    requires StampInv(w, m)
    ensures StampInv(StepSavePrepare(w, id), m)
  {
    PrepareLeavesFiles(w, id);
    if w.svc.open.Some? {
      PrepareRemembered(w, id, m, w.svc.open.value);
    }
  }

  lemma PrepareRemembered(w: World, id: nat, m: Watch, d: OpenDoc)
    requires StampInv(w, m) && w.svc.open == Some(d)
    ensures var v := StepSavePrepare(w, id); Remembers(v, d, m.file) && JobsRemember(v, d, m)
  {
    hide OneSave, Stamped, AwaitingOutcome;
    var v := StepSavePrepare(w, id);
    PrepareLeavesFiles(w, id);
    assert Remembers(w, d, m.file);
    forall i | i in v.tasks && PrepOf(v.tasks[i]).Some? && PrepOf(v.tasks[i]).value.session == d.session
      ensures v.tasks[i].phase.WriteDone? ==> i in m.job
      ensures WillRemember(v, d, v.tasks[i], if i in m.job then m.job[i] else Nobody)
    {
      if v.tasks[i] == w.tasks[i] {
        SameMemory(w, v, d, w.tasks[i], if i in m.job then m.job[i] else Nobody);
      }
    }
  }

  lemma WriteStays(w: World, id: nat, ok: bool, sidecarOk: bool, m: Watch)
    requires StampInv(w, m)
    ensures StampInv(StepSaveWrite(w, id, ok, sidecarOk), Seen(w, m, SaveWrite(id, ok, sidecarOk)))
  {
    hide WrittenImage, Remembers, JobsRemember, OneSave;
    var v, n := StepSaveWrite(w, id, ok, sidecarOk), Seen(w, m, SaveWrite(id, ok, sidecarOk));
    if HasSaveJob(w, id) && w.tasks[id].phase.Prepared? {
      WriteLeaves(w, id, ok, sidecarOk);
      ImageStamp(w.tasks[id].phase.prep, w.nextStamp);
      assert Stamped(v);
      if w.svc.open.Some? {
        WriteRemembered(w, id, ok, sidecarOk, m, w.svc.open.value);
      }
    }
  }

  lemma WriteRemembered(w: World, id: nat, ok: bool, sidecarOk: bool, m: Watch, d: OpenDoc)
    requires StampInv(w, m) && w.svc.open == Some(d) && HasSaveJob(w, id) && w.tasks[id].phase.Prepared?
    requires OneSave(StepSaveWrite(w, id, ok, sidecarOk))
    ensures var v, n := StepSaveWrite(w, id, ok, sidecarOk), Seen(w, m, SaveWrite(id, ok, sidecarOk));
            Remembers(v, d, n.file) && JobsRemember(v, d, n)
  {
    WriteSeen(w, id, ok, sidecarOk, m);
    WrittenFile(w, id, ok, sidecarOk, m, d);
    WrittenJob(w, id, ok, sidecarOk, m, d, Seen(w, m, SaveWrite(id, ok, sidecarOk)).file);
  }

  lemma WriteSeen(w: World, id: nat, ok: bool, sidecarOk: bool, m: Watch)
    requires HasSaveJob(w, id) && w.tasks[id].phase.Prepared?
    ensures Seen(w, m, SaveWrite(id, ok, sidecarOk)) ==
            Watch(if ok && WritesForStranger(w, id) then ClosedDocument else m.file, m.job[id := Nobody])
  {}

  lemma WrittenFile(w: World, id: nat, ok: bool, sidecarOk: bool, m: Watch, d: OpenDoc)
    requires StampInv(w, m) && w.svc.open == Some(d) && HasSaveJob(w, id) && w.tasks[id].phase.Prepared?
    requires OneSave(StepSaveWrite(w, id, ok, sidecarOk))
    ensures Remembers(StepSaveWrite(w, id, ok, sidecarOk), d, if ok && WritesForStranger(w, id) then ClosedDocument else m.file)
  {
    hide WrittenImage, WillRemember, AwaitingOutcome;
    var v := StepSaveWrite(w, id, ok, sidecarOk);
    assert Remembers(w, d, m.file);
    if d.path.Some? {
      OnlyAwaiting(w, id, d.session, d.path.value);
      OnlyAwaiting(v, id, d.session, d.path.value);
      ImageStamp(w.tasks[id].phase.prep, w.nextStamp);
    }
  }

  lemma ImageStamp(prep: SavePrep, stamp: nat)
    ensures WrittenImage(prep, stamp).stamp == stamp
  {}

  lemma WrittenJob(w: World, id: nat, ok: bool, sidecarOk: bool, m: Watch, d: OpenDoc, since: Since)
    requires StampInv(w, m) && w.svc.open == Some(d) && HasSaveJob(w, id) && w.tasks[id].phase.Prepared?
    requires OneSave(StepSaveWrite(w, id, ok, sidecarOk))
    ensures JobsRemember(StepSaveWrite(w, id, ok, sidecarOk), d, Watch(since, m.job[id := Nobody]))
  {
    hide WrittenImage, Remembers;
    var v, job := StepSaveWrite(w, id, ok, sidecarOk), m.job[id := Nobody];
    ImageStamp(w.tasks[id].phase.prep, w.nextStamp);
    WriteLeaves(w, id, ok, sidecarOk);
    assert w.tasks[id].phase.prep.session == d.session ==>
             WillRemember(w, d, w.tasks[id], if id in m.job then m.job[id] else Nobody);
    forall i | i in v.tasks && PrepOf(v.tasks[i]).Some? && PrepOf(v.tasks[i]).value.session == d.session
      ensures v.tasks[i].phase.WriteDone? ==> i in job
      ensures WillRemember(v, d, v.tasks[i], if i in job then job[i] else Nobody)
    {
      assert i == id;
    }
  }

  lemma EndStays(w: World, id: nat, io: bool, m: Watch)
    requires StampInv(w, m)
    ensures StampInv(StepSaveEnd(w, id, io), Seen(w, m, SaveEnd(id, io)))
  {
    hide Learn, KeptBakes, Remembers, WillRemember, FinishSave, Seen, AwaitingOutcome;
    EndKeepsOne(w, id, io);
    EndKeepsClock(w, id, io);
    var v, n := StepSaveEnd(w, id, io), Seen(w, m, SaveEnd(id, io));
    if HasSaveJob(w, id) && w.tasks[id].phase.WriteDone? {
      EndLeavesNoCapture(w, id, io);
      if w.svc.open.Some? {
        EndLeaves(w, id, io, w.svc.open.value);
        EndRemembered(w, id, io, m, w.svc.open.value);
      } else {
        EndOpensNothing(w, id, io);
      }
    } else {
      assert n == m && v == w by { NothingEnds(w, id, io, m); }
    }
  }

  lemma NothingEnds(w: World, id: nat, io: bool, m: Watch)
    requires !(HasSaveJob(w, id) && w.tasks[id].phase.WriteDone?)
    ensures StepSaveEnd(w, id, io) == w && Seen(w, m, SaveEnd(id, io)) == m
  {}

  lemma EndOpensNothing(w: World, id: nat, io: bool)
    requires w.svc.open.None?
    ensures StepSaveEnd(w, id, io).svc.open.None?
  {}

  lemma EndKeepsOne(w: World, id: nat, io: bool)
    requires OneSave(w)
    ensures OneSave(StepSaveEnd(w, id, io))
  {
    hide Learn, KeptBakes, SavedSidecar, MarkSavedAt;
  }

  lemma EndRemembered(w: World, id: nat, io: bool, m: Watch, d: OpenDoc)
    requires StampInv(w, m) && w.svc.open == Some(d) && HasSaveJob(w, id) && w.tasks[id].phase.WriteDone?
    ensures var v, n := StepSaveEnd(w, id, io), Seen(w, m, SaveEnd(id, io));
            v.svc.open.Some? && Remembers(v, v.svc.open.value, n.file)
  {
    hide StepSaveEnd, AwaitingOutcome, OneSave;
    EndLeaves(w, id, io, d);
    EndKeepsClock(w, id, io);
    assert Remembers(w, d, m.file);
    if d.path.Some? {
      OnlyAwaiting(w, id, d.session, d.path.value);
    }
    if w.tasks[id].phase.prep.session == d.session {
      assert WillRemember(w, d, w.tasks[id], if id in m.job then m.job[id] else Nobody);
    }
  }

  lemma EndKeepsClock(w: World, id: nat, io: bool)
    ensures SameFiles(w, StepSaveEnd(w, id, io))
  {
    hide FinishSave, Learn, KeptBakes;
  }

  lemma ForeignStays(w: World, path: Path, image: Option<(Samples, Option<multiset<Cue>>)>, m: Watch)
    requires StampInv(w, m)
    ensures StampInv(StepForeign(w, path, image), Seen(w, m, ForeignWrite(path, image)))
  {
    hide Remembers, JobsRemember, Seen;
    ForeignStamps(w, path, image);
    if w.svc.open.Some? {
      ForeignFile(w, path, image, m, w.svc.open.value);
      ForeignJobs(w, path, image, m, w.svc.open.value);
    }
  }

  lemma ForeignStamps(w: World, path: Path, image: Option<(Samples, Option<multiset<Cue>>)>)
    requires Stamped(w)
    ensures Stamped(StepForeign(w, path, image))
  {}

  lemma ForeignFile(w: World, path: Path, image: Option<(Samples, Option<multiset<Cue>>)>, m: Watch, d: OpenDoc)
    requires w.svc.open == Some(d) && Stamped(w) && Remembers(w, d, m.file)
    ensures Remembers(StepForeign(w, path, image), d, Seen(w, m, ForeignWrite(path, image)).file)
  {
    var v := StepForeign(w, path, image);
    assert forall session, p :: AwaitingOutcome(w, session, p) == AwaitingOutcome(v, session, p);
  }

  lemma ForeignJobs(w: World, path: Path, image: Option<(Samples, Option<multiset<Cue>>)>, m: Watch, d: OpenDoc)
    requires w.svc.open == Some(d) && Stamped(w) && JobsRemember(w, d, m)
    ensures JobsRemember(StepForeign(w, path, image), d, Seen(w, m, ForeignWrite(path, image)))
  {
    var v, n := StepForeign(w, path, image), Seen(w, m, ForeignWrite(path, image));
    forall i | i in v.tasks && PrepOf(v.tasks[i]).Some? && PrepOf(v.tasks[i]).value.session == d.session
      ensures v.tasks[i].phase.WriteDone? ==> i in n.job
      ensures WillRemember(v, d, v.tasks[i], if i in n.job then n.job[i] else Nobody)
    {
      assert WillRemember(w, d, w.tasks[i], if i in m.job then m.job[i] else Nobody);
    }
  }

  // --- Every run ------------------------------------------------------------------------------------

  lemma StepKeepsStamps(w: World, c: Cmd, m: Watch)
    requires StampInv(w, m)
    ensures StampInv(Do(w, c), Seen(w, m, c))
  {
    hide StampInv, Do, StepTrimUndo, StepSavePrepare, StepSaveWrite, StepSaveEnd, StepForeign;
    if IsEvolving(c) {
      EvolvingStays(w, c, m);
    } else if c.OpenFile? || c.RecoverSession? || c.CloseDoc? {
      OpenStays(w, c, m);
    } else if c.StartRecording? || c.EndTake? {
      TakesStay(w, c, m);
    } else if c.StartSave? || c.StartSaveAs? {
      SaveStartStays(w, c, m);
    } else {
      DoDocument(w, c);
      DoSave(w, c);
      match c
      case TrimUndo(count) =>
        TrimStays(w, count, m);
        TrimSession(w, count);
      case SavePrepare(id) =>
        PrepareStays(w, id, m);
        PrepareSession(w, id);
      case SaveWrite(id, ok, sidecarOk) => WriteStays(w, id, ok, sidecarOk, m);
      case SaveEnd(id, io) => EndStays(w, id, io, m);
      case ForeignWrite(path, image) => ForeignStays(w, path, image, m);
    }
  }

  lemma TrimSession(w: World, count: nat)
    ensures SameSessionOpen(w, StepTrimUndo(w, count))
  {}

  lemma PrepareSession(w: World, id: nat)
    ensures SameSessionOpen(w, StepSavePrepare(w, id))
  {}

  lemma {:induction false} RunKeepsStamps(w: World, cs: seq<Cmd>, m: Watch)
    requires StampInv(w, m)
    ensures StampInv(Run(w, cs), Watching(w, m, cs))
    decreases |cs|
  {
    hide StampInv, Do, Seen;
    if cs != [] {
      StepKeepsStamps(w, cs[0], m);
      RunKeepsStamps(Do(w, cs[0]), cs[1..], Seen(w, m, cs[0]));
    }
  }

  /**
   * When an unconfirmed save is refused as changed on disk, after any run whatsoever: with no save
   * under way and a titled document open, exactly if a file is there and somebody else wrote it since
   * the document was opened or its last save wrote it (or what was recorded last was another file).
   */
  lemma ChangedOnDiskExactly(cs: seq<Cmd>, preflight: bool)
    ensures var w := Run(START, cs);
            BeginSave(w.svc, OnDisk(w), false, preflight).reply == Err(ChangedOnDisk) <==>
              && !w.svc.saveRunning && w.svc.open.Some? && w.svc.open.value.path.Some?
              && w.svc.open.value.path.value in w.files
              && Watching(START, FIRST_WATCH, cs).file != Nobody
  {
    hide Run, Watching;
    RunKeepsStamps(START, cs, FIRST_WATCH);
    var w := Run(START, cs);
    if !w.svc.saveRunning && w.svc.open.Some? && w.svc.open.value.path.Some? {
      var d := w.svc.open.value;
      assert Remembers(w, d, Watching(START, FIRST_WATCH, cs).file);
      NothingAwaits(w, d.session, d.path.value);
    }
  }

  // --- Which of them is another program -------------------------------------------------------------

  /** No save of a closed document lands on the open file, and no Save As elsewhere goes unrecorded. */
  predicate OwnWritesOnly(w: World, c: Cmd) {
    match c
    case SaveWrite(id, ok, _) => !(ok && WritesForStranger(w, id))
    case SaveEnd(id, io) => Records(w, id) ==> !Unbound(w, id, io)
    case _ => true
  }

  ghost predicate OwnRun(w: World, cs: seq<Cmd>)
    decreases |cs|
  {
    cs != [] ==> OwnWritesOnly(w, cs[0]) && OwnRun(Do(w, cs[0]), cs[1..])
  }

  ghost predicate OnlyPrograms(m: Watch) {
    && (m.file.Nobody? || m.file.Program?)
    && (forall i :: i in m.job ==> m.job[i].Nobody? || m.job[i].Program?)
  }

  lemma {:induction false} OnlyProgramsWrite(w: World, cs: seq<Cmd>, m: Watch)
    requires OwnRun(w, cs) && OnlyPrograms(m)
    ensures OnlyPrograms(Watching(w, m, cs))
    decreases |cs|
  {
    hide Do;
    if cs != [] {
      SeenIsProgram(w, m, cs[0]);
      OnlyProgramsWrite(Do(w, cs[0]), cs[1..], Seen(w, m, cs[0]));
    }
  }

  lemma SeenIsProgram(w: World, m: Watch, c: Cmd)
    requires OwnWritesOnly(w, c) && OnlyPrograms(m)
    ensures OnlyPrograms(Seen(w, m, c))
  {
    hide Do;
  }

  /** So along runs without those two steps it is exactly another program that makes Save refuse. */
  lemma RefusedForPrograms(cs: seq<Cmd>, preflight: bool)
    requires OwnRun(START, cs)
    ensures var w := Run(START, cs);
            BeginSave(w.svc, OnDisk(w), false, preflight).reply == Err(ChangedOnDisk) <==>
              && !w.svc.saveRunning && w.svc.open.Some? && w.svc.open.value.path.Some?
              && w.svc.open.value.path.value in w.files
              && Watching(START, FIRST_WATCH, cs).file == Program
  {
    hide Run, Watching, BeginSave;
    OnlyProgramsWrite(START, cs, FIRST_WATCH);
    ChangedOnDiskExactly(cs, preflight);
  }

  // --- Orderly runs ---------------------------------------------------------------------------------

  ghost predicate Untouched(m: Watch) {
    m.file.Nobody? && forall i :: i in m.job ==> m.job[i].Nobody?
  }

  lemma DoneIsWatched(w: World, i: nat, path: Path)
    ensures DoneAt(w, i, path) ==> Watched(w, path)
  {
    if DoneAt(w, i, path) {
      assert PrepOf(w.tasks[i]).Some? && PrepOf(w.tasks[i]).value.path == path;
    }
  }

  lemma NobodyWatches(w: World, path: Path)
    requires !Watched(w, path)
    ensures !OpenAt(w, path) && forall i :: !DoneAt(w, i, path)
  {
    forall i ensures !DoneAt(w, i, path) {
      DoneIsWatched(w, i, path);
    }
  }

  lemma OrderlySeesNobody(w: World, m: Watch, c: Cmd)
    requires SaveInv(w) && SaveOrderly(w, c) && Untouched(m)
    ensures Untouched(Seen(w, m, c))
  {
    hide Do, FloorMatters, Agrees, OnFile;
    if c.SaveEnd? && Records(w, c.task) {
      assert PrepHolds(w, w.svc.open.value, w.tasks[c.task]);
    }
    if c.ForeignWrite? {
      NobodyWatches(w, c.path);
    }
  }

  lemma {:induction false} OrderlyUntouched(w: World, cs: seq<Cmd>, m: Watch)
    requires OrderlyRun(w, cs) && Untouched(m) && SaveInv(w)
    ensures Untouched(Watching(w, m, cs))
    decreases |cs|
  {
    hide Do, SaveInv, SaveOrderly, Seen;
    if cs != [] {
      OrderlySeesNobody(w, m, cs[0]);
      StepKeepsSaveInv(w, cs[0]);
      OrderlyUntouched(Do(w, cs[0]), cs[1..], Seen(w, m, cs[0]));
    }
  }

  /** After any orderly run a titled document remembers the stamp its file has, unless a write of its own waits to be recorded. */
  lemma StampIsRemembered(cs: seq<Cmd>)
    requires OrderlyRun(START, cs)
    requires var w := Run(START, cs); w.svc.open.Some? && Titled(w.svc.open.value)
    ensures var w := Run(START, cs);
            var d := w.svc.open.value;
            && d.path.value in w.files
            && (d.sidecar.facts == w.files[d.path.value].stamp <==> !AwaitingOutcome(w, d.session, d.path.value))
  {
    hide Run, Watching, OrderlyRun;
    RunKeepsStamps(START, cs, FIRST_WATCH);
    OrderlyUntouched(START, cs, FIRST_WATCH);
    RunKeepsSaveInv(START, cs);
    var w := Run(START, cs);
    assert OnFile(w, w.svc.open.value) && Remembers(w, w.svc.open.value, Watching(START, FIRST_WATCH, cs).file);
  }
}
