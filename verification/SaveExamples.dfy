/**
 * Runs that end with a clean document and a file holding something else. Each takes one step that
 * `SaveOrderly` excludes; together they show that none of its clauses can be dropped.
 */
module SaveExamples {
  import opened Wrappers
  import opened Audio
  import opened Racks
  import opened Document
  import opened Histories
  import opened Ledgers
  import opened EditOps
  import opened Service
  import opened World
  import opened Evolution
  import opened SaveSafety
  import opened SaveRuns

  const PATH: Path := "take.wav"
  const OTHER: Path := "copy.wav"

  const APPEAR := ForeignWrite(PATH, Some(([1.0], Some(multiset{}))))
  const OPEN := OpenFile(PATH, [], None, 44100, DEFAULT_FORMAT, None, true)
  const EDIT := DoEdit(Silencing(0, 1), true)

  const FLOOR := Snapshot(1, 1, [1.0], [])
  const SILENCED := Snapshot(2, 2, [0.0], [])
  const ENTRY := Entry(FLOOR, 1, true, Some(0), None)
  const EDITED := History(SILENCED, [ENTRY], [], 3, 3, 2, 0)

  /** A file appears, is opened, and one sample is silenced. */
  ghost function Edited(): World {
    Do(Do(Do(START, APPEAR), OPEN), EDIT)
  }

  function Doc(h: History): OpenDoc {
    OpenDoc(1, 44100, h, false, Some(PATH), DEFAULT_FORMAT, false, SidecarState(1, [], 1), [])
  }

  lemma OpenedIs()
    ensures var w := Do(Do(START, APPEAR), OPEN);
            && w.svc == INITIAL.(open := Some(Doc(New(Content([1.0], [])))))
            && w.files == map[PATH := FileImage([1.0], Some(multiset{}), 1)]
            && w.tasks == map[] && w.nextTask == 0 && w.nextSession == 2 && w.nextStamp == 2
  {
    var w := Do(START, APPEAR);
    assert CuesOf([]) == multiset{};
    assert CanOpen(w, PATH, [], None);
  }

  lemma SilencedIs()
    ensures var s := INITIAL.(open := Some(Doc(New(Content([1.0], [])))));
            SilenceRange(s, 0, 1, true).svc == s.(open := Some(Doc(EDITED)))
  {
    var edit := SilenceEdit(Range(0, 1));
    SingleReplace([1.0], [], edit.ops[0], None);
    assert Splice([1.0], 0, 1, Silence(1)) == [0.0];
    var w := Work([1.0], [], false);
    assert edit.ops[1..] == [];
    assert ApplyOps(w, edit.ops) == ApplyOps(ApplyOp(w, edit.ops[0]).value, []);
    assert Prepare([1.0], [], edit).value == Work([0.0], [], true);
    assert edit.FirstAt() == Some(0);
    assert [] + [ENTRY] == [ENTRY];
    assert Apply(New(Content([1.0], [])), edit).value.history == EDITED;
  }

  lemma EditedIs()
    ensures var w := Edited();
            && w.svc == INITIAL.(open := Some(Doc(EDITED)))
            && w.files == map[PATH := FileImage([1.0], Some(multiset{}), 1)]
            && w.tasks == map[] && w.nextTask == 0 && w.nextSession == 2 && w.nextStamp == 2
  {
    hide Learn, KeptBakes, SilenceRange, Doc, StepOpen, StepForeign;
    OpenedIs();
    SilencedIs();
  }

  lemma RunTail(w: World, c: Cmd, cs: seq<Cmd>)
    ensures Run(w, [c] + cs) == Run(Do(w, c), cs)
  {
    assert ([c] + cs)[1..] == cs;
  }

  lemma RunEdited(cs: seq<Cmd>)
    ensures Run(START, [APPEAR, OPEN, EDIT] + cs) == Run(Edited(), cs)
  {
    hide Do;
    RunTail(START, APPEAR, [OPEN, EDIT] + cs);
    RunTail(Do(START, APPEAR), OPEN, [EDIT] + cs);
    RunTail(Do(Do(START, APPEAR), OPEN), EDIT, cs);
    assert [APPEAR, OPEN, EDIT] + cs == [APPEAR] + ([OPEN, EDIT] + cs);
    assert [OPEN, EDIT] + cs == [OPEN] + ([EDIT] + cs);
  }

  lemma RunFour(w: World, a: Cmd, b: Cmd, c: Cmd, d: Cmd, rest: seq<Cmd>)
    ensures Run(w, [a, b, c, d] + rest) == Run(Do(Do(Do(Do(w, a), b), c), d), rest)
  {
    hide Do;
    RunTail(w, a, [b, c, d] + rest);
    RunTail(Do(w, a), b, [c, d] + rest);
    RunTail(Do(Do(w, a), b), c, [d] + rest);
    RunTail(Do(Do(Do(w, a), b), c), d, rest);
    assert [a, b, c, d] + rest == [a] + ([b, c, d] + rest);
    assert [b, c, d] + rest == [b] + ([c, d] + rest);
    assert [c, d] + rest == [c] + ([d] + rest);
  }

  /** Trimming the whole undo stack of an edited, never saved document makes it read as clean. */
  lemma TrimmedAway()
    ensures CleanButWrong(Run(START, [APPEAR, OPEN, EDIT] + [TrimUndo(1)]))
  {
    hide Learn, KeptBakes, RecordFloor, Edited, Run;
    RunEdited([TrimUndo(1)]);
    RunTail(Edited(), TrimUndo(1), []);
    RunNone(Do(Edited(), TrimUndo(1)));
    assert [TrimUndo(1)] + [] == [TrimUndo(1)];
    EditedIs();
    var w := Do(Edited(), TrimUndo(1));
    assert w.tasks == map[];
    assert w.svc.open.value == Doc(EDITED.(undo := []));
  }

  lemma RunNone(w: World)
    ensures Run(w, []) == w
  {}

  const TWICE := History(Snapshot(3, 3, [0.0], []), [ENTRY, Entry(SILENCED, 2, true, Some(0), None)], [], 4, 4, 3, 0)

  lemma SilencedTwiceIs()
    ensures var s := INITIAL.(open := Some(Doc(EDITED)));
            SilenceRange(s, 0, 1, true).svc == s.(open := Some(Doc(TWICE)))
  {
    var edit := SilenceEdit(Range(0, 1));
    SingleReplace([0.0], [], edit.ops[0], None);
    assert Splice([0.0], 0, 1, Silence(1)) == [0.0];
    var w := Work([0.0], [], false);
    assert edit.ops[1..] == [];
    assert ApplyOps(w, edit.ops) == ApplyOps(ApplyOp(w, edit.ops[0]).value, []);
    assert Prepare([0.0], [], edit).value == Work([0.0], [], true);
    assert edit.FirstAt() == Some(0);
    assert Apply(EDITED, edit).value.history == TWICE;
  }

  /**
   * Two edits, only the older one trimmed: the document stays dirty, and one undo later it reads
   * clean over a file with other audio.
   */
  lemma TrimmedThenUndone()
    ensures var w := Run(START, [APPEAR, OPEN, EDIT] + [EDIT, TrimUndo(1)]); w.svc.open.Some? && w.svc.open.value.Dirty()
    ensures CleanButWrong(Run(START, [APPEAR, OPEN, EDIT] + [EDIT, TrimUndo(1), DoHistory(true, true)]))
  {
    hide Do, Edited, Run;
    var undo := DoHistory(true, true);
    EditedIs();
    RunEdited([EDIT, TrimUndo(1)]);
    RunEdited([EDIT, TrimUndo(1), undo]);
    var w := Do(Do(Edited(), EDIT), TrimUndo(1));
    RunTail(Edited(), EDIT, [TrimUndo(1)]);
    RunTail(Do(Edited(), EDIT), TrimUndo(1), []);
    RunTail(Edited(), EDIT, [TrimUndo(1), undo]);
    RunTail(Do(Edited(), EDIT), TrimUndo(1), [undo]);
    RunTail(w, undo, []);
    assert [EDIT, TrimUndo(1)] == [EDIT] + [TrimUndo(1)] && [TrimUndo(1)] == [TrimUndo(1)] + [];
    assert [EDIT, TrimUndo(1), undo] == [EDIT] + [TrimUndo(1), undo];
    assert [TrimUndo(1), undo] == [TrimUndo(1)] + [undo] && [undo] == [undo] + [];
    RunNone(w);
    RunNone(Do(w, undo));
    SecondEditIs(Edited());
    PartlyTrimmed(Do(Edited(), EDIT));
  }

  lemma SecondEditIs(w: World)
    requires w.svc == INITIAL.(open := Some(Doc(EDITED)))
    ensures var v := Do(w, EDIT);
            v.svc == INITIAL.(open := Some(Doc(TWICE))) && v.files == w.files && v.tasks == w.tasks
  {
    hide Learn, KeptBakes, SilenceRange, Doc;
    SilencedTwiceIs();
  }

  lemma PartlyTrimmed(w: World)
    requires w.svc == INITIAL.(open := Some(Doc(TWICE))) && w.tasks == map[]
    requires PATH in w.files && w.files[PATH].audio == [1.0]
    ensures var v := Do(w, TrimUndo(1));
            v.svc.open.Some? && v.svc.open.value.Dirty() && CleanButWrong(Do(v, DoHistory(true, true)))
  {
    hide Learn, KeptBakes, RecordFloor;
    var v := Do(w, TrimUndo(1));
    assert v.svc.open.value == Doc(TWICE.(undo := TWICE.undo[1..]));
    var u := Do(v, DoHistory(true, true));
    assert u.svc.open.value.hist.current.audio == [0.0];
    assert u.svc.open.value.hist.undo == [];
  }

  // --- A whole save, from a world without tasks --------------------------------------------------

  function SaveStart(saveAs: Option<(Path, Format)>): Cmd {
    if saveAs.Some? then StartSaveAs(saveAs.value.0, saveAs.value.1, true) else StartSave(true, true)
  }

  /** What a save of `d` started in `w` captures. */
  function Captures(w: World, d: OpenDoc, saveAs: Option<(Path, Format)>): SavePrep
    requires d.path.Some?
  {
    if saveAs.Some? then PrepareSave(d, saveAs.value.0, saveAs.value.1, true, saveAs.value.0 in w.files)
    else PrepareSave(d, d.path.value, d.format, false, d.path.value in w.files)
  }

  ghost predicate Idle(w: World, d: OpenDoc) {
    w.tasks == map[] && w.svc.open == Some(d) && !w.svc.saveRunning && d.path.Some?
  }

  /** `v` is `w` with the save at `phase`. */
  ghost predicate Saving(w: World, v: World, saveAs: Option<(Path, Format)>, phase: SavePhase) {
    && v.svc == w.svc.(saveRunning := true)
    && v.tasks == map[w.nextTask := SaveJob(saveAs, phase)]
    && v.nextTask == w.nextTask + 1
    && v.nextSession == w.nextSession
  }

  lemma SaveStarts(w: World, d: OpenDoc, saveAs: Option<(Path, Format)>)
    requires Idle(w, d) && (saveAs.Some? ==> saveAs.value.1 == DEFAULT_FORMAT)
    ensures var v := Do(w, SaveStart(saveAs));
            Saving(w, v, saveAs, Begun) && v.files == w.files && v.nextStamp == w.nextStamp
  {
    hide Learn, KeptBakes;
  }

  lemma SavePrepares(w: World, v: World, d: OpenDoc, saveAs: Option<(Path, Format)>)
    requires Idle(w, d) && Saving(w, v, saveAs, Begun) && v.files == w.files
    ensures var u := Do(v, SavePrepare(w.nextTask));
            Saving(w, u, saveAs, Prepared(Captures(w, d, saveAs))) && u.files == w.files && u.nextStamp == v.nextStamp
  {
    hide NeedsFull;
  }

  /** The image the write leaves at the captured path. */
  function FilesAfter(files: map<Path, FileImage>, prep: SavePrep, stamp: nat): map<Path, FileImage> {
    if prep.needsFull then files[prep.path := WrittenImage(prep, stamp)] else files
  }

  function StampAfter(files: map<Path, FileImage>, prep: SavePrep, stamp: nat): nat {
    if prep.needsFull then stamp else if prep.path in files then files[prep.path].stamp else 0
  }

  lemma SaveWrites(w: World, v: World, d: OpenDoc, saveAs: Option<(Path, Format)>, prep: SavePrep)
    requires Idle(w, d) && Saving(w, v, saveAs, Prepared(prep)) && v.files == w.files && v.nextStamp == w.nextStamp
    ensures var u := Do(v, SaveWrite(w.nextTask, true, true));
            Saving(w, u, saveAs, WriteDone(prep, Written(StampAfter(w.files, prep, w.nextStamp), true))) &&
            u.files == FilesAfter(w.files, prep, w.nextStamp)
  {
    hide WrittenImage;
  }

  lemma SaveEnds(w: World, v: World, d: OpenDoc, saveAs: Option<(Path, Format)>, prep: SavePrep, outcome: WriteOutcome, io: bool)
    requires Idle(w, d) && Saving(w, v, saveAs, WriteDone(prep, outcome))
    ensures var u := Do(v, SaveEnd(w.nextTask, io));
            u.svc == FinishSave(w.svc, prep, saveAs.Some?, outcome, io).svc && u.files == v.files &&
            u.tasks == map[] && u.nextTask == w.nextTask + 1
  {
    hide Learn, KeptBakes;
  }

  ghost function AfterSave(w: World, saveAs: Option<(Path, Format)>, io: bool): World {
    Do(Do(Do(Do(w, SaveStart(saveAs)), SavePrepare(w.nextTask)), SaveWrite(w.nextTask, true, true)), SaveEnd(w.nextTask, io))
  }

  lemma WholeSave(w: World, d: OpenDoc, saveAs: Option<(Path, Format)>, io: bool)
    requires Idle(w, d) && (saveAs.Some? ==> saveAs.value.1 == DEFAULT_FORMAT)
    ensures var prep, u := Captures(w, d, saveAs), AfterSave(w, saveAs, io);
            u.svc == FinishSave(w.svc, prep, saveAs.Some?, Written(StampAfter(w.files, prep, w.nextStamp), true), io).svc &&
            u.files == FilesAfter(w.files, prep, w.nextStamp) && u.tasks == map[] && u.nextTask == w.nextTask + 1
  {
    hide Do, FinishSave, Captures, FilesAfter, StampAfter;
    SaveStarts(w, d, saveAs);
    var w1 := Do(w, SaveStart(saveAs));
    SavePrepares(w, w1, d, saveAs);
    var w2 := Do(w1, SavePrepare(w.nextTask));
    var prep := Captures(w, d, saveAs);
    SaveWrites(w, w2, d, saveAs, prep);
    var w3 := Do(w2, SaveWrite(w.nextTask, true, true));
    SaveEnds(w, w3, d, saveAs, prep, Written(StampAfter(w.files, prep, w.nextStamp), true), io);
  }

  lemma RunSave(w: World, saveAs: Option<(Path, Format)>, io: bool, rest: seq<Cmd>)
    ensures Run(w, SaveCmds(w.nextTask, saveAs, io) + rest) == Run(AfterSave(w, saveAs, io), rest)
  {
    hide Do;
    RunFour(w, SaveStart(saveAs), SavePrepare(w.nextTask), SaveWrite(w.nextTask, true, true), SaveEnd(w.nextTask, io), rest);
  }

  function SaveCmds(id: nat, saveAs: Option<(Path, Format)>, io: bool): seq<Cmd> {
    [SaveStart(saveAs), SavePrepare(id), SaveWrite(id, true, true), SaveEnd(id, io)]
  }

  /** The file was written, recording it failed, and undo leads back to the last recorded state. */
  lemma UndoneAfterFailedRecord()
    ensures CleanButWrong(Run(START, [APPEAR, OPEN, EDIT] + (SaveCmds(0, None, false) + [DoHistory(true, true)])))
  {
    hide Do, Edited, Run, FinishSave;
    var tail := SaveCmds(0, None, false) + [DoHistory(true, true)];
    EditedIs();
    RunEdited(tail);
    RunSave(Edited(), None, false, [DoHistory(true, true)]);
    WholeSave(Edited(), Doc(EDITED), None, false);
    var w := AfterSave(Edited(), None, false);
    RunTail(w, DoHistory(true, true), []);
    RunNone(Do(w, DoHistory(true, true)));
    assert [DoHistory(true, true)] + [] == [DoHistory(true, true)];
    UndoneIsWrong(w);
  }

  lemma UndoneIsWrong(w: World)
    requires w.svc == FinishSave(INITIAL.(open := Some(Doc(EDITED))), Captured(true, PATH), false, Written(2, true), false).svc
    requires PATH in w.files && w.files[PATH].audio == [0.0] && w.tasks == map[]
    ensures CleanButWrong(Do(w, DoHistory(true, true)))
  {
    hide Learn, KeptBakes;
    assert [ENTRY][..0] == [];
    var v := Do(w, DoHistory(true, true));
    assert v.svc.open.value.hist.current.audio == [1.0];
    assert v.svc.open.value.hist.undo == [];
  }

  function Captured(needsFull: bool, path: Path): SavePrep {
    SavePrep(1, SILENCED, 1, path, DEFAULT_FORMAT, needsFull)
  }

  /** A Save As that could not be recorded makes the next Save skip the original file. */
  lemma SkippedAfterFailedSaveAs()
    ensures CleanButWrong(Run(START, [APPEAR, OPEN, EDIT] +
              (SaveCmds(0, Some((OTHER, DEFAULT_FORMAT)), false) + SaveCmds(1, None, true))))
  {
    hide Do, Edited, Run;
    var target := Some((OTHER, DEFAULT_FORMAT));
    EditedIs();
    RunEdited(SaveCmds(0, target, false) + SaveCmds(1, None, true));
    RunSave(Edited(), target, false, SaveCmds(1, None, true));
    WholeSave(Edited(), Doc(EDITED), target, false);
    var w := AfterSave(Edited(), target, false);
    RunSave(w, None, true, []);
    assert SaveCmds(1, None, true) + [] == SaveCmds(1, None, true);
    var d := Doc(EDITED).(sidecar := SidecarState(2, [], 2));
    WholeSave(w, d, None, true);
    RunNone(AfterSave(w, None, true));
    assert Captures(w, d, None) == Captured(false, PATH);
  }

  /** After one, Save says the file changed on disk, although nobody but the service ever wrote it. */
  lemma RefusedAfterFailedSaveAs()
    ensures var w := Run(START, [APPEAR, OPEN, EDIT] + SaveCmds(0, Some((OTHER, DEFAULT_FORMAT)), false));
            BeginSave(w.svc, OnDisk(w), false, true).reply == Err(ChangedOnDisk)
  {
    hide Do, Edited, Run;
    var target := Some((OTHER, DEFAULT_FORMAT));
    EditedIs();
    RunEdited(SaveCmds(0, target, false));
    RunSave(Edited(), target, false, []);
    assert SaveCmds(0, target, false) + [] == SaveCmds(0, target, false);
    WholeSave(Edited(), Doc(EDITED), target, false);
    RunNone(AfterSave(Edited(), target, false));
  }

  /** The save of a closed document lands on the path after that path was opened again. */
  lemma StrangerLands()
    ensures CleanButWrong(Run(START, [APPEAR, OPEN, EDIT] +
              ([StartSave(true, true), SavePrepare(0), CloseDoc(true), OPEN] + [SaveWrite(0, true, true)])))
  {
    hide Do, Edited, Run;
    var four := [StartSave(true, true), SavePrepare(0), CloseDoc(true), OPEN];
    var last := SaveWrite(0, true, true);
    RunEdited(four + [last]);
    RunFour(Edited(), four[0], four[1], four[2], four[3], [last]);
    EditedIs();
    SaveStarts(Edited(), Doc(EDITED), None);
    var w1 := Do(Edited(), four[0]);
    SavePrepares(Edited(), w1, Doc(EDITED), None);
    var w2 := Do(w1, four[1]);
    ReopensAndLands(w2);
    var w4 := Do(Do(w2, four[2]), four[3]);
    RunTail(w4, last, []);
    RunNone(Do(w4, last));
    assert [last] + [] == [last];
  }

  lemma Reopens(w: World)
    requires w.svc == INITIAL.(open := Some(Doc(EDITED)), saveRunning := true)
    requires PATH in w.files && w.files[PATH] == FileImage([1.0], Some(multiset{}), 1)
    ensures var u := Do(Do(w, CloseDoc(true)), OPEN);
            u.tasks == w.tasks && u.files == w.files &&
            u.svc.open == Some(Doc(New(Content([1.0], []))).(session := w.nextSession))
  {
    hide Learn, KeptBakes;
    assert CuesOf([]) == multiset{};
    assert CanOpen(Do(w, CloseDoc(true)), PATH, [], None);
  }

  lemma ReopensAndLands(w: World)
    requires w.tasks == map[0 := SaveJob(None, Prepared(Captured(true, PATH)))]
    requires w.svc == INITIAL.(open := Some(Doc(EDITED)), saveRunning := true) && w.nextSession == 2
    requires PATH in w.files && w.files[PATH] == FileImage([1.0], Some(multiset{}), 1)
    ensures CleanButWrong(Do(Do(Do(w, CloseDoc(true)), OPEN), SaveWrite(0, true, true)))
  {
    hide Do, StepSaveWrite;
    Reopens(w);
    var u := Do(Do(w, CloseDoc(true)), OPEN);
    DoSave(u, SaveWrite(0, true, true));
    Lands(u);
  }

  lemma Lands(u: World)
    requires u.tasks == map[0 := SaveJob(None, Prepared(Captured(true, PATH)))]
    requires u.svc.open == Some(Doc(New(Content([1.0], []))).(session := 2))
    ensures CleanButWrong(StepSaveWrite(u, 0, true, true))
  {}

  /** An overwrite the user confirmed leaves the other program's audio in the file. */
  lemma OverwriteSkips()
    ensures CleanButWrong(Run(START, [APPEAR, OPEN, ForeignWrite(PATH, Some(([2.0], None)))] + SaveCmds(0, None, true)))
  {
    hide Do, Run;
    var foreign := ForeignWrite(PATH, Some(([2.0], None)));
    var rest := SaveCmds(0, None, true);
    var w := Do(Do(START, APPEAR), OPEN);
    RunTail(START, APPEAR, [OPEN, foreign] + rest);
    RunTail(Do(START, APPEAR), OPEN, [foreign] + rest);
    RunTail(w, foreign, rest);
    assert [APPEAR, OPEN, foreign] + rest == [APPEAR] + ([OPEN, foreign] + rest);
    assert [OPEN, foreign] + rest == [OPEN] + ([foreign] + rest);
    OpenedIs();
    var v := Do(w, foreign);
    assert v == StepForeign(w, PATH, Some(([2.0], None))) by { DoForeign(w); }
    RunSave(v, None, true, []);
    assert rest + [] == rest;
    WholeSave(v, Doc(New(Content([1.0], []))), None, true);
    RunNone(AfterSave(v, None, true));
  }

  lemma DoForeign(w: World)
    ensures Do(w, ForeignWrite(PATH, Some(([2.0], None)))) == StepForeign(w, PATH, Some(([2.0], None)))
  {}
}
