/**
 * A recovered document counts as modified until a save of it has been recorded, whatever happens to
 * its history meanwhile.
 */
module Recovery {
  import opened Wrappers
  import opened Audio
  import opened Racks
  import opened Stores
  import opened Document
  import opened Histories
  import opened Ledgers
  import opened EditOps
  import opened Service
  import opened World
  import opened Evolution
  import opened StampSafety

  /** The document of `session` is open. */
  predicate IsOpen(w: World, session: nat) {
    w.svc.open.Some? && w.svc.open.value.session == session
  }

  /** A successful save of the open document is recorded. */
  predicate Recorded(w: World, c: Cmd) {
    c.SaveEnd? && Records(w, c.task) && c.io
  }

  ghost predicate StaysOpen(w: World, cs: seq<Cmd>, session: nat)
    decreases |cs|
  {
    IsOpen(w, session) && (cs != [] ==> StaysOpen(Do(w, cs[0]), cs[1..], session))
  }

  ghost predicate RecordedIn(w: World, cs: seq<Cmd>)
    decreases |cs|
  {
    cs != [] && (Recorded(w, cs[0]) || RecordedIn(Do(w, cs[0]), cs[1..]))
  }

  /** The open document went on as the same one; `saved`: a save of it was recorded. */
  predicate Carried(w: World, v: World, saved: bool) {
    w.svc.open.Some? && v.svc.open.Some? && v.svc.open.value.session == w.svc.open.value.session ==>
      v.svc.open.value.recovered == (w.svc.open.value.recovered && !saved)
  }

  lemma EvolvedCarries(w: World, v: World)
    requires Evolves(w.svc.open, v.svc.open) || v.svc.open == w.svc.open || v.svc.open.None?
    ensures Carried(w, v, false)
  {
    hide HistoryEvolves;
  }

  lemma AnotherCarries(w: World, v: World, m: Watch)
    requires StampInv(w, m) && (v.svc.open.Some? ==> v.svc.open.value.session == w.nextSession)
    ensures Carried(w, v, false)
  {
    OldSession(w, m);
  }

  lemma OpeningCarries(w: World, c: Cmd, m: Watch)
    requires StampInv(w, m) && (c.OpenFile? || c.RecoverSession? || c.CloseDoc?)
    ensures Carried(w, Do(w, c), false)
  {
    hide Do, StampInv, Learn, KeptBakes, Agrees, BakesAgree, MarkersFit, CuesOf, OpenedMarkers, Detach, ClipFileAfter;
    DoDocument(w, c);
    if Do(w, c).svc.open != w.svc.open {
      AnotherCarries(w, Do(w, c), m);
    }
  }

  lemma TakeCarries(w: World, c: Cmd, m: Watch)
    requires StampInv(w, m) && (c.StartRecording? || c.EndTake?)
    ensures Carried(w, Do(w, c), false)
  {
    hide Do, StampInv, Learn, KeptBakes, Install, BeginRecording, CommitTake, ClipFileAfter, AsEdit, HistoryEvolves;
    DoDocument(w, c);
    if c.StartRecording? {
      RecordingShape(w.svc, c.rate, c.format, c.replace, if c.creates then Some(w.nextSession) else None, c.clipIo, c.io);
    } else {
      IdsBounded(w, m);
      EndTakeShape(w, c.take, c.io, c.creates, c.clipIo);
    }
    if !Evolves(w.svc.open, Do(w, c).svc.open) {
      AnotherCarries(w, Do(w, c), m);
    }
  }

  lemma SaveCarries(w: World, c: Cmd)
    requires c.StartSave? || c.StartSaveAs? || c.SavePrepare? || c.SaveWrite? || c.SaveEnd?
    ensures Carried(w, Do(w, c), Recorded(w, c))
  {
    hide Do, Learn, KeptBakes, CuesOf, NeedsFull;
    DoSave(w, c);
  }

  lemma StepCarries(w: World, c: Cmd, m: Watch)
    requires StampInv(w, m)
    ensures Carried(w, Do(w, c), Recorded(w, c))
  {
    hide StampInv, Do, StepTrimUndo, StepForeign;
    if IsEvolving(c) {
      IdsBounded(w, m);
      EvolvingFrame(w, c);
      EvolvedCarries(w, Do(w, c));
    } else if c.OpenFile? || c.RecoverSession? || c.CloseDoc? {
      OpeningCarries(w, c, m);
    } else if c.StartRecording? || c.EndTake? {
      TakeCarries(w, c, m);
    } else if c.TrimUndo? || c.ForeignWrite? {
      DoDocument(w, c);
      if c.TrimUndo? && w.svc.open.Some? {
        TrimShape(w, c.count, w.svc.open.value);
      }
      ForeignLeaves(w, c);
    } else {
      SaveCarries(w, c);
    }
  }

  lemma ForeignLeaves(w: World, c: Cmd)
    ensures c.ForeignWrite? ==> StepForeign(w, c.path, c.image).svc == w.svc
    ensures c.TrimUndo? && w.svc.open.None? ==> StepTrimUndo(w, c.count).svc.open.None?
  {}

  lemma {:induction false} RunCarries(w: World, cs: seq<Cmd>, session: nat, m: Watch)
    requires StampInv(w, m) && StaysOpen(w, cs, session)
    ensures IsOpen(Run(w, cs), session)
    ensures Run(w, cs).svc.open.value.recovered == (w.svc.open.value.recovered && !RecordedIn(w, cs))
    decreases |cs|
  {
    hide StampInv, Do, Recorded;
    if cs != [] {
      StepCarries(w, cs[0], m);
      StepKeepsStamps(w, cs[0], m);
      RunCarries(Do(w, cs[0]), cs[1..], session, Seen(w, m, cs[0]));
    }
  }

  /**
   * Any run up to a recovery, and any after it while that document stays open: the document is
   * modified exactly if no save of it was recorded, or its history says so.
   */
  lemma ModifiedUntilSaved(before: seq<Cmd>, c: Cmd, after: seq<Cmd>)
    requires var w := Run(START, before);
             && c.RecoverSession? && !Recording(w.svc)
             && Agrees(c.hist, c.ledger) && BakesAgree(c.hist, c.bakes)
             && StaysOpen(Do(w, c), after, w.nextSession)
    ensures var v := Run(Do(Run(START, before), c), after);
            && v.svc.open.Some?
            && (v.svc.open.value.Dirty() <==>
                  !RecordedIn(Do(Run(START, before), c), after) || v.svc.open.value.hist.IsDirty())
  {
    hide Run, StampInv, Do, StaysOpen, RecordedIn, Agrees, BakesAgree, Detach, Learn, KeptBakes, ClipFileAfter;
    var w := Run(START, before);
    StartStamps();
    RunKeepsStamps(START, before, FIRST_WATCH);
    var m := Watching(START, FIRST_WATCH, before);
    StepKeepsStamps(w, c, m);
    DoDocument(w, c);
    assert Do(w, c).svc.open.value.recovered;
    RunCarries(Do(w, c), after, w.nextSession, Seen(w, m, c));
  }

  lemma StartStamps()
    ensures StampInv(START, FIRST_WATCH)
  {}
}
