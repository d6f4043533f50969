/**
 * What undo and redo do to the service (src-tauri/src/document.rs `undo_or_redo`): the history moves,
 * and the rack only with an entry that carries one, however long the run.
 */
module HistoryAlgebra {
  import opened Wrappers
  import opened Audio
  import opened Racks
  import opened Stores
  import opened Document
  import opened Histories
  import opened Ledgers
  import opened EditOps
  import opened Service
  import opened World
  import opened Evolution
  import opened EditAlgebra

  /** The entry an undo or redo would take from its stack. */
  function NextEntry(s: Svc, undo: bool): Option<Entry> {
    if s.open.None? then None
    else
      var stack := if undo then s.open.value.hist.undo else s.open.value.hist.redo;
      if stack == [] then None else Some(stack[|stack| - 1])
  }

  predicate Movable(s: Svc) {
    !s.normalizeBusy && s.open.Some? && !s.open.value.recording
  }

  /** The history after one entry went from one stack to the other; only stamps are fresh. */
  predicate MovedOver(h: History, k: History, undo: bool)
    requires if undo then h.undo != [] else h.redo != []
  {
    var source, target, source2, target2 :=
      if undo then h.undo else h.redo, if undo then h.redo else h.undo,
      if undo then k.undo else k.redo, if undo then k.redo else k.undo;
    var e := source[|source| - 1];
    && ContentOf(k.current) == ContentOf(e.snapshot)
    && source2 == source[..|source| - 1]
    && target2 == target + [e.(snapshot := h.current)]
    && k.savedNumber == h.savedNumber && k.nextNumber == h.nextNumber
    && k.current.rev == h.nextRev && k.nextRev == h.nextRev + 1
    && (e.audio ==> k.current.audioRev == h.nextAudioRev && k.nextAudioRev == h.nextAudioRev + 1)
    && (!e.audio ==> k.current.audioRev == h.current.audioRev && k.nextAudioRev == h.nextAudioRev)
  }

  /** The rack an entry brings: the one before the bake on undo, the one after it on redo. */
  function RackOf(e: Entry, undo: bool, rack: Rack): Rack {
    if e.attachment.None? then rack
    else if undo then e.attachment.value.before
    else e.attachment.value.after
  }

  /** Where the playhead goes: to the first change of the entry, inside the new length. */
  predicate PlayheadAt(e: Entry, len: nat, playhead: nat) {
    && (e.firstAt.None? ==> playhead == 0)
    && (e.firstAt.Some? && e.firstAt.value <= len ==> playhead == e.firstAt.value)
    && (e.firstAt.Some? && e.firstAt.value > len ==> playhead == len)
  }

  /**
   * Undo and redo: accepted exactly on an idle document whose stack is empty or whose journal takes
   * the step. A refusal and an empty stack change nothing at all. Otherwise the entry changes stacks
   * and brings its rack, and nothing else changes.
   */
  lemma HistoryDoes(s: Svc, undo: bool, io: bool)
    ensures var out, e := UndoOrRedo(s, undo, io), NextEntry(s, undo);
            && (out.reply.Ok? <==> Movable(s) && (e.None? || io))
            && (out.reply.Err? || e.None? ==> out.svc == s)
            && (out.reply.Ok? && e.None? ==> !out.reply.value.changed && Leaves(out, None, 0))
            && (out.reply.Ok? && e.Some? ==>
                  && out.svc.open.Some?
                  && out.svc == s.(open := Some(s.open.value.(hist := out.svc.open.value.hist)),
                                   rack := RackOf(e.value, undo, s.rack))
                  && MovedOver(s.open.value.hist, out.svc.open.value.hist, undo)
                  && out.reply.value.changed && out.reply.value.selection == None
                  && out.reply.value.len == |SoundOf(out.svc)|
                  && PlayheadAt(e.value, out.reply.value.len, out.reply.value.playhead))
  {}

  /** The rack changes exactly with an entry that carries another one. */
  lemma RackMovesExactly(s: Svc, undo: bool, io: bool)
    ensures UndoOrRedo(s, undo, io).svc.rack != s.rack <==>
            && Movable(s) && io && NextEntry(s, undo).Some?
            && NextEntry(s, undo).value.attachment.Some?
            && RackOf(NextEntry(s, undo).value, undo, s.rack) != s.rack
  {
    HistoryDoes(s, undo, io);
  }

  // --- The rack along a run -------------------------------------------------------------------------

  /** Not a rack edit, a finished bake, an opening with a rack, or a move over a bake entry. */
  predicate LeavesRack(w: World, c: Cmd) {
    match c
    case DoRack(_) => false
    case EndBake(_, _, _) => false
    case OpenFile(_, _, _, _, _, rack, _) => rack.None?
    case RecoverSession(_, _, _, _, _, _, rack, _) => rack.None?
    case DoHistory(undo, _) => NextEntry(w.svc, undo).Some? ==> NextEntry(w.svc, undo).value.attachment.None?
    case _ => true
  }

  lemma PlainLeavesRack(w: World, c: Cmd)
    requires LeavesRack(w, c)
    requires c.DoEdit? || c.DoMarkers? || c.DoHistory? || c.StartRecordOp? || c.EndTakeOp? || c.CancelTake? || c.StoreChange?
    ensures Do(w, c).svc.rack == w.svc.rack
  {
    hide Do, Moves, Evolves, Learn, KeptBakes, EditOut, EditMarkers, UndoOrRedo, CommitTakeOp, ReadsAlike;
    DoPlain(w, c);
    match c {
      case DoEdit(e, io) => EditEvolves(w.svc, e, io);
      case DoMarkers(ops, io) => MarkersEvolve(w.svc, ops, io);
      case DoHistory(undo, io) => HistoryDoes(w.svc, undo, io);
      case EndTakeOp(take, io) => TakeOpEvolves(w.svc, AsEdit(take), io);
      case _ =>
    }
  }

  lemma JobsLeaveRack(w: World, c: Cmd)
    requires c.StartNormalize? || c.EndNormalize? || c.StopNormalize? || c.StartBake? || c.StopBake?
    ensures Do(w, c).svc.rack == w.svc.rack
  {
    hide Do, Moves, Evolves, Learn, KeptBakes, FinishNormalize, BeginNormalize;
    DoEditJob(w, c);
    if c.StartNormalize? || c.StartBake? {
      BeginLeavesRack(w.svc, c.start, c.end);
    }
    if c.EndNormalize? && HasEditJob(w, c.task, false) {
      FinishNormalizeEvolves(w.svc, w.tasks[c.task].src, c.plan, c.io);
    }
  }

  lemma BeginLeavesRack(s: Svc, start: nat, end: nat)
    ensures BeginNormalize(s, start, end).svc.rack == s.rack
  {}

  lemma PastesLeaveRack(w: World, c: Cmd)
    requires c.StartPaste? || c.EndPaste? || c.StopPaste?
    ensures Do(w, c).svc.rack == w.svc.rack
  {
    hide Do, Moves, Evolves, Learn, KeptBakes, FinishPaste, BeginPaste;
    DoPaste(w, c);
    if c.StartPaste? {
      BeginPasteLeavesRack(w.svc, c.target);
    } else if c.EndPaste? && HasPasteJob(w, c.task) && w.clipFile.Some? && |w.clipFile.value| >= |w.tasks[c.task].paste.clip.audio| {
      var src := w.tasks[c.task].paste;
      var audio := if src.clip.rateHz == src.rateHz then w.clipFile.value[..|src.clip.audio|] else c.resampled;
      FinishPasteEvolves(w.svc, src, Pieces(src.session, c.table, audio), c.io);
    }
  }

  lemma BeginPasteLeavesRack(s: Svc, target: Target)
    ensures BeginPaste(s, target).svc.rack == s.rack
  {}

  lemma SavesLeaveRack(w: World, c: Cmd)
    requires c.StartSave? || c.StartSaveAs? || c.SavePrepare? || c.SaveWrite? || c.SaveEnd?
    ensures Do(w, c).svc.rack == w.svc.rack
  {
    hide Do, Learn, KeptBakes, PrepareSave, WrittenImage, SavedSidecar, MarkSavedAt;
    DoSave(w, c);
  }

  lemma DetachLeavesRack(s: Svc, doc: OpenDoc, io: bool)
    ensures Detach(s, io).rack == s.rack && Install(s, doc, io).rack == s.rack
  {
    hide Lookup;
  }

  lemma DocumentsLeaveRack(w: World, c: Cmd)
    requires LeavesRack(w, c)
    requires c.OpenFile? || c.RecoverSession? || c.CloseDoc? || c.TrimUndo? || c.ForeignWrite?
    ensures Do(w, c).svc.rack == w.svc.rack
  {
    hide Do, Learn, KeptBakes, Agrees, BakesAgree, MarkersFit, CuesOf, OpenedMarkers, Open, Close, DropOldest;
    DoDocument(w, c);
    match c {
      case OpenFile(p, fm, sc, rate, format, rack, io) =>
        if CanOpen(w, p, fm, sc) {
          OpenLeavesRack(w.svc, OpenedDoc(w, p, OpenedMarkers(w.files[p], fm, sc), rate, format), io);
        }
      case RecoverSession(h, l, b, p, rate, format, rack, io) =>
        var facts := if p.Some? && p.value in w.files then w.files[p.value].stamp else 0;
        OpenLeavesRack(w.svc, OpenDoc(w.nextSession, rate, h, false, p, format, true, SidecarState(0, h.current.markers, facts), []), io);
      case CloseDoc(io) => CloseLeavesRack(w.svc, io);
      case _ =>
    }
  }

  lemma OpenLeavesRack(s: Svc, doc: OpenDoc, io: bool)
    ensures Open(s, doc, None, io).svc.rack == s.rack
  {
    hide Lookup;
  }

  lemma CloseLeavesRack(s: Svc, io: bool)
    ensures Close(s, io).svc.rack == s.rack
  {
    hide Lookup;
  }

  lemma TakesLeaveRack(w: World, c: Cmd)
    requires c.StartRecording? || c.EndTake?
    ensures Do(w, c).svc.rack == w.svc.rack
  {
    hide Do, Moves, Evolves, Learn, KeptBakes, Install, CommitTake, BeginRecording;
    DoDocument(w, c);
    match c
    case StartRecording(rate, format, replace, creates, clipIo, io) =>
      var created := if creates then Some(w.nextSession) else None;
      RecordingShape(w.svc, rate, format, replace, created, clipIo, io);
      if creates {
        DetachLeavesRack(w.svc, NewRecording(w.nextSession, rate, format), clipIo);
      }
    case EndTake(take, io, creates, clipIo) =>
      var created := if creates then Some(w.nextSession) else None;
      TakeEvolves(w.svc, AsEdit(take), io, created, clipIo);
      if w.svc.open.Some? && creates {
        DetachLeavesRack(w.svc, NewRecording(w.nextSession, w.svc.open.value.rateHz, w.svc.open.value.format), clipIo);
      }
  }

  lemma LeavesRackMeans(w: World, c: Cmd)
    requires LeavesRack(w, c)
    ensures !c.DoRack? && !c.EndBake?
  {}

  lemma StepLeavesRack(w: World, c: Cmd)
    requires LeavesRack(w, c)
    ensures Do(w, c).svc.rack == w.svc.rack
  {
    hide Do, LeavesRack;
    LeavesRackMeans(w, c);
    if c.StartNormalize? || c.EndNormalize? || c.StopNormalize? || c.StartBake? || c.StopBake? {
      JobsLeaveRack(w, c);
    } else if c.StartPaste? || c.EndPaste? || c.StopPaste? {
      PastesLeaveRack(w, c);
    } else if c.StartSave? || c.StartSaveAs? || c.SavePrepare? || c.SaveWrite? || c.SaveEnd? {
      SavesLeaveRack(w, c);
    } else if c.OpenFile? || c.RecoverSession? || c.CloseDoc? || c.TrimUndo? || c.ForeignWrite? {
      DocumentsLeaveRack(w, c);
    } else if c.StartRecording? || c.EndTake? {
      TakesLeaveRack(w, c);
    } else {
      PlainLeavesRack(w, c);
    }
  }

  ghost predicate RunLeavesRack(w: World, cs: seq<Cmd>)
    decreases |cs|
  {
    cs != [] ==> LeavesRack(w, cs[0]) && RunLeavesRack(Do(w, cs[0]), cs[1..])
  }

  /** Along such a run, from any state and however long, the rack stays what it was. */
  lemma {:induction false} RackStays(w: World, cs: seq<Cmd>)
    requires RunLeavesRack(w, cs)
    ensures Run(w, cs).svc.rack == w.svc.rack
    decreases |cs|
  {
    hide Do, LeavesRack;
    if cs != [] {
      StepLeavesRack(w, cs[0]);
      RackStays(Do(w, cs[0]), cs[1..]);
    }
  }
}
