/**
 * The service object (src-tauri/src/document.rs). Each field is the content of one of its mutexes;
 * each method is one command with the locks it takes left out. Every method is proved to do exactly
 * what the specification function of module `Service` says, so what is proved about runs of those
 * functions is about this object.
 */
module DocumentServices {
  import opened Wrappers
  import opened Audio
  import opened Racks
  import opened Stores
  import opened Document
  import opened Histories
  import opened EditOps
  import opened Service
  import opened EditAlgebra
  import H = HistoryAlgebra
  import T = TakeAlgebra

  class DocumentService {
    var open: Option<OpenDoc>
    var clipboard: Option<Clipboard>
    var normalizeBusy: bool
    var pasteBusy: bool
    var bakeRunning: bool
    var saveRunning: bool
    var rack: Rack

    /** What the object holds, as a value. */
    ghost function Abs(): Svc
      reads this
    {
      Svc(open, clipboard, normalizeBusy, pasteBusy, bakeRunning, saveRunning, rack)
    }

    /** A take is being recorded. */
    ghost predicate Taking()
      reads this
    {
      open.Some? && open.value.recording
    }

    /** A normalize or bake over the range may begin. */
    ghost predicate Plannable(start: nat, end: nat)
      reads this
    {
      !normalizeBusy && open.Some? && !open.value.recording && start < end <= open.value.Len()
    }

    constructor ()
      ensures Abs() == INITIAL
    {
      open, clipboard := None, None;
      normalizeBusy, pasteBusy, bakeRunning, saveRunning := false, false, false, false;
      rack := [];
    }

    // --- Edits ------------------------------------------------------------------------------------

    /** `Session::commit_edit` on the open document, then `apply_committed`. */
    method Commit(doc: OpenDoc, edit: Edit, post: PostEdit, io: bool) returns (r: Result<EditResult, Error>)
      requires open == Some(doc)
      modifies this`open
      ensures var out := CommitWith(old(Abs()), doc, edit, post, io); Abs() == out.svc && r == out.reply
    {
      if doc.recording && edit.ChangesAudio() {
        return Err(NotWhileRecording);
      }
      match Apply(doc.hist, edit)
      case Err(e) => return Err(Rejected(e));
      case Ok(step) =>
        if !io {
          return Err(Io);
        }
        open := Some(doc.(hist := step.history));
        var now := step.history.current;
        return Ok(EditResult(true, now.audioRev, |now.audio|, post.selection, post.playhead));
    }

    method Gate() returns (r: Result<OpenDoc, Error>)
      ensures r == EditGate(Abs())
      ensures r.Ok? ==> open == Some(r.value)
    {
      if normalizeBusy || pasteBusy {
        return Err(DocumentBusy);
      }
      if open.None? {
        return Err(NoDocument);
      }
      if open.value.recording {
        return Err(NotWhileRecording);
      }
      return Ok(open.value);
    }

    /** The clipboard is replaced only after the commit succeeded. */
    method EditCut(start: nat, end: nat, table: seq<Piece>, io: bool) returns (r: Result<EditResult, Error>)
      modifies this`open, this`clipboard
      ensures var out := Cut(old(Abs()), start, end, table, io); Abs() == out.svc && r == out.reply
      ensures r.Ok? <==> Selectable(old(Abs()), start, end) && io
      ensures r.Err? ==> Abs() == old(Abs())
    {
      CutDoes(Abs(), start, end, table, io);
      var gate := Gate();
      if gate.Err? {
        return Err(gate.error);
      }
      var doc := gate.value;
      var range := SelectedRange(doc, start, end);
      if range.Err? {
        return Err(range.error);
      }
      var clip := Slice(doc.hist.current.audio, range.value);
      r := Commit(doc, DeleteEdit(range.value), PostCutOrDelete(range.value), io);
      if r.Ok? {
        clipboard := Some(Bound(Pieces(doc.session, table, clip), doc.rateHz));
      }
    }

    /** Not an edit: only the clipboard changes. */
    method EditCopy(start: nat, end: nat, table: seq<Piece>) returns (r: Result<EditResult, Error>)
      modifies this`clipboard
      ensures var out := Copy(old(Abs()), start, end, table); Abs() == out.svc && r == out.reply
      ensures r.Ok? <==> Selectable(old(Abs()), start, end)
      ensures Abs() == old(Abs()).(clipboard := clipboard)
      ensures r.Err? ==> Abs() == old(Abs())
    {
      CopyDoes(Abs(), start, end, table);
      var gate := Gate();
      if gate.Err? {
        return Err(gate.error);
      }
      var doc := gate.value;
      var range := SelectedRange(doc, start, end);
      if range.Err? {
        return Err(range.error);
      }
      clipboard := Some(Bound(Pieces(doc.session, table, Slice(doc.hist.current.audio, range.value)), doc.rateHz));
      return Ok(EditResult(false, doc.hist.current.audioRev, doc.Len(),
                           Some((range.value.start, range.value.end)), range.value.start));
    }

    method EditPaste(target: Target, io: bool) returns (r: Result<EditResult, Error>)
      modifies this`open
      ensures var out := Paste(old(Abs()), target, io); Abs() == out.svc && r == out.reply
      ensures r.Ok? ==> Reachable(old(Abs()), target) && UsableClip(old(Abs())).Some? && io
      ensures r.Err? ==> Abs() == old(Abs())
    {
      var gate := Gate();
      if gate.Err? {
        return Err(gate.error);
      }
      var doc := gate.value;
      var resolved := ResolveTarget(doc, target);
      if resolved.Err? {
        return Err(resolved.error);
      }
      var pieces: Pieces;
      match clipboard {
        case Some(Bound(p, _)) =>
          pieces := p;
        case Some(Materialized(_, Some(c))) =>
          if c.owner != doc.session {
            return Err(DocumentBusy);
          }
          pieces := c;
        case Some(Materialized(_, None)) =>
          return Err(DocumentBusy);
        case None =>
          return Err(ClipboardEmpty);
      }
      var audio := Lookup(pieces.table, doc.store);
      if audio.None? {
        return Err(BadPieces);
      }
      r := Commit(doc, PasteEdit(audio.value, resolved.value), PostPaste(resolved.value, |audio.value|), io);
    }

    method EditDelete(start: nat, end: nat, io: bool) returns (r: Result<EditResult, Error>)
      modifies this`open
      ensures var out := Delete(old(Abs()), start, end, io); Abs() == out.svc && r == out.reply
      ensures r.Ok? <==> Selectable(old(Abs()), start, end) && io
      ensures r.Err? ==> Abs() == old(Abs())
    {
      DeleteDoes(Abs(), start, end, io);
      var gate := Gate();
      if gate.Err? {
        return Err(gate.error);
      }
      var range := SelectedRange(gate.value, start, end);
      if range.Err? {
        return Err(range.error);
      }
      r := Commit(gate.value, DeleteEdit(range.value), PostCutOrDelete(range.value), io);
    }

    method EditTrim(start: nat, end: nat, io: bool) returns (r: Result<EditResult, Error>)
      modifies this`open
      ensures var out := Trim(old(Abs()), start, end, io); Abs() == out.svc && r == out.reply
      ensures r.Ok? ==> Selectable(old(Abs()), start, end)
      ensures r.Err? ==> Abs() == old(Abs())
    {
      TrimDoes(Abs(), start, end, io);
      var gate := Gate();
      if gate.Err? {
        return Err(gate.error);
      }
      var doc := gate.value;
      var range := SelectedRange(doc, start, end);
      if range.Err? {
        return Err(range.error);
      }
      var built := TrimEdit(range.value, doc.Len());
      if built.None? {
        return Ok(EditResult(false, doc.hist.current.audioRev, doc.Len(), None, 0));
      }
      r := Commit(doc, built.value, PostTrim(), io);
    }

    method EditSilence(start: nat, end: nat, io: bool) returns (r: Result<EditResult, Error>)
      modifies this`open
      ensures var out := SilenceRange(old(Abs()), start, end, io); Abs() == out.svc && r == out.reply
      ensures r.Ok? <==> Selectable(old(Abs()), start, end) && io
      ensures r.Err? ==> Abs() == old(Abs())
    {
      SilenceDoes(Abs(), start, end, io);
      var gate := Gate();
      if gate.Err? {
        return Err(gate.error);
      }
      var range := SelectedRange(gate.value, start, end);
      if range.Err? {
        return Err(range.error);
      }
      r := Commit(gate.value, SilenceEdit(range.value), PostKeepRange(range.value), io);
    }

    method EditInsertSilence(target: Target, n: nat, io: bool) returns (r: Result<EditResult, Error>)
      modifies this`open
      ensures var out := InsertSilence(old(Abs()), target, n, io); Abs() == out.svc && r == out.reply
      ensures r.Ok? <==> Reachable(old(Abs()), target) && 0 < n <= 3600 * open.value.rateHz && io
      ensures r.Err? ==> Abs() == old(Abs())
    {
      InsertSilenceDoes(Abs(), target, n, io);
      var gate := Gate();
      if gate.Err? {
        return Err(gate.error);
      }
      var doc := gate.value;
      if n == 0 || n > INSERT_SILENCE_MAX_SECONDS * doc.rateHz {
        return Err(InsertSilenceDuration);
      }
      var resolved := ResolveTarget(doc, target);
      if resolved.Err? {
        return Err(resolved.error);
      }
      r := Commit(doc, InsertSilenceEdit(resolved.value, n), PostPaste(resolved.value, n), io);
    }

    /** Undo or redo; the rack of a bake entry is loaded after the document lock is released. */
    method UndoOrRedo(undo: bool, io: bool) returns (r: Result<EditResult, Error>)
      modifies this`open, this`rack
      ensures var out := Service.UndoOrRedo(old(Abs()), undo, io); Abs() == out.svc && r == out.reply
      ensures r.Err? ==> Abs() == old(Abs())
      ensures r.Ok? <==> H.Movable(old(Abs())) && (H.NextEntry(old(Abs()), undo).None? || io)
      ensures r.Ok? && H.NextEntry(old(Abs()), undo).Some? ==>
                && open.Some? && open.value == old(open).value.(hist := open.value.hist)
                && H.MovedOver(old(open).value.hist, open.value.hist, undo)
                && rack == H.RackOf(H.NextEntry(old(Abs()), undo).value, undo, old(rack))
      ensures H.NextEntry(old(Abs()), undo).None? ==> Abs() == old(Abs())
    {
      H.HistoryDoes(Abs(), undo, io);
      if normalizeBusy {
        return Err(DocumentBusy);
      }
      if open.None? {
        return Err(NoDocument);
      }
      var doc := open.value;
      if doc.recording {
        return Err(NotWhileRecording);
      }
      var step := if undo then Undo(doc.hist) else Redo(doc.hist);
      if step.None? {
        return Ok(EditResult(false, doc.hist.current.audioRev, doc.Len(), None, 0));
      }
      if !io {
        return Err(Io);
      }
      var next := step.value.history;
      var post := PostUndoRedo(step.value.entry.firstAt, |next.current.audio|);
      open := Some(doc.(hist := next));
      match step.value.entry.attachment {
        case Some(a) => rack := if undo then a.before else a.after;
        case None =>
      }
      return Ok(EditResult(true, next.current.audioRev, |next.current.audio|, post.selection, post.playhead));
    }

    // --- Normalize and bake jobs --------------------------------------------------------------------

    method BeginNormalizeJob(start: nat, end: nat) returns (r: Result<JobSource, Error>)
      modifies this`normalizeBusy
      ensures var out := BeginNormalize(old(Abs()), start, end); Abs() == out.svc && r == out.reply
      ensures r.Ok? <==> old(Plannable(start, end))
      ensures r.Ok? ==> normalizeBusy && r.value.snapshot == open.value.hist.current
      ensures r.Err? ==> Abs() == old(Abs())
    {
      if normalizeBusy {
        return Err(DocumentBusy);
      }
      if open.None? {
        return Err(NoDocument);
      }
      var doc := open.value;
      if doc.recording {
        return Err(NotWhileRecording);
      }
      var range := SelectedRange(doc, start, end);
      if range.Err? {
        return Err(range.error);
      }
      normalizeBusy := true;
      return Ok(JobSource(doc.session, doc.hist.current, range.value));
    }

    method AbandonNormalizeJob()
      modifies this`normalizeBusy
      ensures Abs() == AbandonNormalize(old(Abs()))
    {
      normalizeBusy := false;
    }

    /** Commits a gain plan only onto the snapshot it was made from; always releases the flag. */
    method FinishNormalizeJob(src: JobSource, plan: NormalizePlan, io: bool) returns (r: Result<EditResult, Error>)
      requires src.range.start <= src.range.end
      modifies this`open, this`normalizeBusy
      ensures var out := FinishNormalize(old(Abs()), src, plan, io); Abs() == out.svc && r == out.reply
      ensures !normalizeBusy && (r.Err? ==> open == old(open))
    {
      if open.None? {
        r := Err(NoDocument);
      } else if open.value.session != src.session {
        r := Err(DocumentBusy);
      } else {
        var doc := open.value;
        match plan {
          case NoOp =>
            r := Ok(EditResult(false, doc.hist.current.audioRev, doc.Len(),
                               Some((src.range.start, src.range.end)), src.range.start));
          case Gain(samples) =>
            if doc.hist.current.rev != src.snapshot.rev {
              r := Err(DocumentBusy);
            } else {
              r := Commit(doc, ReplaceRangeEdit(src.range, samples, None), PostKeepRange(src.range), io);
            }
        }
      }
      normalizeBusy := false;
    }

    method BeginBakeJob(start: nat, end: nat) returns (r: Result<JobSource, Error>)
      modifies this`normalizeBusy, this`bakeRunning
      ensures var out := BeginBake(old(Abs()), start, end); Abs() == out.svc && r == out.reply
      ensures r.Ok? <==> old(Plannable(start, end))
      ensures r.Ok? ==> normalizeBusy && bakeRunning
      ensures r.Err? ==> Abs() == old(Abs())
    {
      r := BeginNormalizeJob(start, end);
      if r.Ok? {
        bakeRunning := true;
      }
    }

    method AbandonBakeJob()
      modifies this`normalizeBusy, this`bakeRunning
      ensures Abs() == AbandonBake(old(Abs()))
    {
      bakeRunning := false;
      AbandonNormalizeJob();
    }

    /** The rack is loaded while the bake flag still refuses rack edits. */
    method FinishBakeJob(src: JobSource, edit: Edit, after: Rack, io: bool) returns (r: Result<EditResult, Error>)
      modifies this`open, this`rack, this`normalizeBusy, this`bakeRunning
      ensures var out := FinishBake(old(Abs()), src, edit, after, io); Abs() == out.svc && r == out.reply
      ensures !normalizeBusy && !bakeRunning && (r.Err? ==> open == old(open) && rack == old(rack))
    {
      if open.None? {
        r := Err(NoDocument);
      } else if open.value.session != src.session || open.value.hist.current.rev != src.snapshot.rev {
        r := Err(DocumentBusy);
      } else {
        r := Commit(open.value, edit, PostKeepRange(src.range), io);
      }
      if r.Ok? {
        rack := after;
      }
      bakeRunning := false;
      normalizeBusy := false;
    }

    // --- The clipboard and the paste job ------------------------------------------------------------

    /** Called while `store` is still the closing session's. */
    method MaterializeClipboard(store: Store, io: bool)
      modifies this`clipboard
      ensures Abs() == Service.MaterializeClipboard(old(Abs()), store, io)
      ensures clipboard.Some? ==> clipboard.value.Materialized?
    {
      match clipboard {
        case Some(Bound(pieces, rateHz)) =>
          var audio := Lookup(pieces.table, store);
          if io && audio.Some? {
            clipboard := Some(Materialized(MaterializedClip(audio.value, rateHz), None));
          } else {
            clipboard := None;
          }
        case _ =>
      }
    }

    method NeedsPasteJob() returns (r: bool)
      ensures r == PasteNeedsJob(Abs())
    {
      if open.None? {
        return false;
      }
      match clipboard {
        case Some(Materialized(_, converted)) =>
          r := !(converted.Some? && converted.value.owner == open.value.session);
        case _ =>
          r := false;
      }
    }

    method BeginPasteJob(target: Target) returns (r: Result<PasteSource, Error>)
      modifies this`pasteBusy
      ensures var out := BeginPaste(old(Abs()), target); Abs() == out.svc && r == out.reply
      ensures r.Ok? ==> !old(pasteBusy) && pasteBusy && clipboard.Some? && clipboard.value.Materialized? && clipboard.value.clip == r.value.clip
      ensures r.Err? ==> Abs() == old(Abs())
    {
      if pasteBusy || normalizeBusy {
        return Err(DocumentBusy);
      }
      if open.None? {
        return Err(NoDocument);
      }
      var doc := open.value;
      if doc.recording {
        return Err(NotWhileRecording);
      }
      var resolved := ResolveTarget(doc, target);
      if resolved.Err? {
        return Err(resolved.error);
      }
      match clipboard {
        case Some(Materialized(clip, _)) =>
          pasteBusy := true;
          r := Ok(PasteSource(doc.session, doc.rateHz, resolved.value, clip));
        case Some(Bound(_, _)) =>
          r := Err(DocumentBusy);
        case None =>
          r := Err(ClipboardEmpty);
      }
    }

    method AbandonPasteJob()
      modifies this`pasteBusy
      ensures Abs() == AbandonPaste(old(Abs()))
    {
      pasteBusy := false;
    }

    method FinishPasteJob(src: PasteSource, written: Pieces, io: bool) returns (r: Result<EditResult, Error>)
      requires src.target.Over? ==> src.target.range.start <= src.target.range.end
      modifies this`open, this`clipboard, this`pasteBusy
      ensures var out := FinishPaste(old(Abs()), src, written, io); Abs() == out.svc && r == out.reply
      ensures !pasteBusy && (r.Err? ==> open == old(open) && clipboard == old(clipboard))
    {
      if open.None? {
        r := Err(NoDocument);
      } else if open.value.session != src.session {
        r := Err(DocumentBusy);
      } else {
        var audio := Lookup(written.table, open.value.store);
        if audio.None? {
          r := Err(if open.value.recording && Changing(written, src.target) then NotWhileRecording else BadPieces);
        } else {
          r := Commit(open.value, PasteEdit(audio.value, src.target), PostPaste(src.target, |audio.value|), io);
        }
      }
      if r.Ok? {
        if src.clip.rateHz == src.rateHz {
          clipboard := Some(Bound(written, src.rateHz));
        } else if clipboard.Some? && clipboard.value.Materialized? {
          clipboard := Some(clipboard.value.(converted := Some(written)));
        }
      }
      pasteBusy := false;
    }

    // --- Opening, closing, recording ----------------------------------------------------------------

    /** The common end of open, recover and record: the old document's clipboard goes to the file. */
    method Replace(doc: OpenDoc, io: bool)
      modifies this`open, this`clipboard
      ensures Abs() == Install(old(Abs()), doc, io)
    {
      if open.Some? {
        MaterializeClipboard(open.value.store, io);
      }
      open := Some(doc);
    }

    method OpenDocument(doc: OpenDoc, model: Option<Rack>, io: bool) returns (r: Result<(), Error>)
      modifies this`open, this`clipboard, this`rack
      ensures var out := Open(old(Abs()), doc, model, io); Abs() == out.svc && r == out.reply
      ensures r.Err? <==> old(Taking())
      ensures r.Ok? ==> open == Some(doc) && (old(open).Some? && clipboard.Some? ==> clipboard.value.Materialized?)
      ensures r.Err? ==> Abs() == old(Abs())
    {
      if open.Some? && open.value.recording {
        return Err(NotWhileRecording);
      }
      if model.Some? {
        rack := model.value;
      }
      Replace(doc, io);
      return Ok(());
    }

    method CloseDocument(io: bool) returns (r: Result<(), Error>)
      modifies this`open, this`clipboard
      ensures var out := Close(old(Abs()), io); Abs() == out.svc && r == out.reply
      ensures r.Err? <==> old(Taking())
      ensures r.Ok? ==> open.None? && (old(open).Some? && clipboard.Some? ==> clipboard.value.Materialized?)
      ensures r.Err? ==> Abs() == old(Abs())
    {
      if open.Some? && open.value.recording {
        return Err(NotWhileRecording);
      }
      var previous := open;
      open := None;
      if previous.Some? {
        MaterializeClipboard(previous.value.store, io);
      }
      return Ok(());
    }

    method BeginRecording(rateHz: nat, format: Format, replace: bool, created: Option<nat>, clipIo: bool, io: bool)
      returns (r: Result<(), Error>)
      modifies this`open, this`clipboard
      ensures var out := Service.BeginRecording(old(Abs()), rateHz, format, replace, created, clipIo, io);
              Abs() == out.svc && r == out.reply
      ensures r.Ok? ==> !old(Taking()) && Taking()
    {
      if open.Some? && open.value.recording {
        return Err(NotWhileRecording);
      }
      var reusable := open.Some? && open.value.Len() == 0 && open.value.rateHz == rateHz;
      if !reusable {
        if !replace && open.Some? && open.value.Len() > 0 {
          return Err(NeedsReplace);
        }
        if created.None? {
          return Err(Io);
        }
        Replace(NewRecording(created.value, rateHz, format), clipIo);
      }
      if !io {
        return Err(Io);
      }
      open := Some(open.value.(recording := true));
      return Ok(());
    }

    method CommitTake(take: Option<Edit>, io: bool, created: Option<nat>, clipIo: bool) returns (r: Result<(), Error>)
      modifies this`open, this`clipboard
      ensures var out := Service.CommitTake(old(Abs()), take, io, created, clipIo); Abs() == out.svc && r == out.reply
      ensures r.Ok? ==> old(Taking()) && !Taking()
      ensures r.Ok? <==> old(Taking()) && (take.None? || T.Committable(old(Abs()), take.value, io))
      ensures r.Ok? && take.None? ==> Abs() == T.Ended(old(Abs()))
      ensures r.Ok? && take.Some? ==>
                var p := Prepare(SoundOf(old(Abs())), Holds(old(Abs())).markers, take.value).value;
                T.Recorded(old(Abs()), Abs(), Content(p.audio, p.markers))
    {
      T.TakeDoes(Abs(), take, io, created, clipIo);
      if open.None? {
        return Err(NoDocument);
      }
      var doc := open.value;
      var error: Error := NotRecording;
      if doc.recording {
        if take.None? {
          open := Some(doc.(recording := false));
          return Ok(());
        }
        var outcome := CommitInternal(doc, take.value, io);
        if outcome.Ok? {
          open := Some(doc.(recording := false, hist := outcome.value.history));
          return Ok(());
        }
        error := outcome.error;
      }
      if created.Some? {
        Replace(NewRecording(created.value, doc.rateHz, doc.format), clipIo);
      }
      return Err(error);
    }

    method BeginRecordOp(rateHz: nat, io: bool) returns (r: Result<(), Error>)
      modifies this`open
      ensures var out := Service.BeginRecordOp(old(Abs()), rateHz, io); Abs() == out.svc && r == out.reply
      ensures r.Ok? ==> !old(Taking()) && Taking()
      ensures r.Err? ==> Abs() == old(Abs())
    {
      if normalizeBusy {
        return Err(DocumentBusy);
      }
      if open.None? {
        return Err(NoDocument);
      }
      if open.value.recording {
        return Err(NotWhileRecording);
      }
      if open.value.rateHz != rateHz {
        return Err(InvalidRange);
      }
      if !io {
        return Err(Io);
      }
      open := Some(open.value.(recording := true));
      return Ok(());
    }

    method CommitTakeOp(take: Option<Edit>, io: bool) returns (r: Result<(), Error>)
      modifies this`open
      ensures var out := Service.CommitTakeOp(old(Abs()), take, io); Abs() == out.svc && r == out.reply
      ensures old(Taking()) ==> open.Some? && !Taking()
      ensures r.Err? && old(open).Some? ==> open.Some? && open.value.hist == old(open).value.hist
      ensures r.Ok? <==> old(Taking()) && (take.None? || T.Committable(old(Abs()), take.value, io))
      ensures r.Ok? && take.Some? ==>
                var p := Prepare(SoundOf(old(Abs())), Holds(old(Abs())).markers, take.value).value;
                T.Recorded(old(Abs()), Abs(), Content(p.audio, p.markers))
    {
      T.TakeOpDoes(Abs(), take, io);
      if open.None? {
        return Err(NoDocument);
      }
      if !open.value.recording {
        return Err(NotRecording);
      }
      open := Some(open.value.(recording := false));
      if take.None? {
        return Ok(());
      }
      var outcome := CommitInternal(open.value, take.value, io);
      if outcome.Err? {
        return Err(outcome.error);
      }
      open := Some(open.value.(hist := outcome.value.history));
      return Ok(());
    }

    method DiscardTake()
      modifies this`open
      ensures Abs() == Service.DiscardTake(old(Abs()))
    {
      if open.Some? {
        open := Some(open.value.(recording := false));
      }
    }

    /** The disk check forgets the oldest undo entries, unless something plays, a job runs or a take is recorded. */
    method TrimUndoHistory(playing: bool, count: nat, io: bool)
      modifies this`open
      ensures Abs() == if SkipsDiskCheck(old(Abs()), playing) then old(Abs()) else DropOldestUndo(old(Abs()), count, io)
      ensures old(open).Some? ==> open.Some? && open.value.hist == old(open).value.hist.(undo := open.value.hist.undo)
      ensures old(open).Some? ==> |open.value.hist.undo| <= |old(open).value.hist.undo| && open.value.hist.undo == old(open).value.hist.undo[|old(open).value.hist.undo| - |open.value.hist.undo|..]
    {
      if normalizeBusy || playing {
        return;
      }
      if open.None? || open.value.recording {
        return;
      }
      var hist := open.value.hist;
      var n := if count <= |hist.undo| then count else |hist.undo|;
      if n == 0 || !io {
        return;
      }
      hist := hist.(undo := hist.undo[n..]);
      open := Some(open.value.(hist := hist));
    }

    // --- Markers and rack edits from the interface ----------------------------------------------------

    method EditMarkers(ops: seq<MarkerOp>, io: bool) returns (r: Result<(), Error>)
      modifies this`open
      ensures var out := Service.EditMarkers(old(Abs()), ops, io); Abs() == out.svc && r == out.reply
      ensures r.Err? ==> Abs() == old(Abs())
    {
      if ops == [] {
        return Ok(());
      }
      if open.None? {
        return Err(NoDocument);
      }
      if open.value.recording {
        return if |ops| == 1 && ops[0].Add? then Ok(()) else Err(NotWhileRecording);
      }
      var outcome := CommitInternal(open.value, Edit([], ops, None), io);
      if outcome.Err? {
        return Err(outcome.error);
      }
      open := Some(open.value.(hist := outcome.value.history));
      return Ok(());
    }

    method EditRack(model: Rack) returns (r: Result<(), Error>)
      modifies this`rack
      ensures var out := Service.EditRack(old(Abs()), model); Abs() == out.svc && r == out.reply
    {
      if bakeRunning {
        return Err(BakeBusy);
      }
      rack := model;
      return Ok(());
    }

    // --- Save ---------------------------------------------------------------------------------------

    method BeginSaving(onDisk: Option<nat>, overwrite: bool, preflight: bool) returns (r: Result<(), Error>)
      modifies this`saveRunning
      ensures var out := BeginSave(old(Abs()), onDisk, overwrite, preflight); Abs() == out.svc && r == out.reply
      ensures r.Ok? ==> !old(saveRunning) && saveRunning
      ensures r.Err? ==> Abs() == old(Abs())
    {
      if saveRunning {
        return Err(SaveInProgress);
      }
      if open.None? {
        return Err(NoDocument);
      }
      if open.value.path.None? {
        return Err(Untitled);
      }
      if !overwrite && onDisk.Some? && onDisk.value != open.value.sidecar.facts {
        return Err(ChangedOnDisk);
      }
      if !preflight {
        return Err(Preflight);
      }
      saveRunning := true;
      return Ok(());
    }

    /** The first lock: everything the write needs, including the edit number it will record. */
    method CaptureSave(saveAs: Option<(Path, Format)>, onDisk: bool) returns (r: Result<SavePrep, Error>)
      ensures r == TakePrep(Abs(), saveAs, onDisk).reply
      ensures r.Ok? ==> open.Some? && r.value.snapshot == open.value.hist.current && r.value.number == open.value.hist.CurrentNumber()
    {
      if open.None? {
        return Err(NoDocument);
      }
      var doc := open.value;
      var path, format, full := "", doc.format, saveAs.Some?;
      if saveAs.Some? {
        path, format := saveAs.value.0, saveAs.value.1;
      } else if doc.path.None? {
        return Err(Untitled);
      } else {
        path := doc.path.value;
      }
      var current := doc.hist.current;
      var needsFull := full
        || current.audioRev != doc.sidecar.lastSavedAudioRev
        || current.markers != doc.sidecar.lastWrittenMarkers
        || format != doc.format
        || !onDisk;
      return Ok(SavePrep(doc.session, current, doc.hist.CurrentNumber(), path, format, needsFull));
    }

    /** The second lock. The baselines change one by one before the journal append that may fail. */
    method RecordSave(prep: SavePrep, saveAs: bool, outcome: WriteOutcome, io: bool) returns (r: Result<(), Error>)
      modifies this`open, this`saveRunning
      ensures var out := FinishSave(old(Abs()), prep, saveAs, outcome, io); Abs() == out.svc && r == out.reply
      ensures !saveRunning && open.Some? == old(open).Some?
      ensures open.Some? ==> open.value.hist == old(open).value.hist.(savedNumber := if r.Ok? then prep.number else old(open).value.hist.savedNumber)
    {
      match outcome {
        case Failed =>
          r := Err(Io);
        case Written(stamp, sidecarOk) =>
          if open.None? || open.value.session != prep.session {
            r := Err(NoDocument);
          } else {
            var doc := open.value;
            doc := doc.(sidecar := doc.sidecar.(facts := stamp));
            doc := doc.(sidecar := doc.sidecar.(lastSavedAudioRev := prep.snapshot.audioRev));
            if sidecarOk {
              doc := doc.(sidecar := doc.sidecar.(lastWrittenMarkers := prep.snapshot.markers));
            }
            if !io {
              r := Err(Io);
            } else {
              doc := doc.(hist := MarkSavedAt(doc.hist, prep.number));
              doc := doc.(recovered := false);
              if saveAs {
                doc := doc.(path := Some(prep.path), format := prep.format);
              }
              r := Ok(());
            }
            open := Some(doc);
          }
      }
      saveRunning := false;
    }
  }
}
