/**
 * What each edit command of the service does to the sound, when exactly it is accepted, and where it
 * leaves history, selection and playhead.
 */
module EditAlgebra {
  import opened Wrappers
  import opened Audio
  import opened Racks
  import opened Stores
  import opened Document
  import opened Histories
  import opened EditOps
  import opened Markers
  import opened Service
  import opened World

  /** A destructive command may run: no job, a document, no take. */
  predicate Editable(s: Svc) {
    !s.normalizeBusy && !s.pasteBusy && s.open.Some? && !s.open.value.recording
  }

  predicate Selectable(s: Svc, start: nat, end: nat) {
    Editable(s) && start < end <= s.open.value.Len()
  }

  predicate Reachable(s: Svc, t: Target) {
    Editable(s) &&
    match t
    case Cursor(c) => c <= s.open.value.Len()
    case Over(r) => r.start < r.end <= s.open.value.Len()
  }

  function SoundOf(s: Svc): Samples
    requires s.open.Some?
  {
    s.open.value.hist.current.audio
  }

  function Holds(s: Svc): Content
    requires s.open.Some?
  {
    ContentOf(s.open.value.hist.current)
  }

  /**
   * The command committed one undoable edit that turned the sound into `audio`, left everything but
   * the history (and, if `clip` says so, the clipboard) alone, and replied with positions inside the
   * new sound.
   */
  ghost predicate Edited(s: Svc, out: Out<EditResult>, audio: Samples, clipboard: Option<Clipboard>, at: nat) {
    && s.open.Some? && out.reply.Ok? && out.svc.open.Some?
    && out.svc == s.(open := Some(s.open.value.(hist := out.svc.open.value.hist)), clipboard := clipboard)
    && var h, k, r := s.open.value.hist, out.svc.open.value.hist, out.reply.value;
       && k.current.audio == audio
       && k.redo == []
       && |k.undo| == |h.undo| + 1 && k.undo[..|h.undo|] == h.undo && k.undo[|h.undo|].snapshot == h.current
       && k.undo[|h.undo|].attachment.None? && k.undo[|h.undo|].audio && k.undo[|h.undo|].firstAt == Some(at)
       && k.CurrentNumber() == h.nextNumber && k.savedNumber == h.savedNumber
       && k.current.rev == h.nextRev && k.current.audioRev == h.nextAudioRev
       && k.nextRev == h.nextRev + 1 && k.nextAudioRev == h.nextAudioRev + 1 && k.nextNumber == h.nextNumber + 1
       && r.changed && r.len == |audio| && r.audioRev == k.current.audioRev
       && PostFits(PostEdit(r.selection, r.playhead), |audio|)
  }

  /** Where selection and playhead are after the command. */
  predicate Leaves(out: Out<EditResult>, selection: Option<(nat, nat)>, playhead: nat) {
    out.reply.Ok? && out.reply.value.selection == selection && out.reply.value.playhead == playhead
  }

  /** An edit of the open document's history with known audio, through the service. */
  lemma CommitEdits(s: Svc, doc: OpenDoc, edit: Edit, post: PostEdit, audio: Samples, at: nat, io: bool)
    requires Editable(s) && s.open == Some(doc) && edit.attachment.None? && edit.FirstAt() == Some(at)
    requires var p := Prepare(doc.hist.current.audio, doc.hist.current.markers, edit); p.Ok? && p.value.audio == audio && p.value.changed
    requires PostFits(post, |audio|)
    ensures var out := CommitWith(s, doc, edit, post, io);
            (out.reply.Ok? <==> io) && (io ==> Edited(s, out, audio, s.clipboard, at)) && (!io ==> out.svc == s) &&
            (io ==> Leaves(out, post.selection, post.playhead)) &&
            (io ==>
               && out.svc.open.Some?
               && Holds(out.svc) == Content(audio, Prepare(doc.hist.current.audio, doc.hist.current.markers, edit).value.markers))
  {
    hide Prepare;
    if io {
      var h, k := doc.hist, Apply(doc.hist, edit).value.history;
      assert k.undo[..|h.undo|] == h.undo;
    }
  }

  /** An entry points to the first change of its edit. */
  lemma {:induction false} FirstAtIsLeast(ops: seq<EditOp>)
    ensures FirstAtOf(ops).None? <==> ops == []
    ensures FirstAtOf(ops).Some? ==>
              && (exists i :: 0 <= i < |ops| && ops[i].at == FirstAtOf(ops).value)
              && (forall i :: 0 <= i < |ops| ==> FirstAtOf(ops).value <= ops[i].at)
    decreases |ops|
  {
    if ops != [] {
      FirstAtIsLeast(ops[1..]);
      var first := FirstAtOf(ops).value;
      if first != ops[0].at {
        var i :| 0 <= i < |ops[1..]| && ops[1..][i].at == first;
        assert ops[i + 1].at == first;
      }
      forall i | 0 <= i < |ops| ensures first <= ops[i].at {
        assert i > 0 ==> ops[i] == ops[1..][i - 1];
      }
    }
  }

  lemma SelectedOk(s: Svc, start: nat, end: nat)
    requires s.open.Some?
    ensures SelectedRange(s.open.value, start, end).Ok? <==> start < end <= s.open.value.Len()
    ensures SelectedRange(s.open.value, start, end).Ok? ==> SelectedRange(s.open.value, start, end).value == Range(start, end)
  {}

  lemma GateIs(s: Svc)
    ensures EditGate(s).Ok? <==> Editable(s)
    ensures Editable(s) ==> EditGate(s) == Ok(s.open.value)
  {}

  /** Deleting closes the gap, under the samples and under the markers. */
  lemma DeleteDoes(s: Svc, start: nat, end: nat, io: bool)
    ensures var out := Delete(s, start, end, io);
            && (out.reply.Ok? <==> Selectable(s, start, end) && io)
            && (out.reply.Ok? ==>
                  && Edited(s, out, SoundOf(s)[..start] + SoundOf(s)[end..], s.clipboard, start)
                  && Moved(Holds(s), Holds(out.svc), start, end - start, 0)
                  && Leaves(out, None, start))
            && (out.reply.Err? ==> out.svc == s)
  {
    hide CommitWith, Prepare, EditGate, Edited, SelectedRange, Moved;
    GateIs(s);
    if Editable(s) {
      SelectedOk(s, start, end);
      if start < end <= s.open.value.Len() {
        DeleteCommits(s, s.open.value, start, end, io);
      }
    }
  }

  lemma DeleteCommits(s: Svc, doc: OpenDoc, start: nat, end: nat, io: bool)
    requires Selectable(s, start, end) && s.open == Some(doc)
    ensures var r := Range(start, end);
            var out := CommitWith(s, doc, DeleteEdit(r), PostCutOrDelete(r), io);
            (out.reply.Ok? <==> io) && (!io ==> out.svc == s) &&
            (io ==>
               && Edited(s, out, SoundOf(s)[..start] + SoundOf(s)[end..], s.clipboard, start)
               && Moved(Holds(s), Holds(out.svc), start, end - start, 0)
               && Leaves(out, None, start))
  {
    hide Prepare, CommitWith, Edited, Moved;
    var audio, r := SoundOf(s), Range(start, end);
    SingleReplace(audio, doc.hist.current.markers, Replace(start, end - start, [], Shift), None);
    ReplaceMoves(audio, doc.hist.current.markers, Replace(start, end - start, [], Shift), None);
    FirstAtIsLeast([Replace(start, end - start, [], Shift)]);
    assert Splice(audio, start, end - start, []) == audio[..start] + audio[end..];
    CommitEdits(s, doc, DeleteEdit(r), PostCutOrDelete(r), audio[..start] + audio[end..], start, io);
  }

  /** Cutting deletes, and puts what was deleted on the clipboard, but only if the edit was committed. */
  lemma CutDoes(s: Svc, start: nat, end: nat, table: seq<Piece>, io: bool)
    ensures var out := Cut(s, start, end, table, io);
            && (out.reply.Ok? <==> Selectable(s, start, end) && io)
            && (out.reply.Ok? ==>
                  && Edited(s, out, SoundOf(s)[..start] + SoundOf(s)[end..],
                            Some(Bound(Pieces(s.open.value.session, table, SoundOf(s)[start..end]), s.open.value.rateHz)), start)
                  && Moved(Holds(s), Holds(out.svc), start, end - start, 0)
                  && Leaves(out, None, start))
            && (out.reply.Err? ==> out.svc == s)
  {
    hide CommitWith, Prepare, EditGate, SelectedRange, Moved;
    GateIs(s);
    if Editable(s) {
      SelectedOk(s, start, end);
      if start < end <= s.open.value.Len() {
        DeleteCommits(s, s.open.value, start, end, io);
      }
    }
  }

  /** Copying changes the clipboard and nothing else. */
  lemma CopyDoes(s: Svc, start: nat, end: nat, table: seq<Piece>)
    ensures var out := Copy(s, start, end, table);
            && (out.reply.Ok? <==> Selectable(s, start, end))
            && (out.reply.Ok? ==>
                  && !out.reply.value.changed && Leaves(out, Some((start, end)), start)
                  && out.svc == s.(clipboard :=
                       Some(Bound(Pieces(s.open.value.session, table, SoundOf(s)[start..end]), s.open.value.rateHz))))
            && (out.reply.Err? ==> out.svc == s)
  {}

  /** Silencing writes exact zeros over the range and moves no marker. */
  lemma SilenceDoes(s: Svc, start: nat, end: nat, io: bool)
    ensures var out := SilenceRange(s, start, end, io);
            && (out.reply.Ok? <==> Selectable(s, start, end) && io)
            && (out.reply.Ok? ==>
                  && Edited(s, out, SoundOf(s)[..start] + Silence(end - start) + SoundOf(s)[end..], s.clipboard, start)
                  && SameList(Holds(s).markers, Holds(out.svc).markers)
                  && Leaves(out, Some((start, end)), start))
            && (out.reply.Err? ==> out.svc == s)
  {
    hide CommitWith, Prepare, EditGate, Edited, SelectedRange, Moved;
    GateIs(s);
    if Editable(s) {
      SelectedOk(s, start, end);
      if start < end <= s.open.value.Len() {
        SilenceCommits(s, s.open.value, start, end, io);
      }
    }
  }

  lemma SilenceCommits(s: Svc, doc: OpenDoc, start: nat, end: nat, io: bool)
    requires Selectable(s, start, end) && s.open == Some(doc)
    ensures var r := Range(start, end);
            var out := CommitWith(s, doc, SilenceEdit(r), PostKeepRange(r), io);
            (out.reply.Ok? <==> io) && (!io ==> out.svc == s) &&
            (io ==>
               && Edited(s, out, SoundOf(s)[..start] + Silence(end - start) + SoundOf(s)[end..], s.clipboard, start)
               && SameList(Holds(s).markers, Holds(out.svc).markers)
               && Leaves(out, Some((start, end)), start))
  {
    hide Prepare, Edited, SameList;
    var audio, ms, r := SoundOf(s), doc.hist.current.markers, Range(start, end);
    SilencePrepares(audio, ms, r);
    FirstAtIsLeast([Replace(start, end - start, Silence(end - start), Identity)]);
    CommitEdits(s, doc, SilenceEdit(r), PostKeepRange(r), audio[..start] + Silence(end - start) + audio[end..], start, io);
  }

  lemma SilencePrepares(audio: Samples, ms: seq<Marker>, r: Range)
    requires r.start < r.end <= |audio|
    ensures var p := Prepare(audio, ms, SilenceEdit(r));
            && p.Ok? && p.value.audio == audio[..r.start] + Silence(r.end - r.start) + audio[r.end..]
            && p.value.changed && SameList(ms, p.value.markers)
  {
    hide Prepare, SameList;
    var op := Replace(r.start, r.end - r.start, Silence(r.end - r.start), Identity);
    SingleReplace(audio, ms, op, None);
    IdentityMoves(audio, ms, op, None);
  }

  /** Trimming keeps exactly the range; trimming to everything is no edit. */
  lemma TrimDoes(s: Svc, start: nat, end: nat, io: bool)
    ensures var out := Trim(s, start, end, io);
            && (Selectable(s, start, end) && start == 0 && end == s.open.value.Len() ==>
                  out.svc == s && out.reply.Ok? && !out.reply.value.changed && Leaves(out, None, 0))
            && (!(Selectable(s, start, end) && start == 0 && end == s.open.value.Len()) ==>
                  && (out.reply.Ok? <==> Selectable(s, start, end) && io)
                  && (out.reply.Ok? ==>
                        && Edited(s, out, SoundOf(s)[start..end], s.clipboard, 0)
                        && Leaves(out, None, 0)
                        && (MarkersFit(Holds(s).markers, |SoundOf(s)|) ==>
                              TrimsMarkers(Holds(s).markers, Holds(out.svc).markers, start, end))))
            && (out.reply.Err? ==> out.svc == s)
  {
    hide CommitWith, Prepare, EditGate, Edited, SelectedRange, Moved;
    GateIs(s);
    if Editable(s) {
      SelectedOk(s, start, end);
      if start < end <= s.open.value.Len() && !(start == 0 && end == s.open.value.Len()) {
        var doc, r := s.open.value, Range(start, end);
        TrimKeepsRange(SoundOf(s), doc.hist.current.markers, r);
        FirstAtIsLeast(TrimEdit(r, doc.Len()).value.ops);
        if MarkersFit(Holds(s).markers, |SoundOf(s)|) {
          TrimMoves(SoundOf(s), doc.hist.current.markers, r);
        }
        CommitEdits(s, doc, TrimEdit(r, doc.Len()).value, PostTrim(), SoundOf(s)[start..end], 0, io);
      }
    }
  }

  /** The audio of a clip put at a target: inserted at a cursor, in the place of a range. */
  function Pasted(audio: Samples, clip: Samples, t: Target): Samples
    requires match t case Cursor(c) => c <= |audio| case Over(r) => r.start <= r.end <= |audio|
  {
    match t
    case Cursor(c) => audio[..c] + clip + audio[c..]
    case Over(r) => audio[..r.start] + clip + audio[r.end..]
  }

  /** How many samples a target gives up. */
  function Replaced(t: Target): nat
    requires t.Over? ==> t.range.start <= t.range.end
  {
    match t
    case Cursor(_) => 0
    case Over(r) => r.end - r.start
  }

  lemma ResolveIs(s: Svc, t: Target)
    requires Editable(s)
    ensures ResolveTarget(s.open.value, t).Ok? <==> Reachable(s, t)
    ensures Reachable(s, t) ==> ResolveTarget(s.open.value, t) == Ok(t)
  {}

  /** An edit that changes nothing is refused. */
  lemma EmptyPasteRefused(s: Svc, doc: OpenDoc, t: Target, io: bool)
    requires Reachable(s, t) && s.open == Some(doc) && t.Cursor?
    ensures var out := CommitWith(s, doc, PasteEdit([], t), PostPaste(t, 0), io);
            out.reply.Err? && out.svc == s
  {
    var op, w := Replace(t.Start(), 0, [], Shift), Work(SoundOf(s), doc.hist.current.markers, false);
    assert [op][1..] == [];
    assert ApplyOps(w, [op]) == ApplyOps(ApplyOp(w, op).value, []);
  }

  lemma PasteCommits(s: Svc, doc: OpenDoc, clip: Samples, t: Target, io: bool)
    requires Reachable(s, t) && s.open == Some(doc) && (clip != [] || t.Over?)
    ensures var out := CommitWith(s, doc, PasteEdit(clip, t), PostPaste(t, |clip|), io);
            && (out.reply.Ok? <==> io) && (!io ==> out.svc == s)
            && (io ==>
                  && Edited(s, out, Pasted(SoundOf(s), clip, t), s.clipboard, t.Start())
                  && Moved(Holds(s), Holds(out.svc), t.Start(), Replaced(t), |clip|)
                  && Leaves(out, Some((t.Start(), t.Start() + |clip|)), t.Start()))
  {
    hide Prepare, CommitWith, Edited, Moved;
    var audio := SoundOf(s);
    var removed := Replaced(t);
    SingleReplace(audio, doc.hist.current.markers, Replace(t.Start(), removed, clip, Shift), None);
    ReplaceMoves(audio, doc.hist.current.markers, Replace(t.Start(), removed, clip, Shift), None);
    FirstAtIsLeast([Replace(t.Start(), removed, clip, Shift)]);
    assert Splice(audio, t.Start(), removed, clip) == Pasted(audio, clip, t);
    CommitEdits(s, doc, PasteEdit(clip, t), PostPaste(t, |clip|), Pasted(audio, clip, t), t.Start(), io);
  }

  /** The samples a direct paste inserts: what the open store holds for bound pieces, or for this session's converted ones. */
  function UsableClip(s: Svc): Option<Samples>
    requires s.open.Some?
  {
    match Spliceable(s.clipboard, s.open.value.session)
    case Err(_) => None
    case Ok(pieces) => Lookup(pieces.table, s.open.value.store)
  }

  /** Pasting is accepted exactly for readable pieces, a reachable target and something to change, and selects what it inserted. */
  lemma PasteDoes(s: Svc, t: Target, io: bool)
    requires s.open.Some?
    ensures var out := Paste(s, t, io);
            && (out.reply.Ok? <==> Reachable(s, t) && UsableClip(s).Some? && (UsableClip(s) != Some([]) || t.Over?) && io)
            && (out.reply.Ok? ==>
                  var clip := UsableClip(s).value;
                  && Edited(s, out, Pasted(SoundOf(s), clip, t), s.clipboard, t.Start())
                  && Moved(Holds(s), Holds(out.svc), t.Start(), Replaced(t), |clip|)
                  && Leaves(out, Some((t.Start(), t.Start() + |clip|)), t.Start()))
            && (out.reply.Err? ==> out.svc == s)
  {
    hide CommitWith, Prepare, EditGate, Edited, ResolveTarget, PasteEdit, Spliceable, Moved;
    GateIs(s);
    if Editable(s) {
      ResolveIs(s, t);
      if Reachable(s, t) && UsableClip(s).Some? {
        if UsableClip(s) != Some([]) || t.Over? {
          PasteCommits(s, s.open.value, UsableClip(s).value, t, io);
        } else {
          EmptyPasteRefused(s, s.open.value, t, io);
        }
      }
    }
  }

  /** Inserting silence inserts zeros at the start of the target, never removes, and is bounded to an hour. */
  lemma InsertSilenceDoes(s: Svc, t: Target, n: nat, io: bool)
    ensures var out := InsertSilence(s, t, n, io);
            && (out.reply.Ok? <==> Reachable(s, t) && 0 < n <= 3600 * s.open.value.rateHz && io)
            && (out.reply.Ok? ==>
                  && Edited(s, out, SoundOf(s)[..t.Start()] + Silence(n) + SoundOf(s)[t.Start()..], s.clipboard, t.Start())
                  && Moved(Holds(s), Holds(out.svc), t.Start(), 0, n)
                  && Leaves(out, Some((t.Start(), t.Start() + n)), t.Start()))
            && (out.reply.Err? ==> out.svc == s)
  {
    hide CommitWith, Prepare, EditGate, Edited, ResolveTarget, InsertSilenceEdit, Moved;
    GateIs(s);
    if Editable(s) {
      ResolveIs(s, t);
      if Reachable(s, t) && 0 < n <= 3600 * s.open.value.rateHz {
        InsertCommits(s, s.open.value, t, n, io);
      }
    }
  }

  lemma InsertCommits(s: Svc, doc: OpenDoc, t: Target, n: nat, io: bool)
    requires Reachable(s, t) && s.open == Some(doc) && n > 0
    ensures var out := CommitWith(s, doc, InsertSilenceEdit(t, n), PostPaste(t, n), io);
            && (out.reply.Ok? <==> io) && (!io ==> out.svc == s)
            && (io ==>
                  && Edited(s, out, SoundOf(s)[..t.Start()] + Silence(n) + SoundOf(s)[t.Start()..], s.clipboard, t.Start())
                  && Moved(Holds(s), Holds(out.svc), t.Start(), 0, n)
                  && Leaves(out, Some((t.Start(), t.Start() + n)), t.Start()))
  {
    hide Prepare, CommitWith, Edited, Moved;
    var audio := SoundOf(s);
    ReplaceMoves(audio, doc.hist.current.markers, Replace(t.Start(), 0, Silence(n), Shift), None);
    FirstAtIsLeast([Replace(t.Start(), 0, Silence(n), Shift)]);
    SingleReplace(audio, doc.hist.current.markers, Replace(t.Start(), 0, Silence(n), Shift), None);
    CommitEdits(s, doc, InsertSilenceEdit(t, n), PostPaste(t, n), audio[..t.Start()] + Silence(n) + audio[t.Start()..], t.Start(), io);
  }

  /** Cut, then paste where it was: the sound is back, selected as before. */
  lemma CutPasteIsIdentity(s: Svc, start: nat, end: nat, table: seq<Piece>)
    requires Selectable(s, start, end) && LiesUnder(s, start, end, table)
    ensures var cut := Cut(s, start, end, table, true);
            var back := Paste(cut.svc, Cursor(start), true);
            && cut.reply.Ok? && back.reply.Ok? && back.svc.open.Some?
            && SoundOf(back.svc) == SoundOf(s)
            && back.reply.value.selection == Some((start, end))
  {
    hide Cut, Paste, Lookup;
    CutDoes(s, start, end, table, true);
    var cut := Cut(s, start, end, table, true).svc;
    var audio := SoundOf(s);
    assert UsableClip(cut) == Some(audio[start..end]);
    PasteDoes(cut, Cursor(start), true);
    assert Pasted(audio[..start] + audio[end..], audio[start..end], Cursor(start)) == audio;
  }
}
