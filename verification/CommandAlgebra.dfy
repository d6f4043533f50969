/**
 * What the remaining commands of the service do, seen from outside: when exactly each is accepted,
 * with which reason it is refused, and everything it changes (src-tauri/src/document.rs).
 */
module CommandAlgebra {
  import opened Wrappers
  import opened Audio
  import opened Racks
  import opened Stores
  import opened Document
  import opened Histories
  import opened Ledgers
  import opened EditOps
  import opened Markers
  import opened Service
  import opened World
  import opened EditAlgebra
  import opened TakeAlgebra

  // --- Why an edit is refused -----------------------------------------------------------------------

  /** The first reason against an edit of `[start, end)`; what is left is the journal. */
  function WhyNot(s: Svc, start: nat, end: nat): Error {
    if s.normalizeBusy || s.pasteBusy then DocumentBusy
    else if s.open.None? then NoDocument
    else if s.open.value.recording then NotWhileRecording
    else if end <= start then NoSelection
    else if s.open.value.Len() < end then InvalidRange
    else Io
  }

  /** The same for an edit at a cursor or over a range. */
  function WhyNotAt(s: Svc, t: Target): Error {
    match t
    case Over(r) => WhyNot(s, r.start, r.end)
    case Cursor(c) =>
      if !Editable(s) then WhyNot(s, 0, 1)
      else if s.open.value.Len() < c then InvalidRange
      else Io
  }

  lemma RangeEditsRefuse(s: Svc, start: nat, end: nat, table: seq<Piece>, io: bool)
    ensures Cut(s, start, end, table, io).reply.Err? ==> Cut(s, start, end, table, io).reply.error == WhyNot(s, start, end)
    ensures Copy(s, start, end, table).reply.Err? ==> Copy(s, start, end, table).reply.error == WhyNot(s, start, end)
    ensures Delete(s, start, end, io).reply.Err? ==> Delete(s, start, end, io).reply.error == WhyNot(s, start, end)
    ensures Trim(s, start, end, io).reply.Err? ==> Trim(s, start, end, io).reply.error == WhyNot(s, start, end)
    ensures SilenceRange(s, start, end, io).reply.Err? ==> SilenceRange(s, start, end, io).reply.error == WhyNot(s, start, end)
  {
    hide Prepare, CommitWith, DeleteEdit, SilenceEdit, TrimEdit;
    if Selectable(s, start, end) {
      RefusedByJournal(s, start, end, io);
    }
  }

  /** Past the gate and the range there is only the journal. */
  lemma RefusedByJournal(s: Svc, start: nat, end: nat, io: bool)
    requires Selectable(s, start, end)
    ensures var doc, r := s.open.value, Range(start, end);
            && (CommitWith(s, doc, DeleteEdit(r), PostCutOrDelete(r), io).reply.Err? ==>
                  CommitWith(s, doc, DeleteEdit(r), PostCutOrDelete(r), io).reply == Err(Io))
            && (CommitWith(s, doc, SilenceEdit(r), PostKeepRange(r), io).reply.Err? ==>
                  CommitWith(s, doc, SilenceEdit(r), PostKeepRange(r), io).reply == Err(Io))
            && (TrimEdit(r, doc.Len()).Some? && CommitWith(s, doc, TrimEdit(r, doc.Len()).value, PostTrim(), io).reply.Err? ==>
                  CommitWith(s, doc, TrimEdit(r, doc.Len()).value, PostTrim(), io).reply == Err(Io))
  {
    hide Prepare;
    var doc, r := s.open.value, Range(start, end);
    var audio, ms := doc.hist.current.audio, doc.hist.current.markers;
    SingleReplace(audio, ms, Replace(start, end - start, [], Shift), None);
    SingleReplace(audio, ms, Replace(start, end - start, Silence(end - start), Identity), None);
    if TrimEdit(r, doc.Len()).Some? {
      TrimKeepsRange(audio, ms, r);
    }
  }

  /** Pastes look at the clipboard after the target, and at its pieces last. */
  lemma PasteRefuses(s: Svc, t: Target, io: bool)
    ensures var reply := Paste(s, t, io).reply;
            reply.Err? ==>
              if !Reachable(s, t) then reply.error == WhyNotAt(s, t)
              else if s.clipboard.None? then reply.error == ClipboardEmpty
              else if PasteNeedsJob(s) then reply.error == DocumentBusy
              else if UsableClip(s).None? then reply.error == BadPieces
              else reply.error == if UsableClip(s) == Some([]) && t.Cursor? then Rejected(ChangesNothing) else Io
  {
    hide Lookup, CommitWith;
    if Reachable(s, t) && UsableClip(s).Some? {
      PasteRefusedLast(s, s.open.value, UsableClip(s).value, t, io);
    }
  }

  lemma PasteRefusedLast(s: Svc, doc: OpenDoc, clip: Samples, t: Target, io: bool)
    requires Reachable(s, t) && s.open == Some(doc)
    ensures var reply := CommitWith(s, doc, PasteEdit(clip, t), PostPaste(t, |clip|), io).reply;
            reply.Err? ==> reply.error == if clip == [] && t.Cursor? then Rejected(ChangesNothing) else Io
  {
    hide Prepare;
    var op, w := Replace(t.Start(), Replaced(t), clip, Shift), Work(SoundOf(s), doc.hist.current.markers, false);
    if op.ChangesAudio() {
      SingleReplace(SoundOf(s), doc.hist.current.markers, op, None);
    } else {
      NothingPrepares(SoundOf(s), doc.hist.current.markers, op);
    }
  }

  lemma NothingPrepares(audio: Samples, ms: seq<Marker>, op: EditOp)
    requires !op.ChangesAudio()
    ensures Prepare(audio, ms, Edit([op], [], None)) == Err(ChangesNothing)
  {
    var w := Work(audio, ms, false);
    assert [op][1..] == [];
    assert ApplyOps(w, [op]) == ApplyOps(ApplyOp(w, op).value, []);
  }

  lemma InsertSilenceRefuses(s: Svc, t: Target, n: nat, io: bool)
    ensures var reply := InsertSilence(s, t, n, io).reply;
            reply.Err? ==>
              reply.error == if Editable(s) && !(0 < n <= 3600 * s.open.value.rateHz) then InsertSilenceDuration else WhyNotAt(s, t)
  {
    hide CommitWith;
    if Reachable(s, t) && 0 < n {
      InsertRefusedLast(s, s.open.value, t, n, io);
    }
  }

  lemma InsertRefusedLast(s: Svc, doc: OpenDoc, t: Target, n: nat, io: bool)
    requires Reachable(s, t) && s.open == Some(doc) && 0 < n
    ensures var reply := CommitWith(s, doc, InsertSilenceEdit(t, n), PostPaste(t, n), io).reply;
            reply.Err? ==> reply.error == Io
  {
    hide Prepare;
    SingleReplace(SoundOf(s), doc.hist.current.markers, Replace(t.Start(), 0, Silence(n), Shift), None);
  }

  // --- Marker commands ------------------------------------------------------------------------------

  /** `i` is the first marker with that id. */
  ghost predicate FirstWith(ms: seq<Marker>, id: nat, i: nat) {
    i < |ms| && ms[i].id == id && forall j :: 0 <= j < i ==> ms[j].id != id
  }

  ghost predicate Has(ms: seq<Marker>, id: nat) {
    exists m :: m in ms && m.id == id
  }

  /** The marker a command may be about is there, or not there yet, and its place is inside the document. */
  ghost predicate Allowed(ms: seq<Marker>, len: nat, op: MarkerOp) {
    match op
    case Add(m) => !Has(ms, m.id) && EndOf(m) <= len
    case Remove(id) => Has(ms, id)
    case Rename(id, _) => Has(ms, id)
    case Move(id, pos, n) => Has(ms, id) && pos + n <= len
  }

  /** One marker came, went or changed, and every other one is as it was. */
  ghost predicate OneMarkerChanged(ms: seq<Marker>, ns: multiset<Marker>, op: MarkerOp) {
    match op
    case Add(m) => ns == multiset(ms) + multiset{m}
    case Remove(id) => exists i: nat :: FirstWith(ms, id, i) && ns == multiset(ms) - multiset{ms[i]}
    case Rename(id, name) =>
      exists i: nat :: FirstWith(ms, id, i) && ns == multiset(ms) - multiset{ms[i]} + multiset{ms[i].(name := name)}
    case Move(id, pos, len) =>
      exists i: nat :: FirstWith(ms, id, i) && ns == multiset(ms) - multiset{ms[i]} + multiset{ms[i].(pos := pos, len := len)}
  }

  function Without(ms: seq<Marker>, i: nat): seq<Marker>
    requires i < |ms|
  {
    ms[..i] + ms[i + 1..]
  }

  /**
   * Where the marker of a command goes in a sorted list: an added one behind all at its position, a
   * moved one keeps its rank among those at its new position, and no other marker changes its place.
   */
  ghost predicate InOrder(ms: seq<Marker>, ns: seq<Marker>, op: MarkerOp) {
    match op
    case Add(m) => InPlace(ms, m, |ms|, ns)
    case Remove(id) => exists i: nat :: FirstWith(ms, id, i) && ns == Without(ms, i)
    case Rename(id, name) => exists i: nat :: FirstWith(ms, id, i) && ns == ms[i := ms[i].(name := name)]
    case Move(id, pos, len) =>
      exists i: nat :: FirstWith(ms, id, i) && InPlace(Without(ms, i), ms[i].(pos := pos, len := len), i, ns)
  }

  lemma MarkerOpInOrder(ms: seq<Marker>, len: nat, op: MarkerOp)
    requires SortedByPos(ms) && ApplyMarkerOp(ms, len, op).Ok?
    ensures InOrder(ms, SortMarkers(ApplyMarkerOp(ms, len, op).value), op)
  {
    hide IndexOf, SortMarkers;
    match op
    case Add(m) =>
      assert Put(ms, m, |ms|) == ms + [m];
      var j := FindsItsPlace(ms, m, |ms|);
    case Remove(id) =>
      IndexIsFirst(ms, id);
      SortedStays(Without(ms, IndexOf(ms, id).value));
    case Rename(id, name) =>
      IndexIsFirst(ms, id);
      var i := IndexOf(ms, id).value;
      SortedStays(ms[i := ms[i].(name := name)]);
    case Move(id, pos, n) =>
      IndexIsFirst(ms, id);
      var i := IndexOf(ms, id).value;
      var rest, m := Without(ms, i), ms[i].(pos := pos, len := n);
      assert Put(rest, m, i) == ms[i := m];
      var j := FindsItsPlace(rest, m, i);
  }

  lemma {:induction false} IndexIsFirst(ms: seq<Marker>, id: nat)
    ensures IndexOf(ms, id).Some? <==> Has(ms, id)
    ensures IndexOf(ms, id).Some? ==> FirstWith(ms, id, IndexOf(ms, id).value)
    decreases |ms|
  {
    if ms != [] && ms[0].id != id {
      IndexIsFirst(ms[1..], id);
      if Has(ms, id) {
        var m :| m in ms && m.id == id;
        assert m in ms[1..];
      }
      if IndexOf(ms[1..], id).Some? {
        assert ms[1..][IndexOf(ms[1..], id).value] in ms;
      }
    } else if ms != [] {
      assert ms[0] in ms;
    }
  }

  lemma Exchanged(ms: seq<Marker>, i: nat, m: Marker)
    requires i < |ms|
    ensures multiset(ms[i := m]) == multiset(ms) - multiset{ms[i]} + multiset{m}
    ensures multiset(ms[..i] + ms[i + 1..]) == multiset(ms) - multiset{ms[i]}
  {
    assert ms == ms[..i] + [ms[i]] + ms[i + 1..];
    assert ms[i := m] == ms[..i] + [m] + ms[i + 1..];
  }

  lemma MarkerOpDoes(ms: seq<Marker>, len: nat, op: MarkerOp)
    ensures ApplyMarkerOp(ms, len, op).Ok? <==> Allowed(ms, len, op)
    ensures ApplyMarkerOp(ms, len, op).Ok? ==> OneMarkerChanged(ms, multiset(ApplyMarkerOp(ms, len, op).value), op)
  {
    hide IndexOf;
    match op
    case Add(m) => IndexIsFirst(ms, m.id);
    case Remove(id) =>
      IndexIsFirst(ms, id);
      if IndexOf(ms, id).Some? {
        Exchanged(ms, IndexOf(ms, id).value, ms[IndexOf(ms, id).value]);
      }
    case Rename(id, name) =>
      IndexIsFirst(ms, id);
      if IndexOf(ms, id).Some? {
        var i := IndexOf(ms, id).value;
        Exchanged(ms, i, ms[i].(name := name));
      }
    case Move(id, pos, n) =>
      IndexIsFirst(ms, id);
      if IndexOf(ms, id).Some? {
        var i := IndexOf(ms, id).value;
        Exchanged(ms, i, ms[i].(pos := pos, len := n));
      }
  }

  /** An edit of one marker operation prepares exactly if it is allowed. */
  lemma MarkerEditPrepares(audio: Samples, ms: seq<Marker>, op: MarkerOp)
    ensures var p := Prepare(audio, ms, Edit([], [op], None));
            && (p.Ok? <==> Allowed(ms, |audio|, op))
            && (p.Ok? ==> p.value.audio == audio && !p.value.changed && SortedByPos(p.value.markers)
                          && OneMarkerChanged(ms, multiset(p.value.markers), op)
                          && (SortedByPos(ms) ==> InOrder(ms, p.value.markers, op)))
  {
    hide ApplyMarkerOp, SortMarkers, Allowed, OneMarkerChanged, InOrder;
    MarkerOpDoes(ms, |audio|, op);
    assert [op][1..] == [];
    if ApplyMarkerOp(ms, |audio|, op).Ok? {
      var next := ApplyMarkerOp(ms, |audio|, op).value;
      assert ApplyMarkerOps(ms, |audio|, [op]) == ApplyMarkerOps(next, |audio|, []);
      SortedIsSame(next);
      if SortedByPos(ms) {
        MarkerOpInOrder(ms, |audio|, op);
      }
    }
  }

  /**
   * A marker command: one undoable entry that leaves every sample and the audio number alone. It
   * needs no idle service; during a take an added marker waits for the take and the others for its end.
   */
  lemma MarkersDo(s: Svc, op: MarkerOp, io: bool)
    ensures var out := EditMarkers(s, [op], io);
            && (out.reply.Ok? <==>
                  s.open.Some? && if s.open.value.recording then op.Add? else Allowed(Holds(s).markers, |SoundOf(s)|, op) && io)
            && (out.reply.Err? || s.open.value.recording ==> out.svc == s)
            && (out.reply.Ok? && !s.open.value.recording ==>
                  && out.svc.open.Some?
                  && out.svc == s.(open := Some(s.open.value.(hist := out.svc.open.value.hist)))
                  && var h, k := s.open.value.hist, out.svc.open.value.hist;
                     && k.current.audio == h.current.audio && k.current.audioRev == h.current.audioRev
                     && k.current.rev == h.nextRev
                     && OneMarkerChanged(h.current.markers, multiset(k.current.markers), op) && SortedByPos(k.current.markers)
                     && (SortedByPos(h.current.markers) ==> InOrder(h.current.markers, k.current.markers, op))
                     && k.redo == [] && |k.undo| == |h.undo| + 1
                     && k.undo[..|h.undo|] == h.undo && k.undo[|h.undo|].snapshot == h.current
                     && k.undo[|h.undo|].number == h.nextNumber && !k.undo[|h.undo|].audio)
  {
    hide Prepare, Allowed, OneMarkerChanged, InOrder;
    if s.open.Some? && !s.open.value.recording {
      var doc := s.open.value;
      MarkerEditPrepares(doc.hist.current.audio, doc.hist.current.markers, op);
      if Allowed(doc.hist.current.markers, |doc.hist.current.audio|, op) && io {
        var k := Apply(doc.hist, Edit([], [op], None)).value.history;
        assert k.undo[..|doc.hist.undo|] == doc.hist.undo;
      }
    }
  }

  // --- Jobs -----------------------------------------------------------------------------------------

  predicate Plannable(s: Svc, start: nat, end: nat) {
    !s.normalizeBusy && s.open.Some? && !s.open.value.recording && start < end <= s.open.value.Len()
  }

  /** A job is given the document as it is and exactly the range that was asked for. */
  lemma JobsBegin(s: Svc, start: nat, end: nat)
    ensures var n, b := BeginNormalize(s, start, end), BeginBake(s, start, end);
            && (n.reply.Ok? <==> Plannable(s, start, end)) && n.reply == b.reply
            && (n.reply.Ok? ==>
                  && n.reply.value == JobSource(s.open.value.session, s.open.value.hist.current, Range(start, end))
                  && n.svc == s.(normalizeBusy := true) && b.svc == s.(normalizeBusy := true, bakeRunning := true))
            && (n.reply.Err? ==> n.svc == s && b.svc == s)
  {}

  /** A plan that needs no gain is accepted as long as its session is open, whatever happened to the document. */
  lemma NoGainFinishes(s: Svc, src: JobSource, io: bool)
    requires src.range.start <= src.range.end
    ensures var out := FinishNormalize(s, src, NoOp, io);
            && out.svc == s.(normalizeBusy := false)
            && (out.reply.Ok? <==> s.open.Some? && s.open.value.session == src.session)
            && (out.reply.Ok? ==> !out.reply.value.changed && Leaves(out, Some((src.range.start, src.range.end)), src.range.start)
                                  && out.reply.value.len == s.open.value.Len())
  {}

  /** A finished job leaves its range selected. */
  lemma FinishedJobsSelect(s: Svc, src: JobSource, samples: Samples, edit: Edit, after: Rack, io: bool)
    requires src.range.start <= src.range.end
    ensures var n, b := FinishNormalize(s, src, Gain(samples), io), FinishBake(s, src, edit, after, io);
            && (n.reply.Ok? ==> n.reply.value.changed && Leaves(n, Some((src.range.start, src.range.end)), src.range.start))
            && (b.reply.Ok? ==> b.reply.value.changed && Leaves(b, Some((src.range.start, src.range.end)), src.range.start))
  {
    hide Apply;
  }

  /** The rack can be changed exactly while no bake runs. */
  lemma RackDoes(s: Svc, rack: Rack)
    ensures var out := EditRack(s, rack);
            && (out.reply.Ok? <==> !s.bakeRunning)
            && (out.reply.Ok? ==> out.svc == s.(rack := rack))
            && (out.reply.Err? ==> out.svc == s && out.reply.error == BakeBusy)
  {}

  /** A paste job starts exactly for a streamed-out clip and a reachable target, and is given both as they are. */
  lemma PasteBegins(s: Svc, t: Target)
    ensures var out := BeginPaste(s, t);
            && (out.reply.Ok? <==> Reachable(s, t) && s.clipboard.Some? && s.clipboard.value.Materialized?)
            && (out.reply.Ok? ==>
                  && out.reply.value == PasteSource(s.open.value.session, s.open.value.rateHz, t, s.clipboard.value.clip)
                  && out.svc == s.(pasteBusy := true))
            && (out.reply.Err? ==> out.svc == s)
  {}

  /**
   * After a paste job the next paste into that document needs no job: the import is on the clipboard,
   * as its own pieces or as the converted ones.
   */
  lemma PasteJobIsOnce(s: Svc, src: PasteSource, written: Pieces, io: bool)
    requires src.target.Over? ==> src.target.range.start <= src.target.range.end
    requires written.owner == src.session && s.clipboard.Some? && s.clipboard.value.Materialized?
    requires s.open.Some? && src.rateHz == s.open.value.rateHz
    ensures var out := FinishPaste(s, src, written, io);
            out.reply.Ok? ==>
              && !PasteNeedsJob(out.svc) && out.svc.open.Some?
              && Spliceable(out.svc.clipboard, out.svc.open.value.session) == Ok(written)
              && (out.svc.clipboard.value.Bound? <==> src.clip.rateHz == src.rateHz)
              && (out.svc.clipboard.value.Bound? ==> out.svc.clipboard.value.rateHz == out.svc.open.value.rateHz)
              && (out.svc.clipboard.value.Materialized? ==> out.svc.clipboard.value.clip == s.clipboard.value.clip)
  {
    hide Lookup, CommitEdit, PasteEdit;
  }

  /** A paste job is needed exactly if a direct paste has nothing it may use in this session. */
  lemma NeedsJobExactly(s: Svc)
    ensures PasteNeedsJob(s) <==>
            s.open.Some? && s.clipboard.Some? && Spliceable(s.clipboard, s.open.value.session).Err?
  {}

  // --- The disk check -------------------------------------------------------------------------------

  /** The disk check drops the oldest undo entries, as many as asked for, and nothing else; during a take none. */
  lemma DropDoes(s: Svc, count: nat, io: bool)
    ensures var t := DropOldestUndo(s, count, io);
            && (s.open.None? || Taking(s) || !io ==> t == s)
            && (s.open.Some? && !Taking(s) && io ==>
                  && t.open.Some?
                  && var old_, new_ := s.open.value.hist.undo, t.open.value.hist.undo;
                     && t == s.(open := Some(s.open.value.(hist := s.open.value.hist.(undo := new_))))
                     && |new_| == (if count <= |old_| then |old_| - count else 0)
                     && new_ == old_[|old_| - |new_|..])
  {}

  // --- Documents ------------------------------------------------------------------------------------

  /** Opening replaces document, clipboard form and, if the file brings one, rack; nothing else. */
  lemma OpenDoes(s: Svc, doc: OpenDoc, rack: Option<Rack>, io: bool)
    ensures var out := Open(s, doc, rack, io);
            && (out.reply.Ok? <==> !Taking(s))
            && (out.reply.Ok? ==>
                  && out.svc == s.(open := Some(doc), clipboard := out.svc.clipboard, rack := if rack.Some? then rack.value else s.rack)
                  && Streamed(s, out.svc, io))
            && (out.reply.Err? ==> out.svc == s && out.reply.error == NotWhileRecording)
  {
    hide Lookup;
  }

  lemma CloseDoes(s: Svc, io: bool)
    ensures var out := Close(s, io);
            && (out.reply.Ok? <==> !Taking(s))
            && (out.reply.Ok? ==> out.svc == s.(open := None, clipboard := out.svc.clipboard) && Streamed(s, out.svc, io))
            && (out.reply.Err? ==> out.svc == s && out.reply.error == NotWhileRecording)
  {
    hide Lookup;
  }

  /** Bound pieces of `s` were streamed out with their rate, or lost; any other clipboard stayed. */
  predicate Streamed(s: Svc, t: Svc, io: bool) {
    if s.open.Some? && s.clipboard.Some? && s.clipboard.value.Bound? then
      var audio := Lookup(s.clipboard.value.pieces.table, s.open.value.store);
      && (t.clipboard.Some? <==> io && audio.Some?)
      && (t.clipboard.Some? ==>
            t.clipboard.value == Materialized(MaterializedClip(audio.value, s.clipboard.value.rateHz), None))
    else t.clipboard == s.clipboard
  }

  /**
   * Recording starts on the open document exactly if it is empty and has the rate; else on a fresh
   * untitled one, which a document with samples gives way to only if the user agreed; it stays in place
   * even if the take then cannot start.
   */
  lemma RecordingDoes(s: Svc, rate: nat, format: Format, replace: bool, created: Option<nat>, clipIo: bool, io: bool)
    ensures var out := BeginRecording(s, rate, format, replace, created, clipIo, io);
            var reuse := s.open.Some? && s.open.value.Len() == 0 && s.open.value.rateHz == rate;
            var gives := !Taking(s) && !reuse && (s.open.None? || s.open.value.Len() == 0 || replace) && created.Some?;
            && (out.reply.Ok? <==> !Taking(s) && io && (reuse || gives))
            && (gives ==>
                  && out.svc.open.Some?
                  && out.svc == s.(open := out.svc.open, clipboard := out.svc.clipboard) && Streamed(s, out.svc, clipIo)
                  && Fresh(out.svc.open.value, created.value, rate, format) && out.svc.open.value.recording == io)
            && (!gives && out.reply.Ok? ==> out.svc == s.(open := Some(s.open.value.(recording := true))))
            && (!gives && out.reply.Err? ==> out.svc == s)
            && (out.reply == Err(NeedsReplace) <==> !Taking(s) && !reuse && s.open.Some? && s.open.value.Len() > 0 && !replace)
  {
    hide Lookup;
  }

  /** An empty, untitled, clean document. */
  predicate Fresh(d: OpenDoc, session: nat, rate: nat, format: Format) {
    && d.session == session && d.rateHz == rate && d.format == format
    && d.path.None? && !d.recovered && d.hist.current.audio == [] && d.hist.current.markers == []
    && d.hist.undo == [] && d.hist.redo == [] && !d.hist.IsDirty()
  }

  lemma RecordOpDoes(s: Svc, rate: nat, io: bool)
    ensures var out := BeginRecordOp(s, rate, io);
            && (out.reply.Ok? <==> !s.normalizeBusy && s.open.Some? && !Taking(s) && s.open.value.rateHz == rate && io)
            && (out.reply.Ok? ==> out.svc == s.(open := Some(s.open.value.(recording := true))))
            && (out.reply.Err? ==> out.svc == s)
  {}

  lemma DiscardDoes(s: Svc)
    ensures DiscardTake(s) == if s.open.Some? then Ended(s) else s
  {}

  // --- Saves ----------------------------------------------------------------------------------------

  /** A save starts exactly if none runs, there is a document to save and nothing speaks against it. */
  lemma SavesBegin(s: Svc, onDisk: Option<nat>, overwrite: bool, format: Format, preflight: bool)
    ensures var save, saveAs := BeginSave(s, onDisk, overwrite, preflight), BeginSaveAs(s, format, preflight);
            && (save.reply.Ok? <==>
                  && !s.saveRunning && s.open.Some? && s.open.value.path.Some? && preflight
                  && (overwrite || onDisk.None? || onDisk.value == s.open.value.sidecar.facts))
            && (saveAs.reply.Ok? <==>
                  !s.saveRunning && s.open.Some? && preflight && !(format.container == Flac && format.bits == Bit32Float))
            && save.svc == s.(saveRunning := s.saveRunning || save.reply.Ok?)
            && saveAs.svc == s.(saveRunning := s.saveRunning || saveAs.reply.Ok?)
  {}

  /** Recording a written Save As binds the document to the new path and format, and nothing else does. */
  lemma RecordDoes(s: Svc, prep: SavePrep, saveAs: bool, outcome: WriteOutcome, io: bool)
    ensures var out := FinishSave(s, prep, saveAs, outcome, io);
            && (out.reply.Ok? <==> outcome.Written? && io && s.open.Some? && s.open.value.session == prep.session)
            && (out.reply.Ok? ==>
                  && out.svc.open.Some?
                  && var d, e := s.open.value, out.svc.open.value;
                     && out.svc == s.(saveRunning := false, open := Some(e))
                     && e.path == (if saveAs then Some(prep.path) else d.path)
                     && e.format == (if saveAs then prep.format else d.format)
                     && !e.recovered && e.sidecar.facts == outcome.stamp
                     && e.hist == d.hist.(savedNumber := prep.number)
                     && (e.Dirty() <==> d.hist.CurrentNumber() != prep.number)
                     && e.session == d.session && e.rateHz == d.rateHz && e.recording == d.recording && e.store == d.store)
            && (out.reply.Err? && out.svc.open != s.open ==> !io && outcome.Written? && s.open.Some? && s.open.value.session == prep.session)
            && (out.reply.Err? && out.svc.open.Some? ==>
                  s.open.Some? && out.svc.open.value == s.open.value.(sidecar := out.svc.open.value.sidecar))
  {}

  /**
   * Saving twice writes once: after a recorded save with its sidecar, a save of the same revision
   * leaves the audio file alone as long as it is there; after an edit of samples or markers it does not.
   */
  lemma SavedOnce(s: Svc, prep: SavePrep, saveAs: bool, stamp: nat, later: OpenDoc, exists_: bool)
    requires s.open.Some? && prep == PrepareSave(s.open.value, prep.path, prep.format, saveAs, true)
    requires !saveAs ==> s.open.value.path == Some(prep.path) && s.open.value.format == prep.format
    requires var saved := FinishSave(s, prep, saveAs, Written(stamp, true), true).svc.open;
             saved.Some? && later == saved.value.(hist := later.hist)
    ensures var next := PrepareSave(later, prep.path, prep.format, false, exists_);
            !next.needsFull <==>
              && exists_
              && later.hist.current.audioRev == prep.snapshot.audioRev
              && later.hist.current.markers == prep.snapshot.markers
  {}
}
