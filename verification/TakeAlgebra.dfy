/**
 * What the end of a recording does to the document (src-tauri/src/document.rs `commit_take`,
 * `commit_take_op`): the take becomes one undoable edit, or nothing but the recording ends.
 */
module TakeAlgebra {
  import opened Wrappers
  import opened Audio
  import opened Racks
  import opened Stores
  import opened Document
  import opened Histories
  import opened EditOps
  import opened Service
  import opened EditAlgebra

  predicate Taking(s: Svc) {
    s.open.Some? && s.open.value.recording
  }

  /** The take can become an edit of what the document holds, and the journal takes it. */
  predicate Committable(s: Svc, take: Edit, io: bool)
    requires s.open.Some?
  {
    Prepare(SoundOf(s), Holds(s).markers, take).Ok? && io
  }

  /** Only the recording has ended. */
  function Ended(s: Svc): Svc
    requires s.open.Some?
  {
    s.(open := Some(s.open.value.(recording := false)))
  }

  /**
   * The recording has ended and the document holds `content`, one undo entry above what it held; the
   * old stack is below it, nothing can be redone, and undoing the entry gives the old content back.
   */
  ghost predicate Recorded(s: Svc, t: Svc, content: Content) {
    && s.open.Some? && t.open.Some?
    && t == s.(open := Some(s.open.value.(recording := false, hist := t.open.value.hist)))
    && var h, k := s.open.value.hist, t.open.value.hist;
       && ContentOf(k.current) == content
       && k.redo == [] && k.savedNumber == h.savedNumber
       && |k.undo| == |h.undo| + 1 && k.undo[..|h.undo|] == h.undo && k.undo[|h.undo|].snapshot == h.current
       && Undo(k).Some? && ContentOf(Undo(k).value.history.current) == ContentOf(h.current)
       && Undo(k).value.history.undo == h.undo
  }

  lemma AppliedIsRecorded(s: Svc, take: Edit)
    requires s.open.Some? && Prepare(SoundOf(s), Holds(s).markers, take).Ok?
    ensures var d := s.open.value;
            var p := Prepare(SoundOf(s), Holds(s).markers, take).value;
            Apply(d.hist, take).Ok? &&
            Recorded(s, s.(open := Some(d.(recording := false, hist := Apply(d.hist, take).value.history))),
                     Content(p.audio, p.markers))
  {
    hide Prepare;
    var h := s.open.value.hist;
    var k := Apply(h, take).value.history;
    assert k.undo[..|h.undo|] == h.undo && k.undo[..|k.undo| - 1] == h.undo;
  }

  /**
   * A take is accepted exactly if one runs and it is empty or can be committed. Then the document
   * holds what the take makes of it, or only the recording has ended. A take that is refused leaves
   * everything, or its document gives way to the fresh one that could be created.
   */
  lemma TakeDoes(s: Svc, take: Option<Edit>, io: bool, created: Option<nat>, clipIo: bool)
    ensures var out := CommitTake(s, take, io, created, clipIo);
            && (out.reply.Ok? <==> Taking(s) && (take.None? || Committable(s, take.value, io)))
            && (out.reply.Ok? && take.None? ==> out.svc == Ended(s))
            && (out.reply.Ok? && take.Some? ==>
                  var p := Prepare(SoundOf(s), Holds(s).markers, take.value).value;
                  Recorded(s, out.svc, Content(p.audio, p.markers)))
            && (out.reply.Err? && (s.open.None? || created.None?) ==> out.svc == s)
            && (out.reply.Err? && s.open.Some? && created.Some? ==>
                  && out.svc.open == Some(NewRecording(created.value, s.open.value.rateHz, s.open.value.format))
                  && out.svc == s.(open := out.svc.open, clipboard := out.svc.clipboard)
                  && (out.svc.clipboard.Some? ==> out.svc.clipboard.value.Materialized?))
  {
    hide Apply, Recorded, Install, NewRecording;
    if s.open.Some? {
      if take.Some? {
        ApplyPrepares(s.open.value, take.value);
      }
      if created.Some? {
        InstallReplaces(s, NewRecording(created.value, s.open.value.rateHz, s.open.value.format), clipIo);
      }
      if Taking(s) && take.Some? && Prepare(SoundOf(s), Holds(s).markers, take.value).Ok? {
        AppliedIsRecorded(s, take.value);
      }
    }
  }

  lemma ApplyPrepares(d: OpenDoc, take: Edit)
    ensures Apply(d.hist, take).Ok? <==> Prepare(d.hist.current.audio, d.hist.current.markers, take).Ok?
  {
    hide Prepare;
  }

  lemma InstallReplaces(s: Svc, doc: OpenDoc, io: bool)
    requires s.open.Some?
    ensures var t := Install(s, doc, io);
            && t == s.(open := Some(doc), clipboard := t.clipboard)
            && (t.clipboard.Some? ==> t.clipboard.value.Materialized?)
  {
    hide Lookup;
  }

  /** The same for a record operation, except that a refused edit still ends the recording. */
  lemma TakeOpDoes(s: Svc, take: Option<Edit>, io: bool)
    ensures var out := CommitTakeOp(s, take, io);
            && (out.reply.Ok? <==> Taking(s) && (take.None? || Committable(s, take.value, io)))
            && (out.reply.Ok? && take.None? ==> out.svc == Ended(s))
            && (out.reply.Ok? && take.Some? ==>
                  var p := Prepare(SoundOf(s), Holds(s).markers, take.value).value;
                  Recorded(s, out.svc, Content(p.audio, p.markers)))
            && (out.reply.Err? ==> out.svc == if Taking(s) then Ended(s) else s)
  {
    hide Prepare, Recorded;
    if Taking(s) && take.Some? && Prepare(SoundOf(s), Holds(s).markers, take.value).Ok? {
      AppliedIsRecorded(s, take.value);
    }
  }
}
