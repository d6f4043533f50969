/**
 * The edits behind cut, paste, delete, trim, silence and the jobs, and where they leave the
 * selection and playhead (crates/project/src/edit.rs). Pure, as in the source.
 */
module EditOps {
  import opened Wrappers
  import opened Audio
  import opened Racks
  import opened Document

  datatype Range = Range(start: nat, end: nat)

  datatype RangeError = Empty | OutOfBounds

  function ValidateRange(start: nat, end: nat, len: nat): Result<Range, RangeError> {
    if start >= end then Err(Empty)
    else if end > len then Err(OutOfBounds)
    else Ok(Range(start, end))
  }

  datatype Target = Cursor(at: nat) | Over(range: Range) {
    function Start(): nat {
      match this
      case Cursor(c) => c
      case Over(r) => r.start
    }
  }

  datatype PostEdit = PostEdit(selection: Option<(nat, nat)>, playhead: nat)

  function ReplaceEdit(at: nat, removeLen: nat, insert: Samples, mapping: MarkerMapping): Edit {
    Edit([Replace(at, removeLen, insert, mapping)], [], None)
  }

  function Slice(audio: Samples, r: Range): Samples
    requires r.start <= r.end <= |audio|
  {
    audio[r.start..r.end]
  }

  function DeleteEdit(r: Range): Edit
    requires r.start <= r.end
  {
    ReplaceEdit(r.start, r.end - r.start, [], Shift)
  }

  /** Trim keeps the range; trimming to the whole document is no edit at all. */
  function TrimEdit(r: Range, len: nat): Option<Edit>
    requires r.start <= r.end <= len
  {
    if r.start == 0 && r.end == len then None
    else Some(Edit([Replace(r.end, len - r.end, [], Shift), Replace(0, r.start, [], Shift)], [], None))
  }

  function SilenceEdit(r: Range): Edit
    requires r.start <= r.end
  {
    ReplaceEdit(r.start, r.end - r.start, Silence(r.end - r.start), Identity)
  }

  function PasteEdit(clip: Samples, target: Target): Edit
    requires target.Over? ==> target.range.start <= target.range.end
  {
    match target
    case Cursor(c) => ReplaceEdit(c, 0, clip, Shift)
    case Over(r) => ReplaceEdit(r.start, r.end - r.start, clip, Shift)
  }

  /** Inserting silence never removes anything, so a range's end is ignored. */
  function InsertSilenceEdit(target: Target, n: nat): Edit {
    ReplaceEdit(target.Start(), 0, Silence(n), Shift)
  }

  /** A gain or a bake puts as many samples back as the range holds; markers stay. */
  function ReplaceRangeEdit(r: Range, samples: Samples, attachment: Option<BakeAttachment>): Edit
    requires r.start <= r.end
  {
    Edit([Replace(r.start, r.end - r.start, samples, Identity)], [], attachment)
  }

  const INSERT_SILENCE_MAX_SECONDS: nat := 3600

  predicate InsertSilenceLenOk(n: nat, rateHz: nat) {
    0 < n <= INSERT_SILENCE_MAX_SECONDS * rateHz
  }

  function PostCutOrDelete(r: Range): PostEdit {
    PostEdit(None, r.start)
  }

  function PostPaste(target: Target, inserted: nat): PostEdit {
    PostEdit(Some((target.Start(), target.Start() + inserted)), target.Start())
  }

  function PostTrim(): PostEdit {
    PostEdit(None, 0)
  }

  /** Silence, normalize and bake leave the range selected. */
  function PostKeepRange(r: Range): PostEdit {
    PostEdit(Some((r.start, r.end)), r.start)
  }

  function PostUndoRedo(firstAt: Option<nat>, len: nat): PostEdit {
    var at := match firstAt case None => 0 case Some(a) => a;
    PostEdit(None, if at <= len then at else len)
  }

  /** The selection and the playhead lie inside a document of `len` samples. */
  predicate PostFits(p: PostEdit, len: nat) {
    && p.playhead <= len
    && (p.selection.Some? ==> p.selection.value.0 <= p.selection.value.1 <= len)
  }

  // --- The algebra of the edits -----------------------------------------------------------------

  lemma TrimKeepsRange(audio: Samples, markers: seq<Marker>, r: Range)
    requires r.start < r.end <= |audio| && TrimEdit(r, |audio|).Some?
    ensures var p := Prepare(audio, markers, TrimEdit(r, |audio|).value);
            p.Ok? && p.value.changed && p.value.audio == audio[r.start..r.end]
  {
    var ops := TrimEdit(r, |audio|).value.ops;
    var w0 := Work(audio, markers, false);
    var w1 := ApplyOp(w0, ops[0]).value;
    assert w1.audio == audio[..r.end];
    var w2 := ApplyOp(w1, ops[1]).value;
    assert w2.audio == audio[r.start..r.end];
    assert ops[1..] == [ops[1]] && [ops[1]][1..] == [];
    assert ApplyOps(w1, [ops[1]]) == ApplyOps(w2, []);
    assert ApplyOps(w0, ops) == ApplyOps(w1, ops[1..]);
  }

  /** Cutting a range and pasting it back at the cut restores the samples. */
  lemma CutPasteRestores(audio: Samples, markers: seq<Marker>, r: Range)
    requires r.start < r.end <= |audio|
    ensures var cut := Prepare(audio, markers, DeleteEdit(r));
            cut.Ok? && |cut.value.audio| == |audio| - (r.end - r.start) &&
            PostFits(PostCutOrDelete(r), |cut.value.audio|) &&
            var back := Prepare(cut.value.audio, cut.value.markers, PasteEdit(Slice(audio, r), Cursor(r.start)));
            back.Ok? && back.value.audio == audio &&
            PostFits(PostPaste(Cursor(r.start), r.end - r.start), |back.value.audio|)
  {
    hide Prepare;
    SingleReplace(audio, markers, Replace(r.start, r.end - r.start, [], Shift), None);
    var cut := Prepare(audio, markers, DeleteEdit(r)).value;
    SingleReplace(cut.audio, cut.markers, Replace(r.start, 0, Slice(audio, r), Shift), None);
    SpliceRestores(audio, r.start, r.end - r.start);
  }
}
