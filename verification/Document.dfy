/**
 * One revision of the document and the edits that lead from one revision to the next
 * (crates/project/src/snapshot.rs, history.rs `prepare`). A piece table is represented by the
 * samples it stands for.
 */
module Document {
  import opened Wrappers
  import opened Audio
  import opened Racks

  /** `Other`: a kind this version does not know, kept as it is. */
  datatype MarkerKind = User | Dropout | Other(kind: string)

  /** A point (`len == 0`) or region marker. */
  datatype Marker = Marker(id: nat, pos: nat, len: nat, name: string, kind: MarkerKind)

  datatype Snapshot = Snapshot(rev: nat, audioRev: nat, audio: Samples, markers: seq<Marker>)

  /** What a revision holds, apart from the numbers it is stamped with. */
  datatype Content = Content(audio: Samples, markers: seq<Marker>)

  function ContentOf(s: Snapshot): Content {
    Content(s.audio, s.markers)
  }

  datatype MarkerMapping = Shift | Identity

  datatype EditOp = Replace(at: nat, removeLen: nat, insert: Samples, mapping: MarkerMapping) {
    predicate ChangesAudio() {
      removeLen > 0 || |insert| > 0
    }
  }

  datatype MarkerOp =
    | Add(marker: Marker)
    | Remove(id: nat)
    | Rename(id: nat, name: string)
    | Move(id: nat, pos: nat, len: nat)

  /** The rack a bake entry restores on undo (`before`) and re-applies on redo (`after`). */
  datatype BakeAttachment = BakeAttachment(before: Rack, after: Rack)

  datatype Edit = Edit(
    ops: seq<EditOp>,
    markerOps: seq<MarkerOp>,
    attachment: Option<BakeAttachment>)
  {
    predicate ChangesAudio() {
      exists i :: 0 <= i < |ops| && ops[i].ChangesAudio()
    }

    /** The earliest position over the edit's replace ops; `None` for a marker-only edit. */
    function FirstAt(): Option<nat> {
      FirstAtOf(ops)
    }
  }

  function FirstAtOf(ops: seq<EditOp>): Option<nat> {
    if ops == [] then None
    else
      match FirstAtOf(ops[1..])
      case None => Some(ops[0].at)
      case Some(m) => Some(if ops[0].at <= m then ops[0].at else m)
  }

  datatype EditError =
    | OutOfRange
    | NotLengthPreserving
    | NoSuchMarker
    | MarkerExists
    | MarkerOutOfBounds
    | ChangesNothing

  // --- Markers under a replace ------------------------------------------------------------------

  function MapStart(p: nat, a: nat, r: nat, n: nat): nat {
    if p < a then p
    else if r == 0 then p + n
    else if p < a + r then a
    else p - r + n
  }

  function MapEnd(e: nat, a: nat, r: nat, n: nat): nat {
    if e <= a then e
    else if r == 0 then e + n
    else if e <= a + r then a
    else e - r + n
  }

  function ShiftMarker(m: Marker, a: nat, r: nat, n: nat): Marker {
    var pos := MapStart(m.pos, a, r, n);
    var end := MapEnd(m.pos + m.len, a, r, n);
    m.(pos := pos, len := if m.len == 0 || end < pos then 0 else end - pos)
  }

  function InsertByPos(m: Marker, sorted: seq<Marker>): (r: seq<Marker>)
    ensures multiset(r) == multiset(sorted) + multiset{m}
    ensures |r| == |sorted| + 1
  {
    if sorted == [] || m.pos < sorted[0].pos then
      [m] + sorted
    else
      assert sorted == [sorted[0]] + sorted[1..];
      [sorted[0]] + InsertByPos(m, sorted[1..])
  }

  /** A stable sort by position: a later marker goes behind every marker at its position. */
  function SortMarkers(ms: seq<Marker>): (r: seq<Marker>)
    ensures multiset(r) == multiset(ms)
  {
    if ms == [] then []
    else
      assert ms == ms[..|ms| - 1] + [ms[|ms| - 1]];
      InsertByPos(ms[|ms| - 1], SortMarkers(ms[..|ms| - 1]))
  }

  function ShiftMarkers(ms: seq<Marker>, a: nat, r: nat, n: nat): seq<Marker> {
    SortMarkers(seq(|ms|, i requires 0 <= i < |ms| => ShiftMarker(ms[i], a, r, n)))
  }

  function IndexOf(ms: seq<Marker>, id: nat): (r: Option<nat>)
    ensures r.Some? ==> r.value < |ms| && ms[r.value].id == id
    ensures r.None? ==> forall m :: m in ms ==> m.id != id
  {
    if ms == [] then None
    else if ms[0].id == id then Some(0)
    else
      match IndexOf(ms[1..], id)
      case None => None
      case Some(i) => Some(i + 1)
  }

  // --- Preparing an edit ------------------------------------------------------------------------

  /** The audio and markers an edit has produced so far, and whether a sample changed. */
  datatype Work = Work(audio: Samples, markers: seq<Marker>, changed: bool)

  function ApplyOp(w: Work, op: EditOp): Result<Work, EditError> {
    if !op.ChangesAudio() then Ok(w)
    else
      var growsAtEnd := |op.insert| > op.removeLen && op.at + op.removeLen == |w.audio|;
      if op.mapping == Identity && |op.insert| != op.removeLen && !growsAtEnd then
        Err(NotLengthPreserving)
      else if op.at + op.removeLen > |w.audio| then
        Err(OutOfRange)
      else
        Ok(Work(
            Splice(w.audio, op.at, op.removeLen, op.insert),
            if op.mapping == Shift then ShiftMarkers(w.markers, op.at, op.removeLen, |op.insert|)
            else w.markers,
            true))
  }

  function ApplyOps(w: Work, ops: seq<EditOp>): Result<Work, EditError>
    decreases |ops|
  {
    if ops == [] then Ok(w)
    else
      match ApplyOp(w, ops[0])
      case Err(e) => Err(e)
      case Ok(next) => ApplyOps(next, ops[1..])
  }

  function ApplyMarkerOp(ms: seq<Marker>, docLen: nat, op: MarkerOp): Result<seq<Marker>, EditError> {
    match op
    case Add(m) =>
      if IndexOf(ms, m.id).Some? then Err(MarkerExists)
      else if m.pos + m.len > docLen then Err(MarkerOutOfBounds)
      else Ok(ms + [m])
    case Remove(id) =>
      (match IndexOf(ms, id)
       case None => Err(NoSuchMarker)
       case Some(i) => Ok(ms[..i] + ms[i + 1..]))
    case Rename(id, name) =>
      (match IndexOf(ms, id)
       case None => Err(NoSuchMarker)
       case Some(i) => Ok(ms[i := ms[i].(name := name)]))
    case Move(id, pos, len) =>
      (match IndexOf(ms, id)
       case None => Err(NoSuchMarker)
       case Some(i) =>
         if pos + len > docLen then Err(MarkerOutOfBounds)
         else Ok(ms[i := ms[i].(pos := pos, len := len)]))
  }

  function ApplyMarkerOps(ms: seq<Marker>, docLen: nat, ops: seq<MarkerOp>): Result<seq<Marker>, EditError>
    decreases |ops|
  {
    if ops == [] then Ok(ms)
    else
      match ApplyMarkerOp(ms, docLen, ops[0])
      case Err(e) => Err(e)
      case Ok(next) => ApplyMarkerOps(next, docLen, ops[1..])
  }

  /** What an edit does to a revision: audio ops in order, then marker ops, then the sort. */
  function Prepare(audio: Samples, markers: seq<Marker>, edit: Edit): Result<Work, EditError> {
    match ApplyOps(Work(audio, markers, false), edit.ops)
    case Err(e) => Err(e)
    case Ok(w) =>
      match ApplyMarkerOps(w.markers, |w.audio|, edit.markerOps)
      case Err(e) => Err(e)
      case Ok(ms) =>
        if !w.changed && edit.markerOps == [] then Err(ChangesNothing)
        else Ok(Work(w.audio, SortMarkers(ms), w.changed))
  }

  // --- Every prepared revision keeps its markers inside the document ----------------------------

  ghost predicate MarkersFit(ms: seq<Marker>, docLen: nat) {
    forall m :: m in ms ==> m.pos + m.len <= docLen
  }

  lemma SameElements(a: seq<Marker>, b: seq<Marker>)
    requires multiset(a) == multiset(b)
    ensures forall m :: m in a <==> m in b
  {
    forall m ensures m in a <==> m in b {
      assert m in a <==> m in multiset(a);
      assert m in b <==> m in multiset(b);
    }
  }

  lemma ShiftFits(ms: seq<Marker>, a: nat, r: nat, n: nat, docLen: nat)
    requires MarkersFit(ms, docLen) && a + r <= docLen
    ensures MarkersFit(ShiftMarkers(ms, a, r, n), docLen - r + n)
  {
    var shifted := seq(|ms|, i requires 0 <= i < |ms| => ShiftMarker(ms[i], a, r, n));
    forall m | m in shifted ensures m.pos + m.len <= docLen - r + n {
      var i :| 0 <= i < |ms| && m == ShiftMarker(ms[i], a, r, n);
      assert ms[i] in ms;
    }
    SameElements(shifted, ShiftMarkers(ms, a, r, n));
  }

  lemma {:induction false} OpsFit(w: Work, ops: seq<EditOp>)
    requires MarkersFit(w.markers, |w.audio|) && ApplyOps(w, ops).Ok?
    ensures MarkersFit(ApplyOps(w, ops).value.markers, |ApplyOps(w, ops).value.audio|)
    ensures !ApplyOps(w, ops).value.changed ==> ApplyOps(w, ops).value == w
    ensures w.changed ==> ApplyOps(w, ops).value.changed
    decreases |ops|
  {
    if ops != [] {
      var op := ops[0];
      var next := ApplyOp(w, op).value;
      if op.ChangesAudio() && op.mapping == Shift {
        ShiftFits(w.markers, op.at, op.removeLen, |op.insert|, |w.audio|);
      }
      OpsFit(next, ops[1..]);
    }
  }

  lemma {:induction false} MarkerOpsFit(ms: seq<Marker>, docLen: nat, ops: seq<MarkerOp>)
    requires MarkersFit(ms, docLen) && ApplyMarkerOps(ms, docLen, ops).Ok?
    ensures MarkersFit(ApplyMarkerOps(ms, docLen, ops).value, docLen)
    decreases |ops|
  {
    if ops != [] {
      MarkerOpsFit(ApplyMarkerOp(ms, docLen, ops[0]).value, docLen, ops[1..]);
    }
  }

  /**
   * Audio edits never delete a marker's place: after any accepted edit every marker still lies
   * inside the new document, and an edit reported as "no sample changed" left the audio alone.
   */
  lemma PreparedFits(audio: Samples, markers: seq<Marker>, edit: Edit)
    requires MarkersFit(markers, |audio|) && Prepare(audio, markers, edit).Ok?
    ensures MarkersFit(Prepare(audio, markers, edit).value.markers, |Prepare(audio, markers, edit).value.audio|)
    ensures !Prepare(audio, markers, edit).value.changed ==> Prepare(audio, markers, edit).value.audio == audio
  {
    var start := Work(audio, markers, false);
    OpsFit(start, edit.ops);
    var w := ApplyOps(start, edit.ops).value;
    MarkerOpsFit(w.markers, |w.audio|, edit.markerOps);
    var ms := ApplyMarkerOps(w.markers, |w.audio|, edit.markerOps).value;
    SameElements(SortMarkers(ms), ms);
  }

  lemma {:induction false} ChangedFlagMatches(w: Work, ops: seq<EditOp>)
    requires ApplyOps(w, ops).Ok?
    ensures ApplyOps(w, ops).value.changed ==
            (w.changed || exists i :: 0 <= i < |ops| && ops[i].ChangesAudio())
    decreases |ops|
  {
    if ops != [] {
      ChangedFlagMatches(ApplyOp(w, ops[0]).value, ops[1..]);
      if exists i :: 0 <= i < |ops| && ops[i].ChangesAudio() {
        var i :| 0 <= i < |ops| && ops[i].ChangesAudio();
        assert i > 0 ==> ops[1..][i - 1].ChangesAudio();
      }
      if exists i :: 0 <= i < |ops[1..]| && ops[1..][i].ChangesAudio() {
        var i :| 0 <= i < |ops[1..]| && ops[1..][i].ChangesAudio();
        assert ops[i + 1].ChangesAudio();
      }
    }
  }

  /** An edit of one audio op that fits is that splice, and nothing else. */
  lemma SingleReplace(audio: Samples, markers: seq<Marker>, op: EditOp, att: Option<BakeAttachment>)
    requires op.at + op.removeLen <= |audio| && op.ChangesAudio()
    requires op.mapping == Shift || |op.insert| == op.removeLen
    ensures var p := Prepare(audio, markers, Edit([op], [], att));
            p.Ok? && p.value.changed && p.value.audio == Splice(audio, op.at, op.removeLen, op.insert)
  {
    var w := Work(audio, markers, false);
    assert [op][1..] == [];
    assert ApplyOps(w, [op]) == ApplyOps(ApplyOp(w, op).value, []);
  }
}
