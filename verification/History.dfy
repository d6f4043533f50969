/**
 * Undo and redo over stacks of revisions (crates/project/src/history.rs). Every commit, undo and
 * redo stamps a fresh `rev`, and a fresh `audioRev` when samples change, so an undone document has
 * its old content under new numbers. The edit number (`seq` in the source) is what returns.
 */
module Histories {
  import opened Wrappers
  import opened Audio
  import opened Document

  /** On the undo stack: the revision before the edit. On the redo stack: the one after it. */
  datatype Entry = Entry(
    snapshot: Snapshot,
    number: nat,
    audio: bool,
    firstAt: Option<nat>,
    attachment: Option<BakeAttachment>)

  datatype History = History(
    current: Snapshot,
    undo: seq<Entry>,
    redo: seq<Entry>,
    nextRev: nat,
    nextAudioRev: nat,
    nextNumber: nat,
    savedNumber: nat)
  {
    /** The number of the edit that produced the current state; 0 at the undo floor. */
    function CurrentNumber(): nat {
      if undo == [] then 0 else undo[|undo| - 1].number
    }

    predicate IsDirty() {
      CurrentNumber() != savedNumber
    }
  }

  /** What a commit, undo or redo reports to its caller. */
  datatype Step = Step(history: History, entry: Entry)

  function New(floor: Content): History {
    History(Snapshot(1, 1, floor.audio, floor.markers), [], [], 2, 2, 1, 0)
  }

  function Apply(h: History, edit: Edit): Result<Step, EditError> {
    match Prepare(h.current.audio, h.current.markers, edit)
    case Err(e) => Err(e)
    case Ok(w) =>
      var next := Snapshot(h.nextRev, if w.changed then h.nextAudioRev else h.current.audioRev, w.audio, w.markers);
      var entry := Entry(h.current, h.nextNumber, w.changed, edit.FirstAt(), edit.attachment);
      Ok(Step(
          h.(current := next,
             undo := h.undo + [entry],
             redo := [],
             nextRev := h.nextRev + 1,
             nextAudioRev := if w.changed then h.nextAudioRev + 1 else h.nextAudioRev,
             nextNumber := h.nextNumber + 1),
          entry))
  }

  /** `target` under a fresh `rev`, and a fresh `audioRev` only if samples change. */
  function Restamped(h: History, target: Snapshot, audio: bool): Snapshot {
    target.(rev := h.nextRev, audioRev := if audio then h.nextAudioRev else h.current.audioRev)
  }

  function Undo(h: History): Option<Step> {
    if h.undo == [] then None
    else
      var entry := h.undo[|h.undo| - 1];
      Some(Step(
          h.(current := Restamped(h, entry.snapshot, entry.audio),
             undo := h.undo[..|h.undo| - 1],
             redo := h.redo + [entry.(snapshot := h.current)],
             nextRev := h.nextRev + 1,
             nextAudioRev := if entry.audio then h.nextAudioRev + 1 else h.nextAudioRev),
          entry))
  }

  function Redo(h: History): Option<Step> {
    if h.redo == [] then None
    else
      var entry := h.redo[|h.redo| - 1];
      Some(Step(
          h.(current := Restamped(h, entry.snapshot, entry.audio),
             redo := h.redo[..|h.redo| - 1],
             undo := h.undo + [entry.(snapshot := h.current)],
             nextRev := h.nextRev + 1,
             nextAudioRev := if entry.audio then h.nextAudioRev + 1 else h.nextAudioRev),
          entry))
  }

  function MarkSavedAt(h: History, number: nat): History {
    h.(savedNumber := number)
  }

  /** Forgets the `count` oldest undo entries; the oldest one left becomes the floor. */
  function DropOldest(h: History, count: nat): History {
    var n := if count <= |h.undo| then count else |h.undo|;
    h.(undo := h.undo[n..])
  }

  // --- Undo and redo are inverse on what a document holds --------------------------------------

  datatype Layer = Layer(content: Content, number: nat, audio: bool, firstAt: Option<nat>, attachment: Option<BakeAttachment>)

  /** A history without its revision stamps. */
  datatype Shape = Shape(undo: seq<Layer>, current: Content, redo: seq<Layer>)

  function Layers(entries: seq<Entry>): seq<Layer> {
    seq(|entries|, i requires 0 <= i < |entries| =>
      Layer(ContentOf(entries[i].snapshot), entries[i].number, entries[i].audio, entries[i].firstAt, entries[i].attachment))
  }

  function ShapeOf(h: History): Shape {
    Shape(Layers(h.undo), ContentOf(h.current), Layers(h.redo))
  }

  function UndoTimes(h: History, n: nat): (r: History)
    requires n <= |h.undo|
    ensures |r.undo| == |h.undo| - n && |r.redo| == |h.redo| + n
    decreases n
  {
    if n == 0 then h else UndoTimes(Undo(h).value.history, n - 1)
  }

  function RedoTimes(h: History, n: nat): (r: History)
    requires n <= |h.redo|
    ensures |r.redo| == |h.redo| - n && |r.undo| == |h.undo| + n
    decreases n
  {
    if n == 0 then h else RedoTimes(Redo(h).value.history, n - 1)
  }

  lemma RedoDependsOnShape(a: History, b: History)
    requires ShapeOf(a) == ShapeOf(b) && a.redo != []
    ensures b.redo != [] && ShapeOf(Redo(a).value.history) == ShapeOf(Redo(b).value.history)
  {
    assert |Layers(a.redo)| == |Layers(b.redo)|;
    assert Layers(a.redo)[|a.redo| - 1] == Layers(b.redo)[|b.redo| - 1];
    var ra, rb := Redo(a).value.history, Redo(b).value.history;
    assert Layers(ra.redo) == Layers(a.redo)[..|a.redo| - 1];
    assert Layers(rb.redo) == Layers(b.redo)[..|b.redo| - 1];
    assert Layers(ra.undo) == Layers(a.undo) + [Layers(ra.undo)[|a.undo|]];
    assert Layers(rb.undo) == Layers(b.undo) + [Layers(rb.undo)[|b.undo|]];
  }

  lemma {:induction false} RedoTimesDependsOnShape(a: History, b: History, n: nat)
    requires ShapeOf(a) == ShapeOf(b) && n <= |a.redo|
    ensures |a.redo| == |b.redo| && ShapeOf(RedoTimes(a, n)) == ShapeOf(RedoTimes(b, n))
    decreases n
  {
    assert |Layers(a.redo)| == |Layers(b.redo)|;
    if n > 0 {
      RedoDependsOnShape(a, b);
      RedoTimesDependsOnShape(Redo(a).value.history, Redo(b).value.history, n - 1);
    }
  }

  lemma RedoUndoesUndo(h: History)
    requires h.undo != []
    ensures ShapeOf(Redo(Undo(h).value.history).value.history) == ShapeOf(h)
  {
    var u := Undo(h).value.history;
    var r := Redo(u).value.history;
    assert Layers(r.undo) == Layers(h.undo);
    assert Layers(r.redo) == Layers(h.redo);
  }

  lemma {:induction false} RedoTimesLast(h: History, n: nat)
    requires n + 1 <= |h.redo|
    ensures RedoTimes(h, n + 1) == Redo(RedoTimes(h, n)).value.history
    decreases n
  {
    if n > 0 {
      RedoTimesLast(Redo(h).value.history, n - 1);
    }
  }

  /**
   * n undos reach the state under the n-th newest entry, and n redos from there come back to the
   * whole history, stacks included, whatever else the stacks hold.
   */
  lemma {:induction false} UndosThenRedos(h: History, n: nat)
    requires n <= |h.undo|
    ensures ContentOf(UndoTimes(h, n).current) ==
            (if n == 0 then ContentOf(h.current) else ContentOf(h.undo[|h.undo| - n].snapshot))
    ensures ShapeOf(RedoTimes(UndoTimes(h, n), n)) == ShapeOf(h)
    decreases n
  {
    hide Layers, ShapeOf;
    if n > 0 {
      var u := Undo(h).value.history;
      UndosThenRedos(u, n - 1);
      var low := UndoTimes(h, n);
      RedoTimesLast(low, n - 1);
      RedoDependsOnShape(RedoTimes(low, n - 1), u);
      RedoUndoesUndo(h);
    }
  }

  /** A run of accepted edits. */
  function ApplyAll(h: History, edits: seq<Edit>): Option<History>
    decreases |edits|
  {
    if edits == [] then Some(h)
    else
      match Apply(h, edits[0])
      case Err(_) => None
      case Ok(s) => ApplyAll(s.history, edits[1..])
  }

  lemma {:induction false} ApplyAllStacks(h: History, edits: seq<Edit>)
    requires ApplyAll(h, edits).Some?
    ensures var r := ApplyAll(h, edits).value;
            |r.undo| == |h.undo| + |edits| && r.undo[..|h.undo|] == h.undo &&
            (edits != [] ==> r.undo[|h.undo|].snapshot == h.current) &&
            (edits == [] ==> r.current == h.current)
    decreases |edits|
  {
    if edits != [] {
      var s := Apply(h, edits[0]).value.history;
      ApplyAllStacks(s, edits[1..]);
      var r := ApplyAll(h, edits).value;
      assert r.undo[..|s.undo|] == s.undo;
      assert r.undo[|h.undo|] == r.undo[..|s.undo|][|h.undo|];
      assert r.undo[..|h.undo|] == r.undo[..|s.undo|][..|h.undo|];
    }
  }

  /** After any run of n edits, n undos restore the start and n redos restore the end. */
  lemma EditsUndoRedo(h: History, edits: seq<Edit>)
    requires ApplyAll(h, edits).Some?
    ensures var n, end := |edits|, ApplyAll(h, edits).value;
            n <= |end.undo| &&
            ContentOf(UndoTimes(end, n).current) == ContentOf(h.current) &&
            Layers(UndoTimes(end, n).undo) == Layers(h.undo) &&
            ShapeOf(RedoTimes(UndoTimes(end, n), n)) == ShapeOf(end)
  {
    hide Layers, ShapeOf, Undo, Redo, Apply;
    var end := ApplyAll(h, edits).value;
    ApplyAllStacks(h, edits);
    UndosThenRedos(end, |edits|);
    UndoTimesTrims(end, |edits|);
  }

  lemma {:induction false} UndoTimesTrims(h: History, n: nat)
    requires n <= |h.undo|
    ensures UndoTimes(h, n).undo == h.undo[..|h.undo| - n]
    decreases n
  {
    if n > 0 {
      UndoTimesTrims(Undo(h).value.history, n - 1);
    }
  }
}
