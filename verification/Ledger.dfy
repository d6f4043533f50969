/**
 * What the numbers on a revision mean. A ledger remembers, for one session, the content each edit
 * number produced, the audio each audio revision named and the snapshot each `rev` was stamped on.
 * A history agrees with its ledger in every reachable state, so equal numbers mean equal content.
 */
module Ledgers {
  import opened Wrappers
  import opened Audio
  import opened Document
  import opened EditOps
  import opened Markers
  import opened Histories

  datatype Ledger = Ledger(made: map<nat, Content>, audioOf: map<nat, Samples>, snaps: map<nat, Snapshot>)

  /** The ledger with the current state of `h` written down. */
  function Record(l: Ledger, h: History): Ledger {
    Ledger(
      l.made[h.CurrentNumber() := ContentOf(h.current)],
      l.audioOf[h.current.audioRev := h.current.audio],
      l.snaps[h.current.rev := h.current])
  }

  const Blank := Ledger(map[], map[], map[])

  /** The ledger after the undo floor moved: number 0 now names the new floor. */
  function RecordFloor(l: Ledger, h: History): Ledger {
    l.(made := l.made[0 := ContentOf(Below(h, 0))])
  }

  /** The state under undo entry `i`; `i == |h.undo|` is the current one. */
  function Below(h: History, i: nat): Snapshot
    requires i <= |h.undo|
  {
    if i == |h.undo| then h.current else h.undo[i].snapshot
  }

  function NumberBelow(h: History, i: nat): nat
    requires i <= |h.undo|
  {
    if i == 0 then 0 else h.undo[i - 1].number
  }

  /** The state redo entry `i` leads to; `i == |h.redo|` is the current one. */
  function Above(h: History, i: nat): Snapshot
    requires i <= |h.redo|
  {
    if i == |h.redo| then h.current else h.redo[i].snapshot
  }

  ghost predicate Known(s: Snapshot, l: Ledger) {
    && s.rev in l.snaps && l.snaps[s.rev] == s
    && s.audioRev in l.audioOf && l.audioOf[s.audioRev] == s.audio
    && Placed(s.markers, |s.audio|)
  }

  ghost predicate Named(number: nat, s: Snapshot, l: Ledger) {
    number in l.made && l.made[number] == ContentOf(s)
  }

  ghost predicate Bounded(h: History, l: Ledger) {
    && 0 < h.nextAudioRev
    && 0 < h.nextNumber
    && (forall n :: n in l.made ==> n < h.nextNumber)
    && (forall n :: n in l.audioOf ==> 0 < n < h.nextAudioRev)
    && (forall n :: n in l.snaps ==> n < h.nextRev)
  }

  /** Every state on the stacks is what the ledger says its numbers name. */
  ghost predicate Agrees(h: History, l: Ledger) {
    && Bounded(h, l)
    && h.savedNumber in l.made
    && (forall i :: 0 <= i <= |h.undo| ==> Known(Below(h, i), l) && Named(NumberBelow(h, i), Below(h, i), l))
    && (forall i :: 0 <= i < |h.redo| ==> Known(Above(h, i), l) && Named(h.redo[i].number, Above(h, i), l))
    && (forall i :: 0 <= i < |h.undo| ==>
          0 < h.undo[i].number && (!h.undo[i].audio ==> Below(h, i).audio == Below(h, i + 1).audio))
    && (forall i :: 0 <= i < |h.redo| ==>
          0 < h.redo[i].number && (!h.redo[i].audio ==> Above(h, i).audio == Above(h, i + 1).audio))
  }

  /** No entry of the ledger changes meaning. */
  ghost predicate Extends(l: Ledger, m: Ledger) {
    && (forall n :: n in l.made ==> n in m.made && m.made[n] == l.made[n])
    && (forall n :: n in l.audioOf ==> n in m.audioOf && m.audioOf[n] == l.audioOf[n])
    && (forall n :: n in l.snaps ==> n in m.snaps && m.snaps[n] == l.snaps[n])
  }

  lemma NewAgrees(floor: Content)
    requires Placed(floor.markers, |floor.audio|)
    ensures Agrees(New(floor), Record(Blank, New(floor)))
  {}

  lemma KnownExtends(s: Snapshot, number: nat, l: Ledger, m: Ledger)
    requires Extends(l, m)
    ensures (Known(s, l) ==> Known(s, m)) && (Named(number, s, l) ==> Named(number, s, m))
  {}

  /**
   * One commit, undo or redo gave the current state of `k` fresh stamps, or repeated the audio of the
   * state before: then writing it down changes no older entry.
   */
  lemma RecordExtends(h: History, k: History, l: Ledger)
    requires Agrees(h, l) && k.savedNumber == h.savedNumber
    requires k.current.rev == h.nextRev && k.nextRev == h.nextRev + 1
    requires (k.current.audioRev == h.nextAudioRev && k.nextAudioRev == h.nextAudioRev + 1) ||
             (k.current.audioRev == h.current.audioRev && k.nextAudioRev == h.nextAudioRev && k.current.audio == h.current.audio)
    requires (k.CurrentNumber() == h.nextNumber && k.nextNumber == h.nextNumber + 1) ||
             (Named(k.CurrentNumber(), k.current, l) && k.nextNumber == h.nextNumber)
    requires Placed(k.current.markers, |k.current.audio|)
    ensures var m := Record(l, k);
            && Extends(l, m) && Bounded(k, m) && k.savedNumber in m.made
            && Known(k.current, m) && Named(k.CurrentNumber(), k.current, m)
  {
    hide Placed;
    assert Known(Below(h, |h.undo|), l);
  }

  /** What `Agrees` says about the entries of the two stacks. */
  ghost predicate UndoAgree(h: History, l: Ledger) {
    && (forall i :: 0 <= i <= |h.undo| ==> Known(Below(h, i), l) && Named(NumberBelow(h, i), Below(h, i), l))
    && (forall i :: 0 <= i < |h.undo| ==>
          0 < h.undo[i].number && (!h.undo[i].audio ==> Below(h, i).audio == Below(h, i + 1).audio))
  }

  ghost predicate RedoAgree(h: History, l: Ledger) {
    && (forall i :: 0 <= i < |h.redo| ==> Known(Above(h, i), l) && Named(h.redo[i].number, Above(h, i), l))
    && (forall i :: 0 <= i < |h.redo| ==>
          0 < h.redo[i].number && (!h.redo[i].audio ==> Above(h, i).audio == Above(h, i + 1).audio))
  }

  lemma AgreesParts(h: History, l: Ledger)
    ensures Agrees(h, l) <==> Bounded(h, l) && h.savedNumber in l.made && UndoAgree(h, l) && RedoAgree(h, l)
  {}

  /** The undo stack of `k` is that of `h` up to `n`, with the same audio where the two meet. */
  lemma UndoKept(h: History, k: History, l: Ledger, m: Ledger, n: nat)
    requires UndoAgree(h, l) && Extends(l, m) && n <= |h.undo| && n <= |k.undo| <= n + 1
    requires k.undo[..n] == h.undo[..n]
    requires Below(k, n).audio == Below(h, n).audio && (|k.undo| == n + 1 ==> Below(k, n) == h.current)
    requires Known(k.current, m) && Named(k.CurrentNumber(), k.current, m)
    requires |k.undo| == n + 1 ==>
               n == |h.undo| && 0 < k.undo[n].number && (!k.undo[n].audio ==> h.current.audio == k.current.audio)
    ensures UndoAgree(k, m)
  {
    hide Known, Named, Extends;
    forall i | 0 <= i <= |k.undo|
      ensures Known(Below(k, i), m) && Named(NumberBelow(k, i), Below(k, i), m)
    {
      if i < |k.undo| {
        assert i < n ==> k.undo[i] == k.undo[..n][i] == h.undo[i];
        assert i > 0 ==> k.undo[i - 1] == k.undo[..n][i - 1] == h.undo[i - 1];
        assert Below(k, i) == Below(h, i) && NumberBelow(k, i) == NumberBelow(h, i);
        KnownExtends(Below(h, i), NumberBelow(h, i), l, m);
      }
    }
    forall i | 0 <= i < |k.undo|
      ensures 0 < k.undo[i].number && (!k.undo[i].audio ==> Below(k, i).audio == Below(k, i + 1).audio)
    {
      if i < n {
        assert k.undo[i] == k.undo[..n][i] == h.undo[i];
        assert i + 1 < n ==> k.undo[i + 1] == k.undo[..n][i + 1] == h.undo[i + 1];
        assert Below(k, i).audio == Below(h, i).audio && Below(k, i + 1).audio == Below(h, i + 1).audio;
      }
    }
  }

  /** The same for the redo stack. */
  lemma RedoKept(h: History, k: History, l: Ledger, m: Ledger, n: nat)
    requires RedoAgree(h, l) && Extends(l, m) && n <= |h.redo| && n <= |k.redo| <= n + 1
    requires k.redo[..n] == h.redo[..n] && Above(k, n).audio == Above(h, n).audio
    requires |k.redo| == n + 1 ==>
               n == |h.redo| && Known(Above(k, n), m) && Named(k.redo[n].number, Above(k, n), m) &&
               0 < k.redo[n].number && (!k.redo[n].audio ==> Above(k, n).audio == k.current.audio)
    ensures RedoAgree(k, m)
  {
    hide Known, Named, Extends;
    forall i | 0 <= i < |k.redo|
      ensures Known(Above(k, i), m) && Named(k.redo[i].number, Above(k, i), m)
      ensures 0 < k.redo[i].number && (!k.redo[i].audio ==> Above(k, i).audio == Above(k, i + 1).audio)
    {
      if i < n {
        assert k.redo[i] == k.redo[..n][i] == h.redo[i];
        assert i + 1 < n ==> k.redo[i + 1] == k.redo[..n][i + 1] == h.redo[i + 1];
        assert Above(k, i) == Above(h, i) && Above(k, i + 1).audio == Above(h, i + 1).audio;
        KnownExtends(Above(h, i), h.redo[i].number, l, m);
      }
    }
  }

  lemma ApplyAgrees(h: History, l: Ledger, edit: Edit)
    requires Agrees(h, l) && Apply(h, edit).Ok?
    ensures var after := Apply(h, edit).value.history;
            Agrees(after, Record(l, after)) && Extends(l, Record(l, after))
  {
    AgreesParts(h, l);
    assert Known(Below(h, |h.undo|), l);
    PreparedFits(h.current.audio, h.current.markers, edit);
    PreparedSorted(h.current.audio, h.current.markers, edit);
    var k := Apply(h, edit).value.history;
    hide Known, Named, Extends, Prepare, Placed, UndoAgree, RedoAgree, Agrees, Bounded;
    RecordExtends(h, k, l);
    UndoKept(h, k, l, Record(l, k), |h.undo|);
    NothingToRedo(k, Record(l, k));
    AgreesParts(k, Record(l, k));
  }

  lemma NothingToRedo(k: History, m: Ledger)
    requires k.redo == []
    ensures RedoAgree(k, m)
  {}

  lemma UndoAgrees(h: History, l: Ledger)
    requires Agrees(h, l) && Undo(h).Some?
    ensures var after := Undo(h).value.history;
            Agrees(after, Record(l, after)) && Extends(l, Record(l, after))
  {
    var k, n := Undo(h).value.history, |h.undo|;
    var m := Record(l, k);
    AgreesParts(h, l);
    assert Known(Below(h, n), l) && Known(Below(h, n - 1), l);
    assert Named(NumberBelow(h, n - 1), Below(h, n - 1), l) && Named(NumberBelow(h, n), Below(h, n), l);
    assert k.CurrentNumber() == NumberBelow(h, n - 1);
    hide Known, Extends, Placed, UndoAgree, RedoAgree, Agrees, Bounded;
    RecordExtends(h, k, l);
    KnownExtends(Below(h, n), NumberBelow(h, n), l, m);
    UndoKept(h, k, l, m, n - 1);
    RedoKept(h, k, l, m, |h.redo|);
    AgreesParts(k, m);
  }

  lemma RedoAgrees(h: History, l: Ledger)
    requires Agrees(h, l) && Redo(h).Some?
    ensures var after := Redo(h).value.history;
            Agrees(after, Record(l, after)) && Extends(l, Record(l, after))
  {
    var k, n := Redo(h).value.history, |h.redo|;
    var m := Record(l, k);
    AgreesParts(h, l);
    assert Known(Above(h, n - 1), l) && Named(h.redo[n - 1].number, Above(h, n - 1), l);
    assert Known(Below(h, |h.undo|), l);
    assert !h.redo[n - 1].audio ==> Above(h, n - 1).audio == Above(h, n).audio;
    assert k.CurrentNumber() == h.redo[n - 1].number;
    hide Known, Extends, Placed, UndoAgree, RedoAgree, Agrees, Bounded;
    RecordExtends(h, k, l);
    UndoKept(h, k, l, m, |h.undo|);
    RedoKept(h, k, l, m, n - 1);
    AgreesParts(k, m);
  }

  /** Recording a captured number as saved moves nothing else in the history. */
  lemma SavedAgrees(h: History, k: History, l: Ledger)
    requires Agrees(h, l) && k == MarkSavedAt(h, k.savedNumber) && k.savedNumber in l.made
    ensures Agrees(k, l)
  {
    hide Known, Named;
    assert forall i :: 0 <= i <= |h.undo| ==> Below(k, i) == Below(h, i) && NumberBelow(k, i) == NumberBelow(h, i);
    assert forall i :: 0 <= i <= |h.redo| ==> Above(k, i) == Above(h, i);
  }

  lemma DropAgrees(h: History, l: Ledger, count: nat)
    requires Agrees(h, l)
    ensures var after := DropOldest(h, count);
            Agrees(after, RecordFloor(l, after))
  {
    var after := DropOldest(h, count);
    var n := if count <= |h.undo| then count else |h.undo|;
    var m := RecordFloor(l, after);
    forall i | 0 <= i <= |after.undo|
      ensures Known(Below(after, i), m) && Named(NumberBelow(after, i), Below(after, i), m)
    {
      assert Below(after, i) == Below(h, i + n);
      assert i > 0 ==> NumberBelow(after, i) == NumberBelow(h, i + n);
      assert i > 0 ==> 0 < after.undo[i - 1].number;
    }
    forall i | 0 <= i < |after.undo|
      ensures 0 < after.undo[i].number && (!after.undo[i].audio ==> Below(after, i).audio == Below(after, i + 1).audio)
    {
      assert after.undo[i] == h.undo[i + n];
      assert Below(after, i) == Below(h, i + n) && Below(after, i + 1) == Below(h, i + n + 1);
    }
    forall i | 0 <= i < |after.redo|
      ensures Known(Above(after, i), m) && Named(after.redo[i].number, Above(after, i), m)
    {
      assert Above(after, i) == Above(h, i);
    }
    forall i | 0 <= i < |after.redo|
      ensures 0 < after.redo[i].number && (!after.redo[i].audio ==> Above(after, i).audio == Above(after, i + 1).audio)
    {
      assert Above(after, i) == Above(h, i) && Above(after, i + 1) == Above(h, i + 1);
    }
  }

  /**
   * The dirty flag tells the truth: a document whose current edit number is the saved one holds
   * exactly the content that number was given, however many undos, redos and edits lie between.
   */
  lemma CleanMeansSavedContent(h: History, l: Ledger)
    requires Agrees(h, l) && !h.IsDirty()
    ensures ContentOf(h.current) == l.made[h.savedNumber]
  {
    assert Named(NumberBelow(h, |h.undo|), Below(h, |h.undo|), l);
  }
}
