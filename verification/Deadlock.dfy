/**
 * The locks of the document service (src-tauri/src/document.rs) and the order its methods take them
 * in. Here one step is one lock operation. Every method takes locks in strictly rising rank, so any
 * number of threads, each running any methods along any paths, always has one that can go on.
 */
module Locks {
  datatype Lock =
    | SaveRunning | PasteBusy | NormalizeBusy | Open | Clipboard | SessionDirs | Notices | Engine
    | BakeRunning | ImportJobs | ImportLive | SaveJobs | PasteJobs

  /** The last six are taken with nothing inside: an engine round trip never calls back. */
  function Rank(l: Lock): nat {
    match l
    case SaveRunning => 0
    case PasteBusy => 0
    case NormalizeBusy => 1
    case Open => 2
    case Clipboard => 3
    case SessionDirs => 3
    case Notices => 4
    case _ => 5
  }

  /**
   * What a method does with locks. `Held` is a guard's scope; `Either` is a branch, so an early
   * return is `Either(Free, rest)`.
   */
  datatype Code =
    | Free
    | Held(lock: Lock, body: Code)
    | Then(first: Code, second: Code)
    | Either(left: Code, right: Code)

  datatype Op = Acquire(lock: Lock) | Release(lock: Lock)

  /** `ops` is what one execution of `code` does, in order. */
  ghost predicate IsPath(code: Code, ops: seq<Op>)
    decreases code
  {
    match code
    case Free => ops == []
    case Held(l, body) =>
      |ops| >= 2 && ops[0] == Acquire(l) && ops[|ops| - 1] == Release(l) && IsPath(body, ops[1..|ops| - 1])
    case Then(a, b) => exists i :: 0 <= i <= |ops| && IsPath(a, ops[..i]) && IsPath(b, ops[i..])
    case Either(a, b) => IsPath(a, ops) || IsPath(b, ops)
  }

  /** The lowest lock taken with nothing of `code` around it; 6 if there is none. */
  function Lowest(code: Code): nat {
    match code
    case Free => 6
    case Held(l, _) => Rank(l)
    case Then(a, b) => if Lowest(a) <= Lowest(b) then Lowest(a) else Lowest(b)
    case Either(a, b) => if Lowest(a) <= Lowest(b) then Lowest(a) else Lowest(b)
  }

  /** Every guard is taken below whatever is taken inside it. */
  predicate Ordered(code: Code) {
    match code
    case Free => true
    case Held(l, body) => Rank(l) < Lowest(body) && Ordered(body)
    case Then(a, b) => Ordered(a) && Ordered(b)
    case Either(a, b) => Ordered(a) && Ordered(b)
  }

  /** A guard of `l` around `body`. */
  function Under(l: Lock, body: Code): (r: Code)
    ensures Lowest(r) == Rank(l)
    ensures Ordered(body) && Rank(l) < Lowest(body) ==> Ordered(r)
  {
    Held(l, body)
  }

  function Touch(l: Lock): (r: Code)
    ensures Lowest(r) == Rank(l) && Ordered(r)
  {
    Held(l, Free)
  }

  /** On some paths only: a branch, or what follows an early return. */
  function Maybe(code: Code): (r: Code)
    ensures Lowest(r) == if Lowest(code) <= 6 then Lowest(code) else 6
    ensures Ordered(code) ==> Ordered(r)
  {
    Either(Free, code)
  }

  function OneOf(a: Code, b: Code): (r: Code)
    ensures Lowest(r) == if Lowest(a) <= Lowest(b) then Lowest(a) else Lowest(b)
    ensures Ordered(a) && Ordered(b) ==> Ordered(r)
  {
    Either(a, b)
  }

  function Both(a: Code, b: Code): (r: Code)
    ensures Lowest(r) == if Lowest(a) <= Lowest(b) then Lowest(a) else Lowest(b)
    ensures Ordered(a) && Ordered(b) ==> Ordered(r)
  {
    Then(a, b)
  }

  /** Check, then go on or return. */
  function Unless(check: Code, rest: Code): (r: Code)
    ensures Ordered(check) && Ordered(rest) ==> Ordered(r)
    ensures Lowest(r) <= Lowest(check) && (Lowest(check) <= 6 && Lowest(rest) <= 6 ==>
              Lowest(r) == if Lowest(check) <= Lowest(rest) then Lowest(check) else Lowest(rest))
  {
    Both(check, Maybe(rest))
  }

  // --- The service's methods ------------------------------------------------------------------------

  datatype Method =
    | SetMemoryBudget | RecoveryList | RecoveryDiscard | Recover | Close | JournalState | Housekeeping | StorageUsage
    | Info | StartImportJob | CancelImportJob | FinishImportJob | SetImportLive | ImportPeaks | RegisterSaveJob
    | CancelSaveJob | UnregisterSaveJob | OpenFile | TakeSidecarNotices | SetSpectralView | SetWaveformView | BeginSave
    | FinishSave | BeginSaveAs | FinishSaveAs | Peaks | SpectroSource | ExportSource | IsRecording | IsNormalizeBusy
    | IsPasteBusy | IsBakeRunning | IsSaveRunning | BeginRecording | DiscardTake | CommitTake | CurrentLen
    | BeginRecordOp | NoteTakeWindow | CommitTakeOp | HistoryState | ClipboardInfo | PasteNeedsJob | EditCut | EditCopy
    | EditPaste | EditDelete | EditTrim | EditSilence | EditInsertSilence | BeginPasteJob | AbandonPasteJob
    | FinishPasteJob | StartPasteJob | CancelPasteJob | EndPasteJob | BeginNormalizeJob | AbandonNormalizeJob
    | FinishNormalizePeak | FinishNormalizeLufs | BeginBakeJob | AbandonBakeJob | FinishBake | MarkersGet | MarkerAdd
    | MarkerRename | MarkerSetRange | MarkerDelete | HistoryUndo | HistoryRedo

  /** The clipboard guard is dropped before the notice is queued. */
  function Materialize(): Code { Both(Touch(Clipboard), Maybe(Touch(Notices))) }

  /** `info_of` asks the engine for the rack. */
  function InfoOf(): Code { Maybe(Touch(Engine)) }

  /** `apply_committed`: the new snapshot, then the playhead. */
  function Committed(): Code { Both(Touch(Engine), Touch(Engine)) }

  /** The open document is replaced: its clipboard goes to the file first. */
  function Swap(): Code { Under(Open, Both(Maybe(Materialize()), InfoOf())) }

  /** The gate of the edit commands: both flags are read and released before the document. */
  function GatedEdit(body: Code): (r: Code)
    ensures Ordered(body) && Rank(Open) < Lowest(body) ==> Ordered(r)
  {
    Unless(Touch(NormalizeBusy), Unless(Touch(PasteBusy), Under(Open, Maybe(body))))
  }

  /** A job's end: commit under the document, release the flag afterwards. */
  function CommitThenRelease(flag: Lock): (r: Code)
    ensures Ordered(r)
  {
    Both(Under(Open, Maybe(Committed())), Touch(flag))
  }

  function CodeOf(m: Method): Code {
    match m
    case SetMemoryBudget => Touch(Open)
    case RecoveryList => Touch(SessionDirs)
    case RecoveryDiscard => Maybe(Touch(SessionDirs))
    case Recover =>
      Unless(Touch(Open), Unless(Maybe(Touch(SessionDirs)),
        Both(Maybe(Touch(Engine)), Both(Touch(Engine), Both(Touch(Engine), Swap())))))
    case Close => Both(Touch(Open), Maybe(Both(Maybe(Materialize()), Both(Touch(Engine), Touch(Engine)))))
    case JournalState => Under(Open, Maybe(Touch(Engine)))
    case Housekeeping =>
      Unless(Touch(NormalizeBusy), Unless(Touch(Engine), Both(Touch(Open), Both(Maybe(Touch(Clipboard)), Compactions()))))
    case StorageUsage => Under(Open, Maybe(Touch(Clipboard)))
    case Info => Both(Maybe(Under(Open, Maybe(Touch(Engine)))), Under(Open, InfoOf()))
    case StartImportJob => Touch(ImportJobs)
    case CancelImportJob => Touch(ImportJobs)
    case FinishImportJob => Both(Touch(ImportJobs), Touch(ImportLive))
    case SetImportLive => Touch(ImportLive)
    case ImportPeaks => Touch(ImportLive)
    case RegisterSaveJob => Touch(SaveJobs)
    case CancelSaveJob => Touch(SaveJobs)
    case UnregisterSaveJob => Touch(SaveJobs)
    case OpenFile =>
      Unless(Touch(Open), Unless(Touch(SessionDirs), Both(Maybe(Touch(Engine)), Both(OpenNotices(),
        Both(Touch(Engine), Both(Touch(Engine), Swap()))))))
    case TakeSidecarNotices => Touch(Notices)
    case SetSpectralView => Touch(Open)
    case SetWaveformView => Touch(Open)
    case BeginSave => Under(SaveRunning, Maybe(Touch(Open)))
    case FinishSave => FinishSaving()
    case BeginSaveAs => Maybe(Under(SaveRunning, Maybe(Touch(Open))))
    case FinishSaveAs => FinishSaving()
    case Peaks => Touch(Open)
    case SpectroSource => Touch(Open)
    case ExportSource => Touch(Open)
    case IsRecording => Touch(Open)
    case IsNormalizeBusy => Touch(NormalizeBusy)
    case IsPasteBusy => Touch(PasteBusy)
    case IsBakeRunning => Touch(BakeRunning)
    case IsSaveRunning => Touch(SaveRunning)
    case BeginRecording =>
      Under(Open, Maybe(Both(Maybe(Unless(Touch(SessionDirs), Both(Touch(Engine), Maybe(Materialize())))), Maybe(InfoOf()))))
    case DiscardTake => Touch(Open)
    case CommitTake =>
      Under(Open, Maybe(OneOf(
        Unless(Touch(SessionDirs), Both(Touch(Engine), Materialize())),
        Maybe(Both(Touch(Engine), InfoOf())))))
    case CurrentLen => Touch(Open)
    case BeginRecordOp => Unless(Touch(NormalizeBusy), Touch(Open))
    case NoteTakeWindow => Touch(Open)
    case CommitTakeOp => Under(Open, Maybe(Both(Committed(), InfoOf())))
    case HistoryState => Touch(Open)
    case ClipboardInfo => Touch(Clipboard)
    case PasteNeedsJob => Under(Open, Maybe(Touch(Clipboard)))
    case EditCut => GatedEdit(Both(Touch(Clipboard), Committed()))
    case EditCopy => GatedEdit(Touch(Clipboard))
    case EditPaste => GatedEdit(Unless(Touch(Clipboard), Committed()))
    case EditDelete => GatedEdit(Committed())
    case EditTrim => GatedEdit(Committed())
    case EditSilence => GatedEdit(Committed())
    case EditInsertSilence => GatedEdit(Committed())
    case BeginPasteJob =>
      Under(PasteBusy, Maybe(Unless(Touch(NormalizeBusy), Under(Open, Maybe(Touch(Clipboard))))))
    case AbandonPasteJob => Touch(PasteBusy)
    case FinishPasteJob => Both(Under(Open, Maybe(Committed())), Both(Maybe(Touch(Clipboard)), Touch(PasteBusy)))
    case StartPasteJob => Touch(PasteJobs)
    case CancelPasteJob => Touch(PasteJobs)
    case EndPasteJob => Touch(PasteJobs)
    case BeginNormalizeJob => Under(NormalizeBusy, Maybe(Touch(Open)))
    case AbandonNormalizeJob => Touch(NormalizeBusy)
    case FinishNormalizePeak => CommitThenRelease(NormalizeBusy)
    case FinishNormalizeLufs => CommitThenRelease(NormalizeBusy)
    case BeginBakeJob => Unless(Under(NormalizeBusy, Maybe(Touch(Open))), Touch(BakeRunning))
    case AbandonBakeJob => Both(Touch(BakeRunning), Touch(NormalizeBusy))
    case FinishBake =>
      Both(Under(Open, Maybe(Committed())), Both(Maybe(Touch(Engine)), Both(Touch(BakeRunning), Touch(NormalizeBusy))))
    case MarkersGet => Touch(Open)
    case MarkerAdd => Touch(Open)
    case MarkerRename => Touch(Open)
    case MarkerSetRange => Touch(Open)
    case MarkerDelete => Touch(Open)
    case HistoryUndo => UndoOrRedo()
    case HistoryRedo => UndoOrRedo()
  }

  /** Up to three rounds, each deciding under the document, copying without it, and swapping under it. */
  function Compactions(): Code {
    Unless(Compaction(), Unless(Compaction(), Compaction()))
  }

  function Compaction(): Code {
    Unless(Touch(Open), Under(Open, Maybe(Touch(Engine))))
  }

  function OpenNotices(): Code {
    Both(Maybe(Touch(Notices)), Both(Maybe(Touch(Notices)), Maybe(Touch(Notices))))
  }

  function FinishSaving(): Code {
    Both(Touch(Engine), Unless(Under(Open, Maybe(Touch(Engine))), Both(
      Maybe(Under(Open, Maybe(Both(Both(Maybe(Touch(Notices)), Maybe(Touch(Notices))), InfoOf())))),
      Touch(SaveRunning))))
  }

  function UndoOrRedo(): Code {
    Unless(Touch(NormalizeBusy), Both(Under(Open, Maybe(Committed())), Maybe(Touch(Engine))))
  }

  /** Every method of the service takes its locks in rising rank, on every path. */
  lemma MethodsAreOrdered(m: Method)
    ensures Ordered(CodeOf(m))
  {
    hide Ordered, Lowest, Under, Touch, Maybe, OneOf, Both, Unless, GatedEdit, CommitThenRelease;
  }
}

module Deadlock {
  import opened Locks

  // --- One thread ------------------------------------------------------------------------------------

  /** `ops` from here on: each lock above all held ones, each release of a held one, none left over. */
  ghost predicate Disciplined(held: set<Lock>, ops: seq<Op>)
    decreases |ops|
  {
    if ops == [] then held == {}
    else
      match ops[0]
      case Acquire(l) => (forall h :: h in held ==> Rank(h) < Rank(l)) && Disciplined(held + {l}, ops[1..])
      case Release(l) => l in held && Disciplined(held - {l}, ops[1..])
  }

  lemma ReleaseIsDisciplined(l: Lock, held: set<Lock>, rest: seq<Op>)
    requires l !in held && Disciplined(held, rest)
    ensures Disciplined(held + {l}, [Release(l)] + rest)
  {
    assert ([Release(l)] + rest)[1..] == rest && held + {l} - {l} == held;
  }

  lemma HeldIsDisciplined(l: Lock, inner: seq<Op>, ops: seq<Op>, held: set<Lock>, rest: seq<Op>)
    requires |ops| >= 2 && ops[0] == Acquire(l) && ops[|ops| - 1] == Release(l) && inner == ops[1..|ops| - 1]
    requires forall h :: h in held ==> Rank(h) < Rank(l)
    requires Disciplined(held + {l}, inner + ([Release(l)] + rest))
    ensures Disciplined(held, ops + rest)
  {
    assert (ops + rest)[1..] == inner + ([Release(l)] + rest);
  }

  /** Guards close in the order the code nests them, so an ordered method is disciplined. */
  lemma {:induction false} OrderedIsDisciplined(code: Code, ops: seq<Op>, held: set<Lock>, rest: seq<Op>)
    requires Ordered(code) && IsPath(code, ops)
    requires forall h :: h in held ==> Rank(h) < Lowest(code)
    requires Disciplined(held, rest)
    ensures Disciplined(held, ops + rest)
    decreases code
  {
    hide Disciplined, Rank;
    match code
    case Free =>
      assert ops + rest == rest;
    case Held(l, body) =>
      var inner := ops[1..|ops| - 1];
      ReleaseIsDisciplined(l, held, rest);
      OrderedIsDisciplined(body, inner, held + {l}, [Release(l)] + rest);
      HeldIsDisciplined(l, inner, ops, held, rest);
    case Then(a, b) =>
      var i :| 0 <= i <= |ops| && IsPath(a, ops[..i]) && IsPath(b, ops[i..]);
      OrderedIsDisciplined(b, ops[i..], held, rest);
      OrderedIsDisciplined(a, ops[..i], held, ops[i..] + rest);
      assert ops[..i] + (ops[i..] + rest) == ops + rest;
    case Either(a, b) =>
      if IsPath(a, ops) {
        OrderedIsDisciplined(a, ops, held, rest);
      } else {
        OrderedIsDisciplined(b, ops, held, rest);
      }
  }

  /** A thread's life: any methods one after the other, each along one of its paths. */
  ghost predicate IsLife(ops: seq<Op>)
    decreases |ops|
  {
    ops != [] ==>
      exists n: nat, m: Method :: 0 < n <= |ops| && IsPath(CodeOf(m), ops[..n]) && IsLife(ops[n..])
  }

  lemma {:induction false} LifeIsDisciplined(ops: seq<Op>)
    requires IsLife(ops)
    ensures Disciplined({}, ops)
    decreases |ops|
  {
    if ops != [] {
      var n: nat, m: Method :| 0 < n <= |ops| && IsPath(CodeOf(m), ops[..n]) && IsLife(ops[n..]);
      LifeIsDisciplined(ops[n..]);
      MethodsAreOrdered(m);
      OrderedIsDisciplined(CodeOf(m), ops[..n], {}, ops[n..]);
      assert ops[..n] + ops[n..] == ops;
    }
  }

  // --- All threads -----------------------------------------------------------------------------------

  datatype Thread = Thread(held: set<Lock>, rest: seq<Op>)

  type Threads = seq<Thread>

  function Spawned(lives: seq<seq<Op>>): Threads {
    seq(|lives|, i requires 0 <= i < |lives| => Thread({}, lives[i]))
  }

  predicate Taken(ts: Threads, l: Lock) {
    exists i :: 0 <= i < |ts| && l in ts[i].held
  }

  /** A mutex is not re-entrant: a thread waits for a lock any thread holds, itself included. */
  predicate CanStep(ts: Threads, i: nat) {
    && i < |ts|
    && ts[i].rest != []
    && (ts[i].rest[0].Acquire? ==> !Taken(ts, ts[i].rest[0].lock))
  }

  function Advance(t: Thread): Thread
    requires t.rest != []
  {
    match t.rest[0]
    case Acquire(l) => Thread(t.held + {l}, t.rest[1..])
    case Release(l) => Thread(t.held - {l}, t.rest[1..])
  }

  function StepThread(ts: Threads, i: nat): Threads
    requires CanStep(ts, i)
  {
    ts[i := Advance(ts[i])]
  }

  /** The scheduler picks threads; a pick that cannot go on changes nothing. */
  function Scheduled(ts: Threads, picks: seq<nat>): Threads
    decreases |picks|
  {
    if picks == [] then ts
    else Scheduled(if CanStep(ts, picks[0]) then StepThread(ts, picks[0]) else ts, picks[1..])
  }

  ghost predicate LocksInv(ts: Threads) {
    && (forall i :: 0 <= i < |ts| ==> Disciplined(ts[i].held, ts[i].rest))
    && (forall i, j :: 0 <= i < j < |ts| ==> ts[i].held !! ts[j].held)
  }

  lemma StepKeepsInv(ts: Threads, i: nat)
    requires LocksInv(ts) && CanStep(ts, i)
    ensures LocksInv(StepThread(ts, i))
  {
    var us := StepThread(ts, i);
    forall j, k | 0 <= j < k < |us| ensures us[j].held !! us[k].held {
      assert ts[j].held !! ts[k].held;
      if ts[i].rest[0].Acquire? {
        assert ts[i].rest[0].lock !in ts[j].held && ts[i].rest[0].lock !in ts[k].held;
      }
    }
  }

  lemma {:induction false} ScheduleKeepsInv(ts: Threads, picks: seq<nat>)
    requires LocksInv(ts)
    ensures LocksInv(Scheduled(ts, picks)) && |Scheduled(ts, picks)| == |ts|
    decreases |picks|
  {
    if picks != [] {
      if CanStep(ts, picks[0]) {
        StepKeepsInv(ts, picks[0]);
        ScheduleKeepsInv(StepThread(ts, picks[0]), picks[1..]);
      } else {
        ScheduleKeepsInv(ts, picks[1..]);
      }
    }
  }

  predicate Waits(t: Thread) {
    t.rest != [] && t.rest[0].Acquire?
  }

  /**
   * A blocked thread waits for a lock some other thread holds, and that one is unfinished; if it is
   * blocked too, it waits for a higher lock. Ranks end, so the chase ends at a thread that can go on.
   */
  lemma {:induction false} ChaseEnds(ts: Threads, i: nat) returns (j: nat)
    requires LocksInv(ts) && i < |ts| && ts[i].rest != []
    ensures CanStep(ts, j)
    decreases if Waits(ts[i]) then 6 - Rank(ts[i].rest[0].lock) else 0
  {
    if CanStep(ts, i) {
      return i;
    }
    var l := ts[i].rest[0].lock;
    var k :| 0 <= k < |ts| && l in ts[k].held;
    assert Disciplined(ts[k].held, ts[k].rest);
    assert ts[k].rest != [];
    if CanStep(ts, k) {
      return k;
    }
    j := ChaseEnds(ts, k);
  }

  /**
   * Deadlock freedom: any number of threads, any lives, any schedule. Unless every thread has
   * finished, some thread can take its next step.
   */
  lemma SomeThreadCanStep(lives: seq<seq<Op>>, picks: seq<nat>)
    requires forall i :: 0 <= i < |lives| ==> IsLife(lives[i])
    ensures var ts := Scheduled(Spawned(lives), picks);
            (forall i :: 0 <= i < |ts| ==> ts[i].rest == []) || (exists j :: CanStep(ts, j))
  {
    var start := Spawned(lives);
    forall i | 0 <= i < |start| ensures Disciplined(start[i].held, start[i].rest) {
      LifeIsDisciplined(lives[i]);
    }
    ScheduleKeepsInv(start, picks);
    var ts := Scheduled(start, picks);
    if i :| 0 <= i < |ts| && ts[i].rest != [] {
      var j := ChaseEnds(ts, i);
    }
  }

  function Left(ts: Threads): nat {
    if ts == [] then 0 else |ts[0].rest| + Left(ts[1..])
  }

  lemma {:induction false} StepLowersLeft(ts: Threads, i: nat)
    requires CanStep(ts, i)
    ensures Left(StepThread(ts, i)) < Left(ts)
    decreases |ts|
  {
    LeftAfterUpdate(ts, i, Advance(ts[i]));
  }

  lemma {:induction false} LeftAfterUpdate(ts: Threads, i: nat, t: Thread)
    requires i < |ts|
    ensures Left(ts[i := t]) == Left(ts) - |ts[i].rest| + |t.rest|
    decreases |ts|
  {
    if i > 0 {
      assert ts[i := t][1..] == ts[1..][i - 1 := t];
      LeftAfterUpdate(ts[1..], i - 1, t);
    } else {
      assert ts[0 := t][1..] == ts[1..];
    }
  }

  /** And so every such system can be run to its end from wherever the scheduler has taken it. */
  lemma {:induction false} RunsToTheEnd(ts: Threads) returns (picks: seq<nat>)
    requires LocksInv(ts)
    ensures forall i :: 0 <= i < |Scheduled(ts, picks)| ==> Scheduled(ts, picks)[i].rest == []
    decreases Left(ts)
  {
    if i :| 0 <= i < |ts| && ts[i].rest != [] {
      var j := ChaseEnds(ts, i);
      StepLowersLeft(ts, j);
      StepKeepsInv(ts, j);
      var more := RunsToTheEnd(StepThread(ts, j));
      picks := [j] + more;
      assert picks[1..] == more;
    } else {
      picks := [];
    }
  }
}
