# Verification of the audio editor's document service

A Dafny 4.11 model of the editor's document service and of the code around it, with proofs about
whole runs. `dafny verify dfyconfig.toml` checks everything.

## What is modelled

**Documents and their history** (`Document`, `Histories`, `Ledgers`, `EditOps`, `Markers`). A revision
is its samples and markers under two stamps, `rev` and `audioRev`. A history has undo and redo stacks and a
saved edit number. A ledger remembers what every number of a session stands for; all proofs about
saving and jobs rest on the fact that a history agrees with its ledger in every reachable state.

**The service** (`Service`, `DocumentServices`). `Service` says, as functions on a value, what each
command of `DocumentService` does: its refusals in their order, the new document, clipboard, rack and
busy flags, the reply. `DocumentServices.DocumentService` is the object with those parts as mutable
fields; each of its methods is proved to do exactly what the function says. What the functions mean
is proved beside them, in terms of samples, markers, stacks and clips and not of the functions
(`EditAlgebra`, `HistoryAlgebra`, `TakeAlgebra`, `CommandAlgebra`, `JobSafety` and the invariants over runs). Pieces outside a
document are tables of chunk references read through one session's store (`Stores`).

**Runs** (`World`). The service among its callers: job threads holding what they were given, files on
disk, the clipboard file, the ledger. One step is one command; a save is four steps (start, capture,
write, record), a job two, with anything in between. Whether a thread starts, a journal append or a
write succeeds, and what a job computes are parameters of the step, so every theorem covers every
outcome.

**Locks** (`Locks`, `Deadlock`). The same methods again as nested guards, one step per lock operation.

**Rendering** (`Chains`, `Render`, `NoiseCapture`). An effects chain is a machine from sample to
sample. The block loops work on arrays as in the source and are compared with running the machine
over everything at once.

**Import peaks, job status, job traces, scripts** (`ImportPeaks`, `JobStatus`, `JobTraces`; `Text`,
`Fences`, `Masking`, `Sections`, `MarkerLaws`, `Regeneration`, `Blocks`, `LineLaws`, `BlockParser`,
`HeadingIds`, `Brackets`, `Sorting`, `Collisions`).

## Main results

1. Save safety (`SaveRuns`, `CueSafety`): a clean document's file holds its audio, and its markers; a
   save that skips the audio file refines one that writes it; an edit that lands during a save stays
   dirty and undoing it makes the document clean. A run is orderly if it takes none of four steps
   (`SaveSafety.SaveOrderly`): another program writes a file the service has open or is saving; a save
   lands on a path reopened since its document closed; recording a full write fails; undo entries are
   dropped while number 0 names the saved or a captured state. For each there is the exact condition
   under which the baselines stay right (the four `InStep` theorems, and `TrimKeepsExactly` for the
   whole invariant), what makes the harm visible where they do not (`TrimHarms`, `FailedRecordHarms`),
   and a run from the start where it is (`SaveExamples`).
   What a save wrote is what opening reads (`Reopening`), and a recovered document stays modified until
   a save of it is recorded (`Recovery`).
2. "Changed on disk" (`StampSafety`): over every run, orderly or not, an unconfirmed save is refused
   for that reason exactly if somebody else wrote the file since it was opened or last saved. On orderly
   runs the remembered stamp is the file's.
3. Edits (`EditAlgebra`, `Markers`): what each command does to every sample, every marker, the selection
   and the stacks. Markers keep the sample they sit on, regions the samples they end with, and equal
   positions their order; in every reachable state they are sorted and inside the document.
4. History (`Histories`, `HistoryAlgebra`): undo and redo are inverse for any number of steps; the rack
   moves exactly over bake entries, and along whole runs without them it stays.
5. Takes (`TakeAlgebra`): when a take is committed, what it becomes, and that undo takes it back.
6. No lost update (`JobSafety`): a normalize or bake lands on exactly the snapshot it was planned
   from, or changes nothing, in every run.
7. Clipboard safety (`ClipboardSafety`): in every run of whole commands a bound clip is the open
   session's, reads there as what was cut or copied, and outlives its document.
8. Flag ownership (`FlagOwnership`) and deadlock freedom (`Deadlock`).
9. Rack coherence (`RackCoherence`): undo and redo of a bake over arbitrary runs.
10. Streaming equals batch (`Render`); a captured excerpt against the whole document's render, exactly
    (`NoiseCapture`); progressive peaks equal final peaks, and a peak is never wider than the samples of
    one pyramid bucket around it (`ImportPeaks`).
11. Job traces (`JobTraces`) and the status cache as a bounded map (`JobStatus`).
12. The Markdown reader tiles its text and agrees with the fence splitter (`BlockParser`), and reads back
    every line it would be written as (`LineLaws`, `MarkerLaws`); bracket reports and path collisions are
    exact (`Brackets`, `Collisions`); writing a generated section twice is writing it once (`Regeneration`).

## Where the code does less than its documentation says

Each is kept as the code has it. The members named here give the exact condition for all inputs.

- Dropping old undo entries moves the floor that edit number 0 names. If 0 is the saved number and the
  state that becomes the floor sounds different from the file, the document reads clean over that file
  as soon as undo reaches the floor, at once if the whole stack went: `SaveRuns.TrimInStep`,
  `TrimHarms`, `TrimFlipsDirty`. If a running save captured number 0, it will record a name that no
  longer fits: `SaveRuns.TrimKeepsCapture`.
- The baselines of a save move before its journal append. If the append fails after the file was
  written, Save can later skip the wrong file: `SaveRuns.FailedRecordInStep`.
- A save can be refused as "changed on disk" although only the service wrote the file: when the save of
  a document closed meanwhile landed on it, or a Save As could not be recorded:
  `StampSafety.ChangedOnDiskExactly`, `SaveExamples.RefusedAfterFailedSaveAs`.
- A save outlives its document. If the same path is reopened meanwhile, the write lands on it:
  `SaveRuns.StrangerWriteInStep`.
- A confirmed overwrite of a file changed by another program can still skip the audio:
  `SaveRuns.ForeignWriteInStep`, `SaveExamples.OverwriteSkips`.
- `last_written_markers` moves only with the sidecar: `CueSafety.FailedSidecarInStep`; and unreadable
  or dropped cues are forgotten on opening: `CueSafety.OpenedCuesInStep`.
- `finish_save` and `finish_save_as` return early, with the save flag up, if the document was closed
  before the capture; a normalize job whose thread does not start leaves its flag up, its job
  registered and its status running: `FlagOwnership.StepOwns`, `JobTraces.JobService.StartNormalizeJob`.
  A bake in that position lowers its flags but leaves its "running" status.
- `close` and `finish_paste_job` let go of the document before they touch the clipboard. Taken as whole
  commands nothing goes wrong. Split there, pieces of one session are read in another's store, which
  nothing checks; chunk ids count from 0 in every store, so this usually succeeds with other audio:
  `ClipboardSafety.LateRebind`, `CloseBeforeRebind` and `LateMaterialize` say exactly when it is refused,
  when it is harmless and what it inserts otherwise.
- A paste job does not re-check the snapshot: `JobSafety.PasteLandsAnywhere`.
- `render_processed` in loudness.rs slices past its input and panics when the latency exceeds what is
  left of the input's last block: `Render.PanicNeedsLatency`. The renderer in offline.rs guards this.
- Capture renders its excerpt without what follows it, so a chain with look-ahead hears a cut in the
  last `latency` samples: `NoiseCapture.ExcerptIsPartOfWhole`, `LookAheadHearsTheCut`.
- The status cache with capacity 0 keeps values it does not queue: `JobStatus.ConsistentExactly`. Job
  ids restart at 1 in each service although the cache is shared: `JobStatus.AnswersTheLatestWriter`.
- Undo and redo put a fresh `rev` and `audio_rev` on what they restore; only the edit number comes back.
- Heading ids can clash: `HeadingIds.IdsDistinctExactly`.
- Writing a generated section can take along the END marker of one that began before it, after which the
  document is refused: `Regeneration.WrittenTwice`, `Regeneration.OverlapIsRefused`.

## Model

| member | source | states |
|---|---|---|
| Document.PreparedFits | crates/project/src/history.rs:496-616 | every prepared revision keeps all markers inside its new length, and one that changes no samples keeps the audio, for any list of replaces and marker operations; where each marker goes is Markers.ReplaceMoves and TrimMoves |
| Document.ChangedFlagMatches | crates/project/src/history.rs:132-140 | a revision gets a new audio number exactly when some replace in the edit is not empty |
| Document.SingleReplace | crates/project/src/snapshot.rs:263-311 | one valid replace always prepares, and its audio is the old audio with exactly that stretch exchanged |
| Markers.SortsStably | crates/project/src/snapshot.rs:318-322 | the marker sort is a reordering by position that keeps the order of equal positions |
| Markers.ReplaceMoves | crates/project/src/snapshot.rs:331-385 | under one replace every marker keeps id, name and kind; in front of the change it stays, inside it goes to its start, behind it moves by inserted minus removed and so stays on its sample; region ends likewise; the result is sorted, equal positions in their old order, and in a sorted list no marker passes another |
| Markers.TrimMoves | crates/project/src/snapshot.rs:331-385 | under a trim every marker inside the range keeps its distance to the range's start and every other one goes to the nearer end, region ends likewise; the result is sorted, and a sorted list keeps its order |
| Markers.IdentityMoves | crates/project/src/history.rs:496-616 | a replace of equal length that maps markers to themselves leaves a sorted list as it is |
| Markers.PreparedSorted | crates/project/src/snapshot.rs:179-205 | every accepted edit, whatever its operations, leaves the markers sorted by position |
| EditOps.TrimKeepsRange | crates/project/src/edit.rs:94-105 | the two replaces of a trim, applied one after the other, leave exactly the selected samples |
| EditOps.CutPasteRestores | crates/project/src/edit.rs:76-124 | deleting a range and pasting its samples at the cut restores the sample sequence, with selection and playhead inside both lengths |
| Histories.RedoUndoesUndo | crates/project/src/history.rs:354-378 | redo after undo restores both stacks and the current content, everything except the revision stamps |
| Histories.UndosThenRedos | crates/project/src/history.rs:354-378 | n undos reach the state below the n-th newest entry and n redos come back to the same stacks, for every n |
| Histories.EditsUndoRedo | crates/project/src/history.rs:348-378 | after any run of n accepted edits, n undos restore the starting content and stack and n redos the end |
| HistoryAlgebra.HistoryDoes | src-tauri/src/document.rs:3929-3963 | undo and redo from any state: exactly when they are accepted, the entry that changes stacks, the content and stamps it leaves, the rack it brings or leaves, the playhead; a refusal and an empty stack change nothing |
| HistoryAlgebra.RackMovesExactly | src-tauri/src/document.rs:3950-3961 | the rack changes exactly with an accepted move over an entry that carries another rack |
| HistoryAlgebra.RackStays | src-tauri/src/document.rs:3950-3961 | along any run without rack edits, finished bakes, openings that bring a rack and moves over bake entries the rack stays what it was |
| Ledgers.ApplyAgrees | crates/project/src/history.rs:348-352 | a commit keeps every number on both stacks meaning one content, one audio and one snapshot, and changes no older meaning |
| Ledgers.UndoAgrees | crates/project/src/history.rs:354-366 | an undo restamps `rev` and `audio_rev` but keeps every number meaning one thing; only the edit number returns |
| Ledgers.RedoAgrees | crates/project/src/history.rs:367-378 | the same for redo |
| Ledgers.DropAgrees | crates/project/src/history.rs:458-462 | dropping the oldest undo entries keeps the numbers meaningful once number 0 names the new floor |
| Ledgers.CleanMeansSavedContent | crates/project/src/history.rs:314-338 | a history that reads clean holds exactly the content its saved number stands for |
| DocumentServices.DocumentService.EditCut | src-tauri/src/document.rs:3193-3213 | accepted exactly for a non-empty range of an editable document whose edit is journaled, refused without a change; samples, markers, clipboard, history and reply are as `EditAlgebra.CutDoes` spells out |
| DocumentServices.DocumentService.EditCopy | src-tauri/src/document.rs:3220-3245 | accepted exactly for a non-empty range of an editable document; only the clipboard changes, as `EditAlgebra.CopyDoes` says |
| DocumentServices.DocumentService.EditPaste | src-tauri/src/document.rs:3254-3284 | accepted only at a reachable target and only if the open session's store has the pieces, refused without a change; otherwise `EditAlgebra.PasteDoes` |
| DocumentServices.DocumentService.EditDelete | src-tauri/src/document.rs:3287-3302 | accepted exactly as cut is, refused without a change; `EditAlgebra.DeleteDoes` says what is left |
| DocumentServices.DocumentService.EditTrim | src-tauri/src/document.rs:3306-3329 | accepted only for a non-empty range, refused without a change; `EditAlgebra.TrimDoes`, with its no-op over the whole document |
| DocumentServices.DocumentService.EditSilence | src-tauri/src/document.rs:3332-3347 | accepted exactly as cut is, refused without a change; `EditAlgebra.SilenceDoes` |
| DocumentServices.DocumentService.EditInsertSilence | src-tauri/src/document.rs:3361-3388 | accepted exactly at a reachable target for 1 sample to 3600 seconds if journaled, refused without a change; `EditAlgebra.InsertSilenceDoes` |
| DocumentServices.DocumentService.UndoOrRedo | src-tauri/src/document.rs:3929-3963 | accepted exactly on an idle document whose stack is empty or whose journal takes the step; one entry changes stacks and brings its rack if it has one, nothing else changes, and an empty stack or a refusal changes nothing |
| DocumentServices.DocumentService.BeginNormalizeJob | src-tauri/src/document.rs:3547-3571 | accepted exactly for a non-empty range of an idle, not recording document; hands out its current snapshot with the flag up, refused without a change |
| DocumentServices.DocumentService.FinishNormalizeJob | src-tauri/src/document.rs:3584-3690 | the flag is down on every path and a refusal leaves the document; `JobSafety.NormalizeLandsOrLeaves` says when it lands |
| DocumentServices.DocumentService.BeginBakeJob | src-tauri/src/document.rs:3699-3705 | accepted exactly as a normalize is, then both flags are up; refused without a change |
| DocumentServices.DocumentService.FinishBakeJob | src-tauri/src/document.rs:3719-3745 | both flags are down on every path and a refusal leaves document and rack; `JobSafety.BakeLandsOrLeaves` says when it lands |
| DocumentServices.DocumentService.MaterializeClipboard | src-tauri/src/document.rs:3122-3154 | no bound pieces are left: they become a clip read through the store at hand, or the clipboard empties if that fails; `ClipboardSafety` says when the clip is kept |
| DocumentServices.DocumentService.NeedsPasteJob | src-tauri/src/document.rs:3101-3114 | whether a paste needs an import first: a streamed-out clip not yet converted for the open session |
| DocumentServices.DocumentService.BeginPasteJob | src-tauri/src/document.rs:3396-3425 | claims the paste flag and hands out the clip on the clipboard, or changes nothing |
| DocumentServices.DocumentService.FinishPasteJob | src-tauri/src/document.rs:3441-3484 | the flag is down on every path; a refusal leaves document and clipboard, `JobSafety.PasteLandsAnywhere` says when it is accepted and what it inserts |
| DocumentServices.DocumentService.OpenDocument | src-tauri/src/document.rs:2026-2222 | refused exactly while recording, and then without a change; else the document is installed and no bound piece of the old one is left |
| DocumentServices.DocumentService.CloseDocument | src-tauri/src/document.rs:1618-1636 | refused exactly while recording, and then without a change; else nothing is open and no bound piece is left |
| DocumentServices.DocumentService.BeginRecording | src-tauri/src/document.rs:2736-2793 | accepted only if no take is running, and then one is, on the reused document or a fresh untitled one |
| DocumentServices.DocumentService.CommitTake | src-tauri/src/document.rs:2818-2898 | accepted exactly for a running take that is empty or can be committed; then only the recording ends, or the document holds what the take makes of it, as one undoable entry |
| DocumentServices.DocumentService.BeginRecordOp | src-tauri/src/document.rs:2917-2957 | accepted only if no take is running, and then one is; refused without a change |
| DocumentServices.DocumentService.CommitTakeOp | src-tauri/src/document.rs:2981-3065 | accepted exactly for a running take that is empty or can be committed, with the same result; a running take has ended on every path, and a refusal leaves the history |
| DocumentServices.DocumentService.TrimUndoHistory | src-tauri/src/document.rs:1673-1712 | the history loses entries only at the old end of its undo stack, and none while something plays, a job runs, a take is recorded or the drop is not journaled |
| DocumentServices.DocumentService.EditMarkers | src-tauri/src/document.rs:3791-3915 | marker add, rename, move and delete as one entry each; a refusal changes nothing |
| DocumentServices.DocumentService.BeginSaving | src-tauri/src/document.rs:2352-2386 | claims the save flag if it was free, after the untitled and changed-on-disk checks; a refusal changes nothing |
| DocumentServices.DocumentService.CaptureSave | src-tauri/src/document.rs:4049-4080 | captures the current snapshot, its edit number and whether the audio must be written, and changes nothing |
| DocumentServices.DocumentService.RecordSave | src-tauri/src/document.rs:2588-2636 | the flag is down on every path; the history changes in its saved number alone, which becomes exactly the captured one if the record succeeds |
| Stores.ReadsInOrder | crates/project/src/snapshot.rs:17-24 | the k-th sample of a piece is that of its chunk behind its offset, or zero for silence, and stands behind the samples of all earlier pieces |
| Stores.AcceptedExactly | crates/project/src/session.rs:556-572 | a piece table is accepted exactly if each piece is silence or a stretch inside a chunk of the store at hand |
| Stores.SameExactly | crates/project/src/store/mod.rs:433-438 | two stores give a table the same samples exactly if they do so piece by piece |
| EditAlgebra.CutDoes | src-tauri/src/document.rs:3193-3213 | accepted exactly for a non-empty range of an idle document; the sound loses that range, the markers follow, the clipboard holds it, the playhead is at the cut, one new entry pointing to it, redo emptied, fresh stamps; a refusal changes nothing |
| EditAlgebra.CopyDoes | src-tauri/src/document.rs:3220-3245 | accepted exactly as cut is; only the clipboard changes, and it holds the range |
| EditAlgebra.DeleteDoes | src-tauri/src/document.rs:3287-3302 | the same without the clipboard: the sound loses the range, the markers follow, nothing else changes |
| EditAlgebra.TrimDoes | src-tauri/src/document.rs:3306-3329 | leaves exactly the range, with the markers of a document inside it moved by `Markers.TrimMoves`; over the whole document it is an accepted no-op without an entry |
| EditAlgebra.SilenceDoes | src-tauri/src/document.rs:3332-3347 | the range becomes zeros at the same length, stays selected, and the sorted marker list stays as it is |
| EditAlgebra.PasteDoes | src-tauri/src/document.rs:3254-3284 | accepted exactly for a reachable target, something to change and pieces the open session's store can read, whoever's they are; what that store holds there lands at the cursor or over the selection and ends up selected, and the markers follow |
| EditAlgebra.InsertSilenceDoes | src-tauri/src/document.rs:3361-3388 | accepted exactly for 1 sample to 3600 seconds; zeros appear at the start of the target, the rest and its markers move, and the zeros end up selected |
| EditAlgebra.CutPasteIsIdentity | src-tauri/src/document.rs:3193-3284 | through the service, with any piece table that lies under the range: cut, then paste at the cut point, gives back the sound and selects the range |
| EditAlgebra.FirstAtIsLeast | crates/project/src/history.rs:136-141 | an entry points to the earliest change of its edit, or nowhere without one |
| CommandAlgebra.RangeEditsRefuse | src-tauri/src/document.rs:3156-3347 | cut, copy, delete, trim and silence are refused for the first of: a job, no document, a take, an empty range, a range past the end, the journal |
| CommandAlgebra.PasteRefuses | src-tauri/src/document.rs:3254-3284 | a paste looks at the gate and the target first, then for a clip, then whether it needs a job, then at its pieces, then for a change, and last at the journal |
| CommandAlgebra.InsertSilenceRefuses | src-tauri/src/document.rs:3361-3388 | inserting silence checks its length behind the gate and before the target |
| CommandAlgebra.DropDoes | src-tauri/src/document.rs:1673-1712 | the disk check drops the oldest undo entries, as many as asked for, and changes nothing else; during a take, or if the drop is not journaled, nothing |
| CommandAlgebra.MarkersDo | src-tauri/src/document.rs:3791-3915 | a marker command is accepted exactly if its marker is there, or not there yet, and its place inside the document; one marker comes, goes or changes and takes its place in the order, every other one and every sample stay, as one undoable entry with the old audio number; a take keeps added ones for itself |
| CommandAlgebra.JobsBegin | src-tauri/src/document.rs:3547-3705 | normalize and bake begin exactly for a non-empty range of an idle document and are given exactly that range of the current snapshot |
| CommandAlgebra.NoGainFinishes | src-tauri/src/document.rs:3584-3610 | a normalize that needs no gain is accepted as long as its session is open and changes nothing |
| CommandAlgebra.FinishedJobsSelect | src-tauri/src/document.rs:3584-3745 | a job that landed leaves its range selected |
| CommandAlgebra.RackDoes | src-tauri/src/document.rs:3749-3755 | the rack can be changed exactly while no bake runs |
| CommandAlgebra.NeedsJobExactly | src-tauri/src/document.rs:3101-3114 | a job is asked for exactly where a paste without one could not splice into the open document |
| CommandAlgebra.DiscardDoes | src-tauri/src/document.rs:2795-2803 | discarding a take only ends it |
| CommandAlgebra.PasteBegins | src-tauri/src/document.rs:3396-3425 | a paste job starts exactly for a streamed-out clip and a reachable target, and is given both with the document's session and rate |
| CommandAlgebra.PasteJobIsOnce | src-tauri/src/document.rs:3464-3484 | after a paste job the next paste into that document needs none: its import is bound if the rates agree, else kept as the converted clip beside the original |
| CommandAlgebra.OpenDoes | src-tauri/src/document.rs:2026-2222 | opening is refused exactly during a take; it replaces the document, streams bound pieces out, loads a rack exactly if the file brings one, and changes nothing else |
| CommandAlgebra.CloseDoes | src-tauri/src/document.rs:1618-1636 | the same for closing |
| CommandAlgebra.RecordingDoes | src-tauri/src/document.rs:2736-2793 | a recording reuses the document exactly if it is empty and has the rate; else a fresh one, empty, untitled and clean, takes its place, asked for first exactly if samples would be replaced, and stays in place even if the take cannot start |
| CommandAlgebra.RecordOpDoes | src-tauri/src/document.rs:2917-2957 | a record operation starts exactly on an idle document of its rate, and only marks it recording |
| CommandAlgebra.SavesBegin | src-tauri/src/document.rs:2352-2451 | a save starts exactly if none runs and nothing speaks against it, and then only claims the flag |
| CommandAlgebra.RecordDoes | src-tauri/src/document.rs:2588-2636 | a recorded save moves the saved number, the stamp and, for Save As alone, path and format; the document is dirty afterwards exactly if it is past the captured edit |
| CommandAlgebra.SavedOnce | src-tauri/src/document.rs:4049-4080 | after a recorded save with its sidecar the next one skips the audio file exactly if the file is there and neither samples nor markers were edited |
| SaveRuns.StepKeepsSaveInv | src-tauri/src/document.rs:2401-2636 | every orderly command keeps the save invariant: baselines name what the file holds, and captured saves stay truthful |
| SaveRuns.RunKeepsSaveInv | src-tauri/src/document.rs:2401-2636 | so does every orderly run |
| SaveRuns.CleanFileHoldsTheDocument | src-tauri/src/document.rs:2401-2636 | after any orderly run a clean titled document's file holds exactly the current snapshot's audio |
| SaveRuns.SkippedWriteRefinesFull | src-tauri/src/document.rs:4049-4153 | in every reachable state where a captured save skips the audio, the file already holds the audio a full write would put there |
| SaveRuns.LateEditsStayDirty | src-tauri/src/document.rs:2588-2636 | after a save that n edits overtook, the document is dirty exactly if n > 0, and n undos make it clean with the captured content |
| SaveRuns.TrimFlipsDirty | src-tauri/src/document.rs:1673-1712 | when dropping undo entries turns a dirty document clean, or a clean one dirty, at once |
| SaveRuns.TrimInStep | crates/project/src/history.rs:458-462 | under the save invariant, with no write waiting to be recorded: a titled document stays in step with its file over a trim exactly if its saved number is not 0 or the state that becomes the floor sounds like the file |
| SaveRuns.TrimKeepsExactly | crates/project/src/history.rs:458-462 | the whole save invariant survives a trim if and only if the new floor holds what number 0 named as a saved state and as a captured one |
| SaveRuns.TrimHarms | src-tauri/src/document.rs:1673-1712 | where that fails and neither a job nor a take runs, undoing what the trim left reads clean over a file with other audio, however many entries are left |
| SaveRuns.FailedRecordInStep | src-tauri/src/document.rs:2588-2636 | when the journal append fails after a full write, the document still agrees with its file exactly if path, written audio and last recorded audio coincide |
| SaveRuns.FailedRecordHarms | src-tauri/src/document.rs:2588-2636 | where they differ in place, undo back to the last recorded state reads clean over a file with other audio |
| SaveRuns.StrangerWriteInStep | src-tauri/src/document.rs:4100-4250 | a save of a closed document landing on the reopened path leaves its baselines right exactly if it wrote the same audio; the document reads clean over other audio at once exactly if it was clean and the audio differs |
| SaveRuns.ForeignWriteInStep | src-tauri/src/document.rs:2352-2386 | the same for another program's write to the open document's file |
| StampSafety.StepKeepsStamps | src-tauri/src/document.rs:2588-2602 | every command whatsoever keeps: the open document remembers its file's stamp exactly if nobody else wrote it and no own write waits to be recorded |
| StampSafety.RunKeepsStamps | src-tauri/src/document.rs:1211-1217 | so does every run |
| StampSafety.ChangedOnDiskExactly | src-tauri/src/document.rs:1211-1217 | after any run an unconfirmed save is refused as changed on disk exactly if none is under way, a titled document is open, its file is there, and since it was opened or last saved another program or a closed document's save wrote it, or an unrecorded Save As elsewhere came between |
| StampSafety.RefusedForPrograms | src-tauri/src/document.rs:2352-2386 | without the last two it is refused for that reason exactly if another program wrote the file |
| StampSafety.StampIsRemembered | src-tauri/src/document.rs:2588-2602 | after any orderly run a titled document remembers the stamp its file has, exactly unless a write of its own waits to be recorded |
| SaveExamples.TrimmedAway | crates/project/src/history.rs:458-462 | a run, from the start, that ends clean over a different file by trimming the undo history |
| SaveExamples.TrimmedThenUndone | crates/project/src/history.rs:458-462 | a run where a partial trim leaves the document dirty and one undo later it reads clean over a different file |
| SaveExamples.UndoneAfterFailedRecord | src-tauri/src/document.rs:2588-2636 | a run that ends clean over a different file by a failed record and an undo |
| SaveExamples.SkippedAfterFailedSaveAs | src-tauri/src/document.rs:2528-2577 | a run where an unrecorded Save As makes the next Save, a confirmed overwrite, skip the original file |
| SaveExamples.RefusedAfterFailedSaveAs | src-tauri/src/document.rs:2588-2636 | a run after which Save reports a change on disk although only the service ever wrote the file |
| SaveExamples.StrangerLands | src-tauri/src/document.rs:2352-2451 | a run where a save outlives its document and overwrites the reopened file |
| SaveExamples.OverwriteSkips | src-tauri/src/document.rs:2352-2386 | a run where a confirmed overwrite takes the path that skips the audio, over a foreign file |
| CueSafety.StepKeepsCueInv | src-tauri/src/document.rs:4115-4153 | every command whose sidecar is written and whose opened cues are readable keeps: the marker baseline and the saved state name the cues of the WAV file |
| CueSafety.RunKeepsCueInv | src-tauri/src/document.rs:4115-4153 | so does every run of such commands |
| CueSafety.SkippedWriteIsComplete | src-tauri/src/document.rs:4115-4153 | on such runs a skipped WAV write leaves the whole image, audio and cues, that a full write would make |
| CueSafety.CleanFileHoldsTheMarkers | src-tauri/src/document.rs:4115-4153 | on such runs a clean WAV document's file carries exactly its markers as cues |
| CueSafety.FailedSidecarInStep | src-tauri/src/document.rs:2600-2608 | after a full write whose sidecar failed, cues and baseline agree exactly if the markers written equal the ones last written |
| CueSafety.OpenedCuesInStep | src-tauri/src/document.rs:2026-2222 | opening a WAV leaves its cues known exactly if its cue chunk was readable and no cue was dropped |
| Recovery.ModifiedUntilSaved | src-tauri/src/document.rs:1334-1339 | after any run, a recovered document that stays open is modified exactly until a save of it is recorded, or while its history says so |
| Reopening.SameCuesExactly | crates/project/src/sidecar.rs:612-640 | two marker lists compare as the same cues exactly if one is the other up to order, ids and kinds |
| Reopening.OpensWith | src-tauri/src/document.rs:2081-2133 | a file opens with its own audio, and with the markers of its sidecar exactly if there is one and the file has no readable cues or the same ones; in order, unmodified, both stamps taken over |
| Reopening.SavedThenOpened | src-tauri/src/document.rs:2081-2115 | opening what a save wrote gives its audio back, every marker with id and kind if its sidecar is there, and without it a WAV's markers up to ids and kinds |
| JobSafety.RunKeepsJobInv | src-tauri/src/document.rs:3547-3745 | in every run whatsoever, job sources name snapshots of their session by the revision stamped on them |
| JobSafety.MarkersStayPlaced | crates/project/src/snapshot.rs:179-205 | in every run whatsoever the open document's markers lie inside it, sorted by position |
| JobSafety.SameRevSameSnapshot | src-tauri/src/document.rs:3584-3633 | the re-check of the revision number is exact: equal number if and only if equal snapshot |
| JobSafety.NormalizeLandsOrLeaves | src-tauri/src/document.rs:3584-3690 | a finished normalize is accepted exactly when the planned snapshot is still current, the document not recording and the journal works; then only the range changed, else document and history are untouched |
| JobSafety.BakeLandsOrLeaves | src-tauri/src/document.rs:3719-3745 | the same for a bake, and the rack is reset exactly when it landed |
| JobSafety.PasteLandsAnywhere | src-tauri/src/document.rs:3441-3484 | a finished paste has no such check: it is accepted exactly when the session is open and not recording, its store has what the import wrote, it changes something and the old target still fits; then exactly that is spliced in there |
| TakeAlgebra.TakeDoes | src-tauri/src/document.rs:2838-2895 | a take is accepted exactly if one runs and it is empty or its edit prepares and is journaled; then samples and markers are what the take makes of the document, one entry above the old stack, redo emptied, and one undo brings the old content back; an empty take only ends the recording; a refused one leaves everything or gives way to a fresh document |
| TakeAlgebra.TakeOpDoes | src-tauri/src/document.rs:2981-3065 | the same for a record operation, except that a refusal still ends the recording |
| ClipboardSafety.StepKeepsClipInv | src-tauri/src/document.rs:291-345 | every command keeps: bound pieces belong to the open session and read in its store as what was cut or copied, converted ones as what was imported; a paste job finds its clip; at most one paste job |
| ClipboardSafety.RunKeepsClipInv | src-tauri/src/document.rs:291-345 | so does every run whatsoever |
| ClipboardSafety.StoresGrow | crates/project/src/store/mod.rs:584-600 | chunks added to the open store never change what the clipboard reads as |
| ClipboardSafety.FileGoesWithTheClip | src-tauri/src/document.rs:3435-3475 | after a paste job the clipboard file is gone exactly if the clipboard went over to the document's own pieces |
| ClipboardSafety.PiecesStayHome | src-tauri/src/document.rs:3254-3284 | in every reachable state bound pieces belong to the open session, a paste never finds a piece unknown or too short, and an accepted one inserts exactly what was cut, copied or imported |
| ClipboardSafety.PasteJobFindsItsClip | src-tauri/src/document.rs:3396-3484 | a live paste job's clip is still the clipboard's, and its file still holds those samples |
| ClipboardSafety.ClipOutlivesItsDocument | src-tauri/src/document.rs:1600-1629 | opening, recovering, closing, recording and ending a take keep what would be pasted; only a failed write can empty it |
| ClipboardSafety.LateRebind | src-tauri/src/document.rs:3464-3484 | a paste job that rebinds after its document lock keeps clipboard and session together exactly if rates differ or the session it imported into is still open |
| ClipboardSafety.CloseBeforeRebind | src-tauri/src/document.rs:3464-3484 | a close between the two locks, then another document: its paste is accepted exactly if its own store has a stretch for every piece; it inserts those stretches, and they are the clip exactly if both stores agree on every piece |
| ClipboardSafety.WrongAudioLands | crates/project/src/session.rs:556-572 | an instance: one chunk in each store, and the paste inserts the open document's own sample |
| ClipboardSafety.LateMaterialize | src-tauri/src/document.rs:1618-1636 | a copy from the next document before a close streams the clipboard out: the clip survives exactly if both stores agree on every piece, always if it is silence; it is lost exactly if the closed store lacks a piece, else replaced by what that store holds |
| FlagOwnership.StepOwns | src-tauri/src/document.rs:2352-2451 | a step keeps every busy flag owned by exactly one live job if and only if it is not a normalize start without a thread or a save capture without its document |
| FlagOwnership.StartNormalizeOwns | src-tauri/src/normalize.rs:126-190 | the normalize half of that condition, both ways |
| FlagOwnership.PrepareOwns | src-tauri/src/document.rs:2401-2451 | the save half of that condition, both ways |
| FlagOwnership.FlagsAreOwned | src-tauri/src/document.rs:3547-3712 | over every such run each flag is up exactly while one live job owns it, and a running bake implies the normalize flag |
| FlagOwnership.EndedJobHoldsNoFlag | src-tauri/src/bake.rs:204-271 | once a job has ended, at any later point of any such run, and so whenever its terminal tick is sent: a flag that is up belongs to another live job |
| FlagOwnership.BakeIsEdit | src-tauri/src/document.rs:3699-3712 | owned flags make a running bake imply a busy normalize |
| RackCoherence.StepKeepsRackInv | src-tauri/src/document.rs:3719-3745 | every command keeps each bake entry between the snapshot it rendered and the result, with the rack it used |
| RackCoherence.RunKeepsRackInv | src-tauri/src/document.rs:3719-3745 | so does every run whatsoever |
| RackCoherence.UndoneBakeIsItsSource | src-tauri/src/document.rs:3929-3963 | undoing a bake in any reachable state gives the audio and rack it rendered; printing the render again gives the audio that was undone |
| RackCoherence.RedoneBakeIsItsRender | src-tauri/src/document.rs:3929-3963 | redoing a bake in any reachable state gives its render and the empty rack |
| RackCoherence.RackEditsLeaveDocument | src-tauri/src/document.rs:3749-3755 | any number of rack changes leaves document and history alone |
| RackCoherence.BakeUndoRedo | src-tauri/src/bake.rs:218-271 | bake, any rack changes, undo, redo: the source with the rack it was printed with, then the baked stacks with the empty rack |
| Locks.MethodsAreOrdered | src-tauri/src/document.rs:1449-3963 | every method of the service takes its locks in strictly rising rank on every path |
| Deadlock.OrderedIsDisciplined | src-tauri/src/document.rs:577-636 | code ordered in that sense asks only for locks above all it holds, along each of its paths |
| Deadlock.SomeThreadCanStep | src-tauri/src/document.rs:577-636 | any number of threads running any methods, after any schedule: all are done or one can go on |
| Deadlock.ChaseEnds | src-tauri/src/document.rs:577-636 | following who holds what a blocked thread waits for ends at a thread that can go on |
| Deadlock.RunsToTheEnd | src-tauri/src/document.rs:577-636 | from every reachable state some schedule finishes all threads |
| Chains.RunsSplit | crates/rack/src/offline.rs:115-224 | running a chain over two stretches in turn is running it over both at once: state, output, failure |
| Chains.DelayRendersInput | src-tauri/src/loudness.rs:419-481 | for a chain that is a pure delay of its latency the render is the input |
| Chains.DelayLineDelays | src-tauri/src/loudness.rs:419-481 | there is such a chain for every latency |
| Render.RenderProcessed | src-tauri/src/loudness.rs:419-481 | the slices concatenate to a prefix of the batch render and, unless cancelled, failed or refused, to all of it; each is non-empty and at most a block |
| Render.RenderToBuffer | src-tauri/src/loudness.rs:391-412 | the buffered form gives the batch render; undisturbed it panics exactly when a block starts past the input, else completes |
| Render.PanicNeedsLatency | src-tauri/src/loudness.rs:419-481 | a block starts past the input exactly when latency > block - len % block |
| Render.RenderOffline | crates/rack/src/offline.rs:115-224 | the guarded renderer gives the batch render, or nothing exactly when a slot fails |
| Render.PreRollSamples | crates/rack/src/offline.rs:281-296 | the summed tails clamped to the limits, or the upper limit if one is infinite |
| Render.PlanWindow | crates/rack/src/offline.rs:299-315 | a planned window always fits the signal and pre-rolls from the beginning or by that amount |
| Render.RunWindow | crates/rack/src/offline.rs:364-416 | a windowed render in blocks is the machine over the window alone |
| Render.WindowIsPartOfWhole | crates/rack/src/offline.rs:299-416 | a window equals that stretch of the whole render if the chain forgets within the pre-roll or the window reaches back to the beginning |
| Render.PlannedWindowIsExact | crates/rack/src/offline.rs:281-416 | so the window the planner picks is exact whenever the chain forgets within its declared tails and these add up to at most the upper limit |
| NoiseCapture.ReadRange | src-tauri/src/nr_capture.rs:263-280 | the chunked read gives exactly the range, clipped at the end |
| NoiseCapture.AnalysedEnd | src-tauri/src/nr_capture.rs:306-315 | at most sixty seconds are analysed, never past the selection |
| NoiseCapture.RunPipeline | src-tauri/src/nr_capture.rs:285-375 | succeeds exactly if nothing speaks against it, and each refusal comes exactly for its reason, in the order of the five polls; what is learned is the excerpt; a success carries each warning exactly where its condition holds |
| NoiseCapture.ExcerptIsPartOfWhole | src-tauri/src/nr_capture.rs:295-335 | for any latency, if the transport position plays no part and the chain forgets within the pre-roll (or it reaches the beginning): each sample that is out before the cut equals the whole render's; the whole excerpt does if and only if the chain answers the silence after the cut as it answers the samples that follow |
| NoiseCapture.CaptureSeesTheDocument | src-tauri/src/nr_capture.rs:295-335 | with the job's own numbers, same conditions: a second of pre-roll or the document's beginning makes all samples but the last `latency` right, and all of them without latency or at the document's end |
| NoiseCapture.CaptureWithoutUpstream | src-tauri/src/nr_capture.rs:295-335 | with nothing upstream the excerpt is the document |
| NoiseCapture.LookAheadHearsTheCut | src-tauri/src/nr_capture.rs:295-335 | an instance: a chain with one sample of look-ahead whose excerpt differs from the whole render at the cut |
| ImportPeaks.ChunkRangeUnion | crates/project/src/peaks_query.rs:120-152 | the bucket loop over one chunk covers exactly the buckets the range touches |
| ImportPeaks.BucketUnion | crates/project/src/peaks_query.rs:72-116 | the piece loop joins exactly the chunks the bucket overlaps |
| ImportPeaks.Peaks | crates/project/src/peaks_query.rs:28-70 | one bucket per position, each tight in that sense, refused exactly for an unknown resolution |
| ImportPeaks.PeaksCover | crates/project/src/peaks_query.rs:72-152 | no sample of a range lies outside its peaks |
| ImportPeaks.PeaksAttained | crates/project/src/peaks_query.rs:72-152 | both ends of the peaks of a range are samples of the document, each in a pyramid bucket of a chunk that has samples in the range |
| ImportPeaks.BucketIsTight | crates/project/src/peaks_query.rs:17-70 | so a bucket under-reports nothing, over-reports by at most one pyramid bucket, and is exact where it is aligned to the pyramid; past the end it is zero |
| ImportPeaks.LevelsQuadruple | crates/project/src/peaks_query.rs:9-42 | the resolutions go from 64 to 65536 samples per bucket in steps of four |
| ImportPeaks.PeaksAreFinal | crates/project/src/peaks_query.rs:72-116 | peaks of committed audio do not depend on what is committed later |
| ImportPeaks.ImportPeaks | src-tauri/src/document.rs:1900-1937 | the ready prefix holds the tight peaks of the committed chunks, the rest is padding, partial exactly when some is missing |
| ImportPeaks.ReadyIsWholeBuckets | src-tauri/src/document.rs:1900-1937 | a bucket is ready if and only if it ends within the committed audio |
| ImportPeaks.ReadyBucketsAreFinal | src-tauri/src/document.rs:1900-1937 | a ready bucket is the finished document's bucket |
| ImportPeaks.ReadyGrows | src-tauri/src/document.rs:1900-1937 | the ready prefix never shrinks |
| JobStatus.JobStatusRegistry.Record | src-tauri/src/job_status.rs:43-54 | the map and queue after recording, and that the id just recorded is answered |
| JobStatus.CacheKeepsTheLatest | src-tauri/src/job_status.rs:43-54 | after any records, for capacity at least 1: keys are the duplicate-free order, the last `cap` ids that entered, each with its last value |
| JobStatus.NothingEvictedWhileItFits | src-tauri/src/job_status.rs:43-60 | while the entries fit, the cache answers like an unbounded map |
| JobStatus.AnswersTheLatestWriter | src-tauri/src/lib.rs:104-105 | services that share the cache and count ids alike: a service reads its own record exactly if nobody wrote something else under that id since |
| JobStatus.ConsistentExactly | src-tauri/src/job_status.rs:43-54 | keys and order agree exactly if the capacity is not 0 or nothing was recorded |
| JobTraces.JobService.StartBakeJob | src-tauri/src/bake.rs:152-187 | a bake starts only on an active rack with both flags claimed and the rack captured; without a thread the flags go down again |
| JobTraces.JobService.RunBakeJob | src-tauri/src/bake.rs:204-290 | running ticks, the events of the outcome, one terminal tick after the flags are down and the job is unregistered; document and rack as FinishBake or AbandonBake leave them |
| JobTraces.JobService.StartNormalizeJob | src-tauri/src/normalize.rs:126-190 | without a thread the flag stays up and the job stays registered |
| JobTraces.JobService.RunNormalizeJob | src-tauri/src/normalize.rs:215-410 | the same trace for peak and loudness normalize, with the result before the terminal tick |
| JobTraces.JobService.RunExportJob | src-tauri/src/export.rs:248-338 | the same trace for exports; the cache holds what each tick said |
| JobTraces.JobService.RunLoudnessJob | src-tauri/src/loudness.rs:256-307 | the same trace for measurements |
| JobTraces.TicksArriveInOrder | src-tauri/src/bake.rs:204-271 | however job threads interleave, a job's ticks arrive as its thread sent them |
| JobTraces.OneTerminalTick | src-tauri/src/bake.rs:204-271 | so a listener sees running ticks and then exactly one terminal tick |
| JobTraces.JobsSay | src-tauri/src/bake.rs:204-290 | before its last tick a job says that the document changed exactly if it landed, its result exactly if it has one, an error exactly if it failed, each once |
| JobTraces.JobsEnd | src-tauri/src/bake.rs:204-290 | it ends as done exactly if work and commit went through, as cancelled exactly if it was cancelled |
| Text.SplitJoins | scripts/docs/check.py:395-415 | splitting at newlines and joining gives back the text |
| LineLaws.StripIs | scripts/help/generate.py:107-113 | stripping takes away exactly the white space around a text |
| Fences.SplitFences | scripts/docs/check.py:104-136 | blocks are exactly the fenced blocks in order; every other line is kept and every fenced one blank, at its own index |
| Fences.OnePassIsInside | scripts/docs/check.py:395-415 | the one-pass fence state of the mask agrees with the nested loop of the splitter on every line |
| Fences.BlankFromBlanks | scripts/docs/check.py:139-143 | blanking code spans keeps every offset and only ever writes spaces |
| Fences.MaskCode | scripts/docs/check.py:395-415 | keeps length and newlines, blanks exactly the fenced lines and the code spans, so offsets in the mask slice the text |
| LineLaws.FenceRead | scripts/docs/check.py:101-120 | a fence line is at most three spaces, three or more of one marker, and what follows; nothing else |
| LineLaws.ClosingRead | scripts/docs/check.py:104-136 | a line closes a fence exactly with the same marker, at least as long, and nothing behind it |
| LineLaws.LongestSpan | scripts/docs/check.py:139-143 | a code span begins with the longest run of back-ticks that is closed and ends with the first that closes it |
| LineLaws.SpanRead | scripts/docs/check.py:139-143 | text without back-ticks stays, a span in it is blanked whole, and what follows is treated the same way |
| Masking.MaskConcat | scripts/docs/check.py:395-415 | a text that leaves no fence open, a line break and another text are masked one by one |
| Masking.MaskPrefix | scripts/docs/check.py:395-415 | up to a character it leaves visible, a text is masked as if it ended there, with no fence open |
| Masking.MaskSuffix | scripts/docs/check.py:395-415 | from a character it leaves visible, a text is masked as if it began there |
| Masking.MaskSplices | scripts/docs/check.py:395-437 | exchanging a stretch between two visible characters for text that closes its fences leaves the mask outside it as it was |
| Sections.FindSections | scripts/docs/check.py:418-428 | the sections are those of the BEGIN markers in the masked text, each with the next END marker of its name |
| Sections.ReplaceSection | scripts/docs/check.py:431-435 | the text with the first section of that name exchanged, or which marker or section is missing |
| Sections.MarkerLocal | scripts/docs/check.py:83-84 | whether and where a marker stops depends on its own characters only, dashes given back to the closing arrow included |
| MarkerLaws.BeginRead | scripts/docs/check.py:83-84 | a written BEGIN marker is found with its name, white space or none in its gaps, and ends behind its arrow |
| MarkerLaws.EndRead | scripts/docs/check.py:83-84 | a written END marker is found by its name |
| MarkerLaws.ContentTrimmed | scripts/docs/check.py:431-435 | of the content written, exactly the newlines at its end do not count |
| Regeneration.OkExactly | scripts/docs/check.py:418-428 | the scan succeeds exactly if every BEGIN marker has an END marker of its name behind it |
| Regeneration.FoundIsFirst | scripts/docs/check.py:418-435 | the section found by name is the one the first BEGIN marker of that name opens |
| Regeneration.WrittenTwice | scripts/docs/check.py:418-437 | with content that closes its fences and shows no marker, writing a section again changes nothing; it succeeds exactly if every section begun earlier ends outside the one replaced |
| Regeneration.WrittenIsRead | scripts/docs/check.py:636-675 | what was written is exactly what the next check reads between the markers |
| Regeneration.OverlapIsRefused | scripts/docs/check.py:418-437 | a document whose second section can be written once and is refused afterwards |
| Blocks.FenceIsNothingElse | scripts/help/generate.py:53-60 | a fence line is no blank line, table row or list item |
| LineLaws.HeadingRead | scripts/help/generate.py:51-52 | one to three hashes, white space and a title, with or without closing hashes, are a heading of that level and title; more hashes are none |
| LineLaws.BulletRead | scripts/help/generate.py:54-54 | a bullet, white space and a text are an item with that text |
| LineLaws.NumberRead | scripts/help/generate.py:55-55 | so are digits, a point, white space and a text |
| LineLaws.ItemsRead | scripts/help/generate.py:185-217 | a written list reads back as its items in order, each joined by spaces from its own lines |
| LineLaws.CellsRead | scripts/help/generate.py:107-113 | a written table row reads back as its cells in order, each stripped |
| LineLaws.SeparatorRead | scripts/help/generate.py:58-58 | dashes with colons or not are a separator cell exactly from two dashes on |
| BlockParser.ReadItems | scripts/help/generate.py:185-217 | a list reaches as far as it can, continuation lines joined to their item |
| BlockParser.ReadBlock | scripts/help/generate.py:152-227 | each block is what its lines say, reaches as far as it can, and no earlier rule took its first line |
| BlockParser.ParseBlocks | scripts/help/generate.py:131-227 | the blocks tile the text and its code blocks are, in order, the blocks of the fence splitter |
| BlockParser.EveryLineOnce | scripts/help/generate.py:131-227 | every line lies in exactly one block or is blank between blocks |
| HeadingIds.IdsDistinctExactly | scripts/help/generate.py:138-144 | heading ids are distinct exactly if no heading's slug spells out a numbered id that a repetition uses |
| HeadingIds.NumberedIdTaken | scripts/help/generate.py:138-144 | three headings whose ids clash |
| Brackets.BracketProblems | scripts/docs/check.py:279-298 | reports nothing exactly if the stripped text is balanced, else the first bad closer or exactly the unmatched openers |
| Brackets.FirstBadMeans | scripts/docs/check.py:283-298 | the reported closer is the first character after which nothing can complete the text |
| Brackets.LeavesIsScan | scripts/docs/check.py:283-298 | the stack at any point is the only split into openers and balanced stretches |
| Brackets.BracketsPair | scripts/docs/check.py:284-295 | the six bracket characters are exactly the source's, and a pair balances exactly if it is one of the three |
| Brackets.BalancedIffNothingOpen | scripts/docs/check.py:283-298 | the stack machine accepts exactly the balanced texts, defined by nesting |
| Brackets.StripQuotedDoes | scripts/docs/check.py:279-280 | quoted stretches are emptied, and text outside quotes and behind a lone quote stays |
| Collisions.BuildIndex | scripts/check_case_collisions.py:66-78 | the index lists under each lowered candidate exactly the paths that have it |
| Collisions.CandidatesExactly | scripts/check_case_collisions.py:50-62 | a path answers exactly to its own name and, unless it is a declaration file, to what becomes it with `.ts` behind it |
| Collisions.ReportPairs | scripts/check_case_collisions.py:78-88 | the inner loops report every pair of one entry, none twice |
| Collisions.FindCollisions | scripts/check_case_collisions.py:53-89 | each unordered pair is reported exactly once, exactly if the candidates meet ignoring case, with a shared name, in sorted order |
| Sorting.SortSorts | scripts/check_case_collisions.py:66-89 | the sorting the report relies on sorts, for any total order |

## Left out

- ClipboardSafety.RunKeepsClipInv: commands are whole steps, so it does not cover two commands interleaved between their locks; `LateRebind`, `CloseBeforeRebind` and `LateMaterialize` treat the two places where that matters.
- Deadlock.SomeThreadCanStep: only locks are modelled, not mutex poisoning after a panic or waiting for a thread to finish.
- ClipboardSafety.StepKeepsClipInv: compaction keeps what the clipboard reaches; in the source it reads the clipboard once before up to three rounds, and a clip copied after that and trimmed away in a later round is not modelled. `EditAlgebra.PasteDoes` says what a paste does with any store.
- Document.SingleReplace: documents hold samples; only pieces on the clipboard are tables, and which table lies under a range is a parameter.
- DocumentServices.DocumentService.OpenDocument: importing the file and classifying its sidecar happen before, over several locks; here they are parameters of one atomic step.
- DocumentServices.DocumentService.CommitTake: what a take becomes (its window, crossfades, markers set meanwhile) is one arbitrary edit.
- DocumentServices.DocumentService.CommitTakeOp: the same; the window arithmetic of record operations is not modelled.
- DocumentServices.DocumentService.TrimUndoHistory: one round of the disk check; how many entries to drop, and the compaction after it, are left out.
- DocumentServices.DocumentService.BeginSaving: permission, space and confirmation checks are one parameter.
- JobTraces.JobService.RunNormalizeJob: straight-line, as RunBakeJob; `FlagOwnership.EndedJobHoldsNoFlag` says what holds at the terminal tick when others step in between.
- JobTraces.JobService.RunBakeJob: progress throttling and the moment a cancel is seen are parameters; which fractions are reported is not constrained.
- NoiseCapture.RunPipeline: the job's events are not modelled; it sends its warnings after the terminal tick, so the trace theorem of the other jobs does not hold for it.
- Collisions.FindCollisions: lower-casing is a parameter, and the reported shared name depends on the iteration order of a set in the source when several are shared.
- BlockParser.ParseBlocks: the heading slug is a parameter, and only ASCII digits start an ordered list.
- StampSafety.ChangedOnDiskExactly: a stamp stands for size and modification time, is new with every write and read together with it; the source cannot tell two writes apart that leave equal ones.
- Reopening.OpensWith: names count as normalised, and the kinds a file's markers take over from an outdated sidecar come with `fileMarkers`.
- SaveRuns.CleanFileHoldsTheDocument: digests, permission and space checks, clip, WAV-size, multichannel and metadata confirmations are one outcome of the start of a save.
- Sections.FindSections: only ASCII word characters can stand in a section's name.
- Regeneration.WrittenTwice: says nothing about content that itself shows markers or leaves a fence open.
- ImportPeaks.ImportPeaks: levels are computed from samples, not from lower levels; the pyramid cache and silence pieces are left out.
- Recovery: replaying a journal is not modelled; a recovered session is any history that agrees with a ledger of its own, under a fresh session id.
- Housekeeping: compaction and the copying of chunks keep the document's samples by assumption; only the trimming of the undo stack is modelled.
- Chunk sharing, journaled chunks and piece merging; importing a clip either gives its samples, resampled ones of any content, or fails.
- Integers are unbounded; saturating additions and 32-bit casts in the source are not modelled.
- Samples are real numbers: codecs, dither, resampling, loudness filters and rounding are not modelled.
- View state, notices' texts, settings, device polling and the Tauri commands around the service.
