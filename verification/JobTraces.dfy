/**
 * What a job tells the world, in order (src-tauri/src/bake.rs, normalize.rs, export.rs, loudness.rs):
 * running ticks, then what happened, then exactly one terminal event. Each emitted event is logged
 * with what its receiver would find at that moment.
 */
module JobTraces {
  import opened Wrappers
  import opened Audio
  import opened Racks
  import opened EditOps
  import opened Document
  import S = Service
  import opened DocumentServices
  import opened JobStatus

  datatype Level = Info | Error

  datatype Event = Ticked(progress: Progress) | DocumentChanged | Notice(level: Level) | Result_(id: nat) | Report(id: nat)

  /** An event, and at its emission: the document's flags, the recovery cache's answer, the job map. */
  datatype Emitted = Emitted(event: Event, busy: bool, baking: bool, status: Option<Progress>, registered: bool)

  datatype PlanError = WasCancelled | Broke

  /** The state a job ends in, by how its work and its commit went. */
  function Ending<T, E>(work: Result<T, PlanError>, commit: Result<(), E>): JobState {
    match work
    case Err(WasCancelled) => Cancelled
    case Err(Broke) => Failed
    case Ok(_) => if commit.Ok? then Done else Failed
  }

  function FailedBy(e: PlanError): JobState {
    if e.WasCancelled? then Cancelled else Failed
  }

  predicate RunningTick(e: Emitted, id: nat, kind: JobKind) {
    e.event.Ticked? && e.event.progress.id == id && e.event.progress.kind == kind && e.event.progress.state == Running
  }

  /** Ticks that say "running", then `middle`, then one that says how it ended; nothing after it. */
  ghost predicate Traced(trace: seq<Emitted>, id: nat, kind: JobKind, final: JobState, middle: seq<Event>) {
    && |trace| > |middle|
    && var n := |trace| - 1 - |middle|;
       && (forall i :: 0 <= i < n ==> RunningTick(trace[i], id, kind))
       && (forall i :: 0 <= i < |middle| ==> trace[n + i].event == middle[i] && !middle[i].Ticked?)
       && var last := trace[|trace| - 1];
          && last.event.Ticked? && last.event.progress.id == id && last.event.progress.kind == kind
          && last.event.progress.state == final && final != Running
          && !last.registered
  }

  /** What each outcome is preceded by. */
  function Middle(kind: JobKind, id: nat, final: JobState, remark: bool): seq<Event> {
    match final
    case Running => []
    case Cancelled => []
    case Failed => [Notice(Error)]
    case Done =>
      match kind
      case BakeJob => [DocumentChanged, Notice(Info)]
      case PeakJob => [DocumentChanged] + (if remark then [Notice(Info)] else []) + [Result_(id)]
      case LufsJob => [DocumentChanged] + (if remark then [Notice(Info)] else []) + [Result_(id)]
      case ExportJob => [Notice(Info)]
      case LoudnessJob => [Report(id)]
  }

  /** What a job tells the interface before its last tick: that the document changed, its result, or what went wrong. */
  lemma JobsSay(kind: JobKind, id: nat, final: JobState, remark: bool)
    ensures var said := Middle(kind, id, final, remark);
            && (DocumentChanged in said <==> final == Done && (kind == BakeJob || kind == PeakJob || kind == LufsJob))
            && (Notice(Error) in said <==> final == Failed)
            && (Result_(id) in said <==> final == Done && (kind == PeakJob || kind == LufsJob))
            && (Report(id) in said <==> final == Done && kind == LoudnessJob)
            && (final == Done && (kind == BakeJob || kind == ExportJob) ==> Notice(Info) in said)
            && (forall i, j :: 0 <= i < j < |said| ==> said[i] != said[j])
            && (Result_(id) in said ==> said[0] == DocumentChanged && said[|said| - 1] == Result_(id))
  {}

  /** A job ends as done exactly if its work and its commit both went through, as cancelled exactly if it was. */
  lemma JobsEnd<T, E>(work: Result<T, PlanError>, commit: Result<(), E>)
    ensures Ending(work, commit) == Done <==> work.Ok? && commit.Ok?
    ensures Ending(work, commit) == Cancelled <==> work == Err(WasCancelled)
    ensures Ending(work, commit) != Running
    ensures work.Err? ==> Ending(work, commit) == FailedBy(work.error)
  {}

  /** The cache held, at each of its ticks, exactly what the tick said. */
  ghost predicate Remembered(trace: seq<Emitted>) {
    forall i :: 0 <= i < |trace| && trace[i].event.Ticked? ==> trace[i].status == Some(trace[i].event.progress)
  }

  /** `mids` carry the events of `middle`, none of them a tick. */
  ghost predicate Carry(mids: seq<Emitted>, middle: seq<Event>) {
    |mids| == |middle| && forall i :: 0 <= i < |mids| ==> mids[i].event == middle[i] && !middle[i].Ticked?
  }

  /** Running ticks, the events of `middle`, and a terminal tick make a trace. */
  lemma TracedFrom(ticks: seq<Emitted>, mids: seq<Emitted>, last: Emitted, id: nat, kind: JobKind, final: JobState, middle: seq<Event>)
    requires forall i :: 0 <= i < |ticks| ==> RunningTick(ticks[i], id, kind)
    requires Carry(mids, middle)
    requires last.event.Ticked? && last.event.progress.id == id && last.event.progress.kind == kind
    requires last.event.progress.state == final && final != Running && !last.registered
    ensures Traced(ticks + mids + [last], id, kind, final, middle)
  {
    var trace := ticks + mids + [last];
    forall i | 0 <= i < |middle| ensures trace[|ticks| + i].event == middle[i] {
      assert trace[|ticks| + i] == mids[i];
    }
  }

  /** If every tick was recorded before it went out, the cache agreed with each. */
  lemma RememberedFrom(ticks: seq<Emitted>, mids: seq<Emitted>, last: Emitted, middle: seq<Event>)
    requires forall i :: 0 <= i < |ticks| ==> ticks[i].event.Ticked? && ticks[i].status == Some(ticks[i].event.progress)
    requires Carry(mids, middle)
    requires last.event.Ticked? && last.status == Some(last.event.progress)
    ensures Remembered(ticks + mids + [last])
  {}

  class JobService {
    const documents: DocumentService
    const registry: JobStatusRegistry
    var jobs: set<nat>
    var nextId: nat
    var emitted: seq<Emitted>

    constructor (d: DocumentService, r: JobStatusRegistry)
      ensures documents == d && registry == r && jobs == {} && nextId == 1 && emitted == []
    {
      documents, registry, jobs, nextId, emitted := d, r, {}, 1, [];
    }

    method Emit(id: nat, event: Event)
      modifies this`emitted
      ensures emitted == old(emitted) +
                [Emitted(event, documents.normalizeBusy, documents.bakeRunning, registry.Get(id), id in jobs)]
    {
      emitted := emitted + [Emitted(event, documents.normalizeBusy, documents.bakeRunning, registry.Get(id), id in jobs)];
    }

    /** One place records a tick and emits it. */
    method Tick(id: nat, kind: JobKind, state: JobState, fraction: real)
      modifies this`emitted, registry
      ensures var p := Progress(id, kind, state, fraction);
              emitted == old(emitted) +
                [Emitted(Ticked(p), documents.normalizeBusy, documents.bakeRunning, Some(p), id in jobs)]
    {
      var p := Progress(id, kind, state, fraction);
      registry.Record(p);
      Emit(id, Ticked(p));
    }

    /** The work's progress callbacks. */
    method RunningTicks(id: nat, kind: JobKind, fractions: seq<real>) returns (ghost ticks: seq<Emitted>)
      modifies this`emitted, registry
      ensures emitted == old(emitted) + ticks && |ticks| == |fractions|
      ensures forall i :: 0 <= i < |ticks| ==> RunningTick(ticks[i], id, kind) && ticks[i].status == Some(ticks[i].event.progress)
    {
      ticks := [];
      for k := 0 to |fractions|
        invariant emitted == old(emitted) + ticks && |ticks| == k
        invariant forall i :: 0 <= i < |ticks| ==> RunningTick(ticks[i], id, kind) && ticks[i].status == Some(ticks[i].event.progress)
      {
        Tick(id, kind, Running, fractions[k]);
        ticks := ticks + [emitted[|emitted| - 1]];
      }
    }

    /** The reason goes out before the terminal tick; a cancellation gives none. */
    method FailJob(id: nat, kind: JobKind, cancelled: bool) returns (final: JobState, ghost mids: seq<Emitted>, ghost last: Emitted)
      modifies this`emitted, registry
      ensures final == if cancelled then Cancelled else Failed
      ensures emitted == old(emitted) + mids + [last]
      ensures forall remark :: Carry(mids, Middle(kind, id, final, remark))
      ensures Terminal(last, id, kind, final)
    {
      final := if cancelled then Cancelled else Failed;
      mids := [];
      if final == Failed {
        Emit(id, Notice(Error));
        mids := [emitted[|emitted| - 1]];
      }
      Tick(id, kind, final, 0.0);
      last := emitted[|emitted| - 1];
    }

    /** `e` is the terminal tick of job `id`, as the state now is. */
    ghost predicate Terminal(e: Emitted, id: nat, kind: JobKind, final: JobState)
      reads this, documents
    {
      && e.event.Ticked? && e.event.progress.id == id && e.event.progress.kind == kind && e.event.progress.state == final
      && e.busy == documents.normalizeBusy && e.baking == documents.bakeRunning
      && e.status == Some(e.event.progress) && e.registered == (id in jobs)
    }

    // --- Bake -----------------------------------------------------------------------------------------

    /** A bake whose thread cannot be spawned gives everything back except its cache entry. */
    method StartBakeJob(start: nat, end: nat, spawns: bool) returns (r: Result<(nat, S.JobSource, Rack), S.Error>)
      modifies this`jobs, this`nextId, documents, registry
      ensures documents.rack == old(documents.rack) && documents.open == old(documents.open)
      ensures r.Ok? ==>
                && IsActive(old(documents.rack)) && r.value.2 == old(documents.rack)
                && documents.Abs() == S.BeginBake(old(documents.Abs()), start, end).svc
                && r.value.0 == old(nextId) && r.value.0 in jobs
      ensures r.Err? ==> documents.Abs() == old(documents.Abs()) || (!spawns && documents.Abs() == S.AbandonBake(old(documents.Abs())))
      ensures r.Err? ==> jobs == old(jobs) - {old(nextId)} || jobs == old(jobs)
    {
      var model := documents.rack;
      if !IsActive(model) {
        return Err(S.RackInactive);
      }
      var source := documents.BeginBakeJob(start, end);
      if source.Err? {
        return Err(source.error);
      }
      var id := nextId;
      nextId := nextId + 1;
      jobs := jobs + {id};
      registry.Record(Progress(id, BakeJob, Running, 0.0));
      if !spawns {
        jobs := jobs - {id};
        documents.AbandonBakeJob();
        return Err(S.Io);
      }
      return Ok((id, source.value, model));
    }

    /** After the work: commit or release, then say so. */
    method ConcludeBake(id: nat, src: S.JobSource, model: Rack, plan: Result<Samples, PlanError>, io: bool)
      returns (final: JobState, ghost mids: seq<Emitted>, ghost last: Emitted)
      requires src.range.start <= src.range.end
      modifies this`emitted, documents, registry
      ensures emitted == old(emitted) + mids + [last]
      ensures final != Running && Carry(mids, Middle(BakeJob, id, final, false))
      ensures Terminal(last, id, BakeJob, final) && !last.busy && !last.baking
      ensures plan.Err? ==> documents.Abs() == S.AbandonBake(old(documents.Abs())) && final == FailedBy(plan.error)
      ensures plan.Ok? ==>
                var out := S.FinishBake(old(documents.Abs()), src, S.BakeEdit(src, plan.value, model), [], io);
                documents.Abs() == out.svc && final == (if out.reply.Ok? then Done else Failed)
    {
      hide S.FinishBake, S.BakeEdit;
      if plan.Err? {
        documents.AbandonBakeJob();
        final, mids, last := FailJob(id, BakeJob, plan.error.WasCancelled?);
      } else {
        var done := documents.FinishBakeJob(src, S.BakeEdit(src, plan.value, model), [], io);
        FinishingLowersFlags(old(documents.Abs()), src, S.BakeEdit(src, plan.value, model), io);
        if done.Ok? {
          Emit(id, DocumentChanged);
          Emit(id, Notice(Info));
          mids := emitted[|emitted| - 2..];
          Tick(id, BakeJob, Done, 1.0);
          last := emitted[|emitted| - 1];
          final := Done;
        } else {
          final, mids, last := FailJob(id, BakeJob, false);
        }
      }
    }

    /**
     * The bake's thread. At its terminal event both flags are down, the job map has let go of it and
     * the cache answers with that very event.
     */
    method RunBakeJob(id: nat, src: S.JobSource, model: Rack, fractions: seq<real>, plan: Result<Samples, PlanError>, io: bool)
      returns (final: JobState)
      requires src.range.start <= src.range.end
      modifies this`jobs, this`emitted, documents, registry
      ensures jobs == old(jobs) - {id}
      ensures old(emitted) <= emitted && old(emitted) != emitted
      ensures Traced(emitted[|old(emitted)|..], id, BakeJob, final, Middle(BakeJob, id, final, false))
      ensures Remembered(emitted[|old(emitted)|..])
      ensures !emitted[|emitted| - 1].busy && !emitted[|emitted| - 1].baking
      ensures plan.Err? ==> documents.Abs() == S.AbandonBake(old(documents.Abs())) && final == FailedBy(plan.error)
      ensures plan.Ok? ==>
                var out := S.FinishBake(old(documents.Abs()), src, S.BakeEdit(src, plan.value, model), [], io);
                documents.Abs() == out.svc && final == (if out.reply.Ok? then Done else Failed)
    {
      hide S.FinishBake, S.BakeEdit, S.AbandonBake, Traced, Remembered, Carry, Middle;
      ghost var ticks := RunningTicks(id, BakeJob, fractions);
      jobs := jobs - {id};
      ghost var mids, last;
      final, mids, last := ConcludeBake(id, src, model, plan, io);
      TracedFrom(ticks, mids, last, id, BakeJob, final, Middle(BakeJob, id, final, false));
      RememberedFrom(ticks, mids, last, Middle(BakeJob, id, final, false));
      assert emitted == old(emitted) + (ticks + mids + [last]);
    }

    // --- Normalize ------------------------------------------------------------------------------------

    /** Unlike a bake, a normalize job that gets no thread keeps the document busy and its token. */
    method StartNormalizeJob(kind: JobKind, start: nat, end: nat, spawns: bool) returns (r: Result<(nat, S.JobSource), S.Error>)
      modifies this`jobs, this`nextId, documents, registry
      ensures documents.Abs() == S.BeginNormalize(old(documents.Abs()), start, end).svc
      ensures var begun := S.BeginNormalize(old(documents.Abs()), start, end).reply;
              && (r.Ok? <==> begun.Ok? && spawns)
              && (begun.Err? ==> documents.Abs() == old(documents.Abs()) && jobs == old(jobs))
              && (begun.Ok? ==> documents.normalizeBusy && jobs == old(jobs) + {old(nextId)})
              && (r.Ok? ==> r.value == (old(nextId), begun.value))
    {
      var source := documents.BeginNormalizeJob(start, end);
      if source.Err? {
        return Err(source.error);
      }
      var id := nextId;
      nextId := nextId + 1;
      jobs := jobs + {id};
      registry.Record(Progress(id, kind, Running, 0.0));
      if !spawns {
        return Err(S.Io);
      }
      return Ok((id, source.value));
    }

    /** The document refresh, a remark, the result, and only then the end. */
    method SayNormalized(id: nat, kind: JobKind, remark: bool) returns (ghost mids: seq<Emitted>, ghost last: Emitted)
      requires kind == PeakJob || kind == LufsJob
      modifies this`emitted, registry
      ensures emitted == old(emitted) + mids + [last]
      ensures Carry(mids, Middle(kind, id, Done, remark))
      ensures Terminal(last, id, kind, Done)
    {
      Emit(id, DocumentChanged);
      mids := [emitted[|emitted| - 1]];
      if remark {
        Emit(id, Notice(Info));
        mids := mids + [emitted[|emitted| - 1]];
      }
      Emit(id, Result_(id));
      mids := mids + [emitted[|emitted| - 1]];
      Tick(id, kind, Done, 1.0);
      last := emitted[|emitted| - 1];
    }

    method ConcludeNormalize(
      id: nat, kind: JobKind, src: S.JobSource, plan: Result<S.NormalizePlan, PlanError>, remark: bool, io: bool)
      returns (final: JobState, ghost mids: seq<Emitted>, ghost last: Emitted)
      requires src.range.start <= src.range.end && (kind == PeakJob || kind == LufsJob)
      modifies this`emitted, documents, registry
      ensures emitted == old(emitted) + mids + [last]
      ensures final != Running && Carry(mids, Middle(kind, id, final, remark))
      ensures Terminal(last, id, kind, final) && !last.busy
      ensures plan.Err? ==> documents.Abs() == S.AbandonNormalize(old(documents.Abs())) && final == FailedBy(plan.error)
      ensures plan.Ok? ==>
                var out := S.FinishNormalize(old(documents.Abs()), src, plan.value, io);
                documents.Abs() == out.svc && final == (if out.reply.Ok? then Done else Failed)
    {
      hide S.FinishNormalize, S.AbandonNormalize;
      AbandoningLowersFlag(documents.Abs());
      if plan.Err? {
        documents.AbandonNormalizeJob();
        final, mids, last := FailJob(id, kind, plan.error.WasCancelled?);
      } else {
        var done := documents.FinishNormalizeJob(src, plan.value, io);
        NormalizingLowersFlag(old(documents.Abs()), src, plan.value, io);
        if done.Ok? {
          mids, last := SayNormalized(id, kind, remark);
          final := Done;
        } else {
          final, mids, last := FailJob(id, kind, false);
        }
      }
    }

    /** The thread of a peak or LUFS job. `remark`: the outcome comes with an information notice. */
    method RunNormalizeJob(
      id: nat, kind: JobKind, src: S.JobSource, fractions: seq<real>, plan: Result<S.NormalizePlan, PlanError>, remark: bool,
      io: bool)
      returns (final: JobState)
      requires src.range.start <= src.range.end && (kind == PeakJob || kind == LufsJob)
      modifies this`jobs, this`emitted, documents, registry
      ensures jobs == old(jobs) - {id}
      ensures old(emitted) <= emitted && old(emitted) != emitted
      ensures Traced(emitted[|old(emitted)|..], id, kind, final, Middle(kind, id, final, remark))
      ensures Remembered(emitted[|old(emitted)|..])
      ensures !emitted[|emitted| - 1].busy
      ensures plan.Err? ==> documents.Abs() == S.AbandonNormalize(old(documents.Abs())) && final == FailedBy(plan.error)
      ensures plan.Ok? ==>
                var out := S.FinishNormalize(old(documents.Abs()), src, plan.value, io);
                documents.Abs() == out.svc && final == (if out.reply.Ok? then Done else Failed)
    {
      hide S.FinishNormalize, S.AbandonNormalize, Traced, Remembered, Carry, Middle;
      ghost var ticks := RunningTicks(id, kind, fractions);
      jobs := jobs - {id};
      ghost var mids, last;
      final, mids, last := ConcludeNormalize(id, kind, src, plan, remark, io);
      TracedFrom(ticks, mids, last, id, kind, final, Middle(kind, id, final, remark));
      RememberedFrom(ticks, mids, last, Middle(kind, id, final, remark));
      assert emitted == old(emitted) + (ticks + mids + [last]);
    }

    // --- Export and loudness ----------------------------------------------------------------------------

    /** An export never touches the document; its notice precedes its terminal event either way. */
    method RunExportJob(id: nat, fractions: seq<real>, work: Result<(), PlanError>) returns (final: JobState)
      modifies this`jobs, this`emitted, registry
      ensures jobs == old(jobs) - {id}
      ensures final == Ending<(), S.Error>(work, Ok(()))
      ensures old(emitted) <= emitted && old(emitted) != emitted
      ensures Traced(emitted[|old(emitted)|..], id, ExportJob, final, Middle(ExportJob, id, final, false))
      ensures Remembered(emitted[|old(emitted)|..])
    {
      hide Traced, Remembered;
      ghost var ticks := RunningTicks(id, ExportJob, fractions);
      jobs := jobs - {id};
      ghost var mids: seq<Emitted> := [];
      final := Ending<(), S.Error>(work, Ok(()));
      if final == Failed {
        Emit(id, Notice(Error));
        mids := [emitted[|emitted| - 1]];
      }
      if final == Done {
        Emit(id, Notice(Info));
        mids := [emitted[|emitted| - 1]];
      }
      Tick(id, ExportJob, final, if final == Done then 1.0 else 0.0);
      ghost var last := emitted[|emitted| - 1];
      TracedFrom(ticks, mids, last, id, ExportJob, final, Middle(ExportJob, id, final, false));
      RememberedFrom(ticks, mids, last, Middle(ExportJob, id, final, false));
      assert emitted == old(emitted) + (ticks + mids + [last]);
    }

    /** The loudness job emits its ticks without recording them. */
    method RunLoudnessJob(id: nat, fractions: seq<real>, work: Result<(), PlanError>) returns (final: JobState)
      modifies this`jobs, this`emitted
      ensures jobs == old(jobs) - {id}
      ensures final == Ending<(), S.Error>(work, Ok(()))
      ensures old(emitted) <= emitted && old(emitted) != emitted
      ensures Traced(emitted[|old(emitted)|..], id, LoudnessJob, final, Middle(LoudnessJob, id, final, false))
    {
      hide Traced;
      ghost var ticks: seq<Emitted> := [];
      for k := 0 to |fractions|
        invariant emitted == old(emitted) + ticks && jobs == old(jobs)
        invariant forall i :: 0 <= i < |ticks| ==> RunningTick(ticks[i], id, LoudnessJob)
      {
        Emit(id, Ticked(Progress(id, LoudnessJob, Running, fractions[k])));
        ticks := ticks + [emitted[|emitted| - 1]];
      }
      jobs := jobs - {id};
      ghost var mids: seq<Emitted> := [];
      final := Ending<(), S.Error>(work, Ok(()));
      if final == Failed {
        Emit(id, Notice(Error));
        mids := [emitted[|emitted| - 1]];
      }
      if final == Done {
        Emit(id, Report(id));
        mids := [emitted[|emitted| - 1]];
      }
      Emit(id, Ticked(Progress(id, LoudnessJob, final, if final == Done then 1.0 else 0.0)));
      ghost var last := emitted[|emitted| - 1];
      TracedFrom(ticks, mids, last, id, LoudnessJob, final, Middle(LoudnessJob, id, final, false));
      assert emitted == old(emitted) + (ticks + mids + [last]);
    }
  }

  lemma FinishingLowersFlags(s: S.Svc, src: S.JobSource, edit: Edit, io: bool)
    ensures !S.FinishBake(s, src, edit, [], io).svc.normalizeBusy && !S.FinishBake(s, src, edit, [], io).svc.bakeRunning
  {}

  lemma AbandoningLowersFlag(s: S.Svc)
    ensures !S.AbandonNormalize(s).normalizeBusy
  {}

  lemma NormalizingLowersFlag(s: S.Svc, src: S.JobSource, plan: S.NormalizePlan, io: bool)
    requires src.range.start <= src.range.end
    ensures !S.FinishNormalize(s, src, plan, io).svc.normalizeBusy
  {}

  // --- Several jobs at once ---------------------------------------------------------------------------

  /** `all` is one order in which the threads' events may reach the world. */
  ghost predicate Interleaves(all: seq<(nat, Emitted)>, traces: map<nat, seq<Emitted>>)
    decreases |all|
  {
    if all == [] then forall id :: id in traces ==> traces[id] == []
    else
      var (id, e) := all[|all| - 1];
      && id in traces && traces[id] != [] && traces[id][|traces[id]| - 1] == e
      && Interleaves(all[..|all| - 1], traces[id := traces[id][..|traces[id]| - 1]])
  }

  /** Ticks of job `id` in the interleaved log, in order. */
  function TicksOf(all: seq<(nat, Emitted)>, id: nat): seq<Progress>
    decreases |all|
  {
    if all == [] then []
    else
      var e := all[|all| - 1].1.event;
      TicksOf(all[..|all| - 1], id) + (if e.Ticked? && e.progress.id == id then [e.progress] else [])
  }

  function TicksIn(trace: seq<Emitted>): seq<Progress>
    decreases |trace|
  {
    if trace == [] then []
    else
      var e := trace[|trace| - 1].event;
      TicksIn(trace[..|trace| - 1]) + (if e.Ticked? then [e.progress] else [])
  }

  /** Every thread ticks under its own id only. */
  ghost predicate OwnTicks(traces: map<nat, seq<Emitted>>) {
    forall id, i :: id in traces && 0 <= i < |traces[id]| && traces[id][i].event.Ticked? ==> traces[id][i].event.progress.id == id
  }

  /** However the threads interleave, the ticks of a job arrive as its own thread sent them. */
  lemma {:induction false} TicksArriveInOrder(all: seq<(nat, Emitted)>, traces: map<nat, seq<Emitted>>, id: nat)
    requires Interleaves(all, traces) && OwnTicks(traces) && id in traces
    ensures TicksOf(all, id) == TicksIn(traces[id])
    decreases |all|
  {
    if all != [] {
      var (thread, e) := all[|all| - 1];
      var rest := traces[thread := traces[thread][..|traces[thread]| - 1]];
      TicksArriveInOrder(all[..|all| - 1], rest, id);
    }
  }

  lemma {:induction false} TracedTicks(trace: seq<Emitted>, id: nat, kind: JobKind, n: nat)
    requires n <= |trace| && forall i :: 0 <= i < n ==> RunningTick(trace[i], id, kind)
    requires forall i :: n <= i < |trace| ==> !trace[i].event.Ticked?
    ensures |TicksIn(trace)| == n && forall p :: p in TicksIn(trace) ==> p.state == Running
    decreases |trace|
  {
    if trace != [] {
      TracedTicks(trace[..|trace| - 1], id, kind, if n == |trace| then n - 1 else n);
    }
  }

  /**
   * A receiver that watches one job among many sees running ticks, then exactly one terminal tick,
   * then nothing more from it.
   */
  lemma OneTerminalTick(
    all: seq<(nat, Emitted)>, traces: map<nat, seq<Emitted>>, id: nat, kind: JobKind, final: JobState, middle: seq<Event>)
    requires Interleaves(all, traces) && OwnTicks(traces) && id in traces && Traced(traces[id], id, kind, final, middle)
    ensures var ticks := TicksOf(all, id);
            && ticks != [] && ticks[|ticks| - 1].state == final != Running
            && forall i :: 0 <= i < |ticks| - 1 ==> ticks[i].state == Running
  {
    TicksArriveInOrder(all, traces, id);
    var trace := traces[id];
    var before := trace[..|trace| - 1];
    forall i | |before| - |middle| <= i < |before| ensures !before[i].event.Ticked? {
      assert trace[|before| - |middle| + (i - (|before| - |middle|))].event == middle[i - (|before| - |middle|)];
    }
    TracedTicks(before, id, kind, |before| - |middle|);
    assert TicksIn(trace) == TicksIn(before) + [trace[|trace| - 1].event.progress];
    forall i | 0 <= i < |TicksIn(before)| ensures TicksIn(before)[i].state == Running {
      assert TicksIn(before)[i] in TicksIn(before);
    }
  }
}
