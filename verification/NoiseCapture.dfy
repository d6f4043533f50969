/**
 * Capture Noise Print (src-tauri/src/nr_capture.rs): the excerpt a noise profile is learned from.
 * Rates are whole numbers of samples per second, so one second is `rate` samples.
 */
module NoiseCapture {
  import opened Wrappers
  import opened Audio
  import opened Chains
  import opened Render

  const CHUNK_SAMPLES: nat := 65536
  const MAX_CAPTURE_S: nat := 60

  datatype Warning = Short | Capped | Loud
  datatype CaptureError = TooShort | Silent | Cancelled | RenderFailed | CaptureFailed | ApplyFailed

  /** Where the analysis stops: the selection's first minute at most. */
  function AnalysedEnd(start: nat, end: nat, rate: nat): (r: nat)
    requires start <= end
    ensures start <= r <= end
    ensures rate > 0 ==> r - start <= MAX_CAPTURE_S * rate
    ensures end - start <= 60 * rate || rate == 0 ==> r == end
    ensures 0 < 60 * rate < end - start ==> r == start + 60 * rate
  {
    if MAX_CAPTURE_S * rate > 0 && end - start > MAX_CAPTURE_S * rate then start + MAX_CAPTURE_S * rate else end
  }

  /** One second before the selection if anything precedes the slot, clipped to the document. */
  function PreRoll(start: nat, rate: nat, upstreamEmpty: bool): (r: nat)
    ensures r <= start && r <= rate
    ensures !upstreamEmpty ==> r == start || r == rate
    ensures upstreamEmpty ==> r == 0
  {
    if upstreamEmpty then 0 else if rate < start then rate else start
  }

  /** Reads `[start, end)` chunk by chunk, clipped at the end of the document. */
  method ReadRange(doc: Samples, start: nat, end: nat) returns (samples: Samples)
    requires start <= end
    ensures samples == if start <= |doc| then doc[start..if end <= |doc| then end else |doc|] else []
  {
    samples := [];
    var pos := start;
    while pos < end
      invariant start <= pos <= end
      invariant pos <= |doc| ==> samples == doc[start..pos]
      invariant pos > |doc| ==> pos == start && samples == []
    {
      var want := if end - pos < CHUNK_SAMPLES then end - pos else CHUNK_SAMPLES;
      var n := if pos >= |doc| then 0 else if |doc| - pos < want then |doc| - pos else want;
      if n == 0 {
        break;
      }
      samples := samples + doc[pos..pos + n];
      pos := pos + n;
    }
  }

  /** What the module will learn from. */
  function Excerpt<S>(m: Option<Machine<S>>, doc: Samples, start: nat, stop: nat, preRoll: nat, latency: nat): (r: Samples)
    requires preRoll <= start <= stop <= |doc|
    ensures |r| == stop - start
  {
    match m
    case None => doc[start..stop]
    case Some(machine) => Batch(machine, doc[start - preRoll..stop], latency)[preRoll..]
  }

  predicate AllZero(samples: Samples) {
    forall i :: 0 <= i < |samples| ==> samples[i] == 0.0
  }

  /**
   * The job's pipeline. `cancelAt`: which of its five polls sees the flag; `captures` and `applies`:
   * whether the module's analysis and the engine's installation succeed; `loud`: the level check.
   */
  method RunPipeline<S>(
    upstream: Option<Chain<S>>, latency: nat, doc: Samples, rate: nat, start: nat, end: nat, minSamples: nat,
    loud: Samples -> bool, cancelAt: Option<nat>, captures: bool, applies: bool)
    returns (r: Result<seq<Warning>, CaptureError>, learned: Option<Samples>)
    requires start < end <= |doc|
    requires upstream.Some? ==> upstream.value.state == upstream.value.machine.init && !upstream.value.failed
    modifies if upstream.Some? then {upstream.value} else {}
    ensures var m := if upstream.Some? then Some(upstream.value.machine) else None;
            var stop, preRoll := AnalysedEnd(start, end, rate), PreRoll(start, rate, upstream.None?);
            var excerpt := Excerpt(m, doc, start, stop, preRoll, latency);
            var read := doc[start - preRoll..stop];
            var renders := m.Some? ==> !Fails(m.value, m.value.init, Padded(read, latency), 0);
            var heard := !AllZero(excerpt);
            var untilPoll := (n: nat) => cancelAt.None? || cancelAt.value >= n;
            && (r.Ok? <==> untilPoll(5) && minSamples <= end - start && renders && heard && captures && applies)
            && (learned.Some? <==> untilPoll(4) && minSamples <= end - start && renders && heard)
            && (r == Err(TooShort) <==> untilPoll(1) && end - start < minSamples)
            && (r == Err(RenderFailed) <==> untilPoll(3) && minSamples <= end - start && !renders)
            && (r == Err(Silent) <==> untilPoll(3) && minSamples <= end - start && renders && !heard)
            && (r == Err(CaptureFailed) <==> learned.Some? && !captures)
            && (r == Err(ApplyFailed) <==> learned.Some? && captures && untilPoll(5) && !applies)
            && (learned.Some? ==> learned.value == excerpt)
            && (r.Ok? ==>
                  && (Short in r.value <==> end - start < rate)
                  && (Capped in r.value <==> stop < end)
                  && (Loud in r.value <==> loud(excerpt)))
            && (r == Err(CaptureError.Cancelled) ==> cancelAt.Some?)
  {
    hide AllZero, Excerpt, Padded, Fails;
    learned := None;
    if cancelAt == Some(0) {
      return Err(CaptureError.Cancelled), None;
    }
    if end - start < minSamples {
      return Err(TooShort), None;
    }
    var warnings: seq<Warning> := [];
    if end - start < rate {
      warnings := warnings + [Short];
    }
    var stop := AnalysedEnd(start, end, rate);
    if stop < end {
      warnings := warnings + [Capped];
    }
    var preRoll := PreRoll(start, rate, upstream.None?);
    if cancelAt == Some(1) {
      return Err(CaptureError.Cancelled), None;
    }
    var read := ReadRange(doc, start - preRoll, stop);
    if cancelAt == Some(2) {
      return Err(CaptureError.Cancelled), None;
    }
    var rendered := RenderExcerpt(upstream, doc, start, stop, preRoll, latency, read);
    if rendered.None? {
      return Err(RenderFailed), None;
    }
    var excerpt := rendered.value;
    var silent := IsSilent(excerpt);
    if silent {
      return Err(Silent), None;
    }
    if loud(excerpt) {
      warnings := warnings + [Loud];
    }
    if cancelAt == Some(3) {
      return Err(CaptureError.Cancelled), None;
    }
    if !captures {
      return Err(CaptureFailed), Some(excerpt);
    }
    if cancelAt == Some(4) {
      return Err(CaptureError.Cancelled), Some(excerpt);
    }
    if !applies {
      return Err(ApplyFailed), Some(excerpt);
    }
    return Ok(warnings), Some(excerpt);
  }

  /** What was read, through the slots in front if there are any. */
  method RenderExcerpt<S>(
    upstream: Option<Chain<S>>, doc: Samples, start: nat, stop: nat, preRoll: nat, latency: nat, read: Samples)
    returns (r: Option<Samples>)
    requires preRoll <= start <= stop <= |doc| && read == doc[start - preRoll..stop]
    requires upstream.None? ==> preRoll == 0
    requires upstream.Some? ==> upstream.value.state == upstream.value.machine.init && !upstream.value.failed
    modifies if upstream.Some? then {upstream.value} else {}
    ensures var m := if upstream.Some? then Some(upstream.value.machine) else None;
            && (r.Some? <==> m.Some? ==> !Fails(m.value, m.value.init, Padded(read, latency), 0))
            && (r.Some? ==> r.value == Excerpt(m, doc, start, stop, preRoll, latency))
  {
    if upstream.None? {
      return Some(read);
    }
    var rendered := RenderOffline(upstream.value, read, latency, 4096);
    if rendered.None? {
      return None;
    }
    return Some(rendered.value[preRoll..]);
  }

  method IsSilent(samples: Samples) returns (r: bool)
    ensures r <==> AllZero(samples)
  {
    for i := 0 to |samples|
      invariant forall j :: 0 <= j < i ==> samples[j] == 0.0
    {
      if samples[i] != 0.0 {
        return false;
      }
    }
    return true;
  }

  // --- What the excerpt is an excerpt of --------------------------------------------------------------

  /** The chain at the end of the excerpt, had it run from the beginning of the document. */
  function AtCut<S>(m: Machine<S>, doc: Samples, stop: nat): S
    requires stop <= |doc|
  {
    After(m, m.init, doc[..stop], 0)
  }

  /** The `latency` samples a render of the whole document reads past `stop`. */
  function Ahead(doc: Samples, stop: nat, latency: nat): (r: Samples)
    requires stop <= |doc|
    ensures |r| == latency
  {
    Padded(doc[stop..], latency)[..latency]
  }

  /** What the chain gives for `xs` after the excerpt, as far as compensation brings it into the excerpt. */
  function Flushed<S>(m: Machine<S>, doc: Samples, start: nat, stop: nat, xs: Samples): Samples
    requires start <= stop <= |doc|
  {
    var n := if |xs| < stop - start then |xs| else stop - start;
    Outputs(m, AtCut(m, doc, stop), xs, stop)[|xs| - n..]
  }

  /** The chain forgets within the pre-roll, or the read reached the beginning. */
  ghost predicate Warm<S(!new)>(m: Machine<S>, start: nat, preRoll: nat, memory: nat) {
    preRoll == start || (Forgets(m, memory) && memory <= preRoll)
  }

  /**
   * The excerpt against the same stretch of a render from the very beginning, for any latency. Every
   * sample that is out of the chain before the cut is the same. All are exactly if the chain answers
   * the silence after the cut as it answers the samples that follow there.
   */
  lemma ExcerptIsPartOfWhole<S(!new)>(
    m: Machine<S>, doc: Samples, start: nat, stop: nat, preRoll: nat, latency: nat, memory: nat)
    requires preRoll <= start <= stop <= |doc| && Timeless(m) && Warm(m, start, preRoll, memory)
    ensures var excerpt, whole := Excerpt(Some(m), doc, start, stop, preRoll, latency), Batch(m, doc, latency)[start..stop];
            && (forall i :: 0 <= i && i + latency < stop - start ==> excerpt[i] == whole[i])
            && (excerpt == whole <==>
                  Flushed(m, doc, start, stop, Silence(latency)) == Flushed(m, doc, start, stop, Ahead(doc, stop, latency)))
  {
    hide Timeless, Forgets, After, Outputs, Padded;
    var body := Outputs(m, AtCut(m, doc, start), doc[start..stop], start);
    var silent, heard := Outputs(m, AtCut(m, doc, stop), Silence(latency), stop), Outputs(m, AtCut(m, doc, stop), Ahead(doc, stop, latency), stop);
    ExcerptRuns(m, doc, start, stop, preRoll, latency, memory);
    WholeRuns(m, doc, start, stop, latency);
    SameAfter(body, silent, heard, latency);
  }

  lemma ExcerptRuns<S(!new)>(
    m: Machine<S>, doc: Samples, start: nat, stop: nat, preRoll: nat, latency: nat, memory: nat)
    requires preRoll <= start <= stop <= |doc| && Timeless(m) && Warm(m, start, preRoll, memory)
    ensures Excerpt(Some(m), doc, start, stop, preRoll, latency) ==
            (Outputs(m, AtCut(m, doc, start), doc[start..stop], start)
             + Outputs(m, AtCut(m, doc, stop), Silence(latency), stop))[latency..]
  {
    hide Timeless, After, Outputs, Forgets, Warm, AtCut;
    var first, read := start - preRoll, doc[start - preRoll..stop];
    var fed := Padded(read, latency);
    TimelessRuns(m, m.init, fed, 0, first);
    RunsPrefix(m, m.init, fed, preRoll, first);
    assert fed[..preRoll] == doc[first..start] && fed[preRoll..] == doc[start..stop] + Silence(latency);
    WarmStates(m, doc, start, preRoll, memory);
    StateGrows(m, doc, start, stop);
    RunsSplit(m, AtCut(m, doc, start), doc[start..stop], Silence(latency), start);
    var alone := Outputs(m, m.init, fed, 0);
    SliceOfSlice(alone, latency, latency + |read|, preRoll, |read|);
    SliceOfSlice(alone, preRoll, |alone|, latency, latency + stop - start);
  }

  /** At the end of the pre-roll the chain is where it would be, had it run from the beginning. */
  lemma WarmStates<S(!new)>(m: Machine<S>, doc: Samples, start: nat, preRoll: nat, memory: nat)
    requires preRoll <= start <= |doc| && Warm(m, start, preRoll, memory)
    ensures After(m, m.init, doc[start - preRoll..start], start - preRoll) == AtCut(m, doc, start)
  {
    hide After, Outputs, Forgets;
    StatesAgree(m, doc, start - preRoll, start, memory);
    StateGrows(m, doc, start - preRoll, start);
  }

  lemma WholeRuns<S>(m: Machine<S>, doc: Samples, start: nat, stop: nat, latency: nat)
    requires start <= stop <= |doc|
    ensures Batch(m, doc, latency)[start..stop] ==
            (Outputs(m, AtCut(m, doc, start), doc[start..stop], start)
             + Outputs(m, AtCut(m, doc, stop), Ahead(doc, stop, latency), stop))[latency..]
  {
    hide After, Outputs;
    var whole := Padded(doc, latency);
    var all := Outputs(m, m.init, whole, 0);
    assert whole[..stop + latency] == doc[..stop] + Ahead(doc, stop, latency);
    RunsPrefix(m, m.init, whole, stop + latency, 0);
    RunsSplit(m, m.init, doc[..stop], Ahead(doc, stop, latency), 0);
    RunsPrefix(m, m.init, doc[..stop], start, 0);
    assert doc[..stop][..start] == doc[..start] && doc[..stop][start..] == doc[start..stop];
    assert all[..stop + latency][start..] == all[start..stop + latency];
    SliceOfSlice(all, latency, latency + |doc|, start, stop);
    SliceOfSlice(all, start, stop + latency, latency, latency + stop - start);
  }

  lemma StateGrows<S>(m: Machine<S>, doc: Samples, first: nat, last: nat)
    requires first <= last <= |doc|
    ensures AtCut(m, doc, last) == After(m, AtCut(m, doc, first), doc[first..last], first)
  {
    hide After, Outputs;
    RunsPrefix(m, m.init, doc[..last], first, 0);
    assert doc[..last][..first] == doc[..first] && doc[..last][first..] == doc[first..last];
  }

  /** Two continuations of one run, without its first `skip` samples. */
  lemma SameAfter(body: Samples, a: Samples, b: Samples, skip: nat)
    requires |a| == |b| == skip
    ensures var n := if skip < |body| then skip else |body|;
            && (forall i :: 0 <= i && i + skip < |body| ==> (body + a)[skip..][i] == (body + b)[skip..][i])
            && ((body + a)[skip..] == (body + b)[skip..] <==> a[skip - n..] == b[skip - n..])
  {
    var n := if skip < |body| then skip else |body|;
    var common := if skip < |body| then body[skip..] else [];
    assert (body + a)[skip..] == common + a[skip - n..] && (body + b)[skip..] == common + b[skip - n..];
    if common + a[skip - n..] == common + b[skip - n..] {
      assert a[skip - n..] == (common + a[skip - n..])[|common|..] == (common + b[skip - n..])[|common|..] == b[skip - n..];
    }
  }

  /** A chain without latency, or an excerpt that ends with the document, misses nothing. */
  lemma NothingMissed<S>(m: Machine<S>, doc: Samples, start: nat, stop: nat, latency: nat)
    requires start <= stop <= |doc| && (latency == 0 || stop == |doc|)
    ensures Flushed(m, doc, start, stop, Silence(latency)) == Flushed(m, doc, start, stop, Ahead(doc, stop, latency))
  {
    assert Ahead(doc, stop, latency) == Silence(latency);
  }

  /** The job's own numbers: a second of pre-roll covers any chain that forgets within a second. */
  lemma CaptureSeesTheDocument<S(!new)>(
    m: Machine<S>, doc: Samples, start: nat, end: nat, rate: nat, latency: nat, memory: nat)
    requires start < end <= |doc| && Timeless(m)
    requires start <= rate || (Forgets(m, memory) && memory <= rate)
    ensures var stop := AnalysedEnd(start, end, rate);
            var excerpt := Excerpt(Some(m), doc, start, stop, PreRoll(start, rate, false), latency);
            var whole := Batch(m, doc, latency)[start..stop];
            && (forall i :: 0 <= i && i + latency < stop - start ==> excerpt[i] == whole[i])
            && (latency == 0 || stop == |doc| ==> excerpt == whole)
  {
    hide Forgets, Timeless, Flushed;
    var stop := AnalysedEnd(start, end, rate);
    ExcerptIsPartOfWhole(m, doc, start, stop, PreRoll(start, rate, false), latency, memory);
    if latency == 0 || stop == |doc| {
      NothingMissed(m, doc, start, stop, latency);
    }
  }

  /** With nothing upstream the excerpt is the document itself. */
  lemma CaptureWithoutUpstream(doc: Samples, start: nat, end: nat, rate: nat)
    requires start < end <= |doc|
    ensures var stop := AnalysedEnd(start, end, rate);
            Excerpt<Samples>(None, doc, start, stop, PreRoll(start, rate, true), 0) == doc[start..stop]
  {}

  /** One sample of look-ahead: each output is the sum of a sample and the one after it. */
  const LookAhead: Machine<Samples> :=
    Machine([0.0], (q, x, _) => [x], (q, x, _) => if q == [] then x else q[0] + x, _ => false)

  /** Look-ahead needs the samples after the excerpt, which the job replaces with silence. */
  lemma LookAheadHearsTheCut()
    ensures Timeless(LookAhead) && Forgets(LookAhead, 1)
    ensures Excerpt(Some(LookAhead), [1.0, 1.0], 0, 1, 0, 1) != Batch(LookAhead, [1.0, 1.0], 1)[0..1]
  {
    forall s, t, xs: Samples, pos: nat | |xs| >= 1 ensures After(LookAhead, s, xs, pos) == After(LookAhead, t, xs, pos) {
      assert LookAhead.next(s, xs[0], pos) == LookAhead.next(t, xs[0], pos);
    }
    var doc := [1.0, 1.0];
    ExcerptIsPartOfWhole(LookAhead, doc, 0, 1, 0, 1, 1);
    assert doc[..1] == [1.0] && AtCut(LookAhead, doc, 1) == [1.0];
    assert Ahead(doc, 1, 1) == [1.0] && Silence(1) == [0.0];
    assert Outputs(LookAhead, [1.0], [0.0], 1)[0] == 1.0 && Outputs(LookAhead, [1.0], [1.0], 1)[0] == 2.0;
  }
}
