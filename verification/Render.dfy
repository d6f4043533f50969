/**
 * The block-wise renderers: `render_processed` (src-tauri/src/loudness.rs) hands time-aligned slices
 * to a sink as it goes, `render` and `run_window` (crates/rack/src/offline.rs) do the same for whole
 * files and for ranges. All are compared with running the machine over everything at once.
 */
module Render {
  import opened Wrappers
  import opened Audio
  import opened Chains

  /** A chain instance: its state, and whether a slot failed since that was last taken. */
  class Chain<!S> {
    const machine: Machine<S>
    var state: S
    var failed: bool

    constructor (m: Machine<S>)
      ensures machine == m && state == m.init && !failed
    {
      machine, state, failed := m, m.init, false;
    }

    /** Processes the first `n` samples of `inbuf` into `outbuf`. */
    method Process(pos: nat, inbuf: array<Sample>, outbuf: array<Sample>, n: nat)
      requires n <= inbuf.Length && n <= outbuf.Length && inbuf != outbuf
      modifies this, outbuf
      ensures state == After(machine, old(state), inbuf[..n], pos)
      ensures outbuf[..n] == Outputs(machine, old(state), inbuf[..n], pos)
      ensures failed == (old(failed) || Fails(machine, old(state), inbuf[..n], pos))
    {
      var i := 0;
      while i < n
        invariant i <= n
        invariant state == After(machine, old(state), inbuf[..i], pos)
        invariant outbuf[..i] == Outputs(machine, old(state), inbuf[..i], pos)
        invariant failed == (old(failed) || Fails(machine, old(state), inbuf[..i], pos))
      {
        var x := inbuf[i];
        RunsSplit(machine, old(state), inbuf[..i], [x], pos);
        assert inbuf[..i + 1] == inbuf[..i] + [x];
        assert [x][1..] == [];
        outbuf[i] := machine.out(state, x, pos + i);
        state := machine.next(state, x, pos + i);
        failed := failed || machine.fails(state);
        i := i + 1;
      }
    }
  }

  /** Fills `inbuf[..n]` with `xs` from `pos` on, then zeros. */
  method FillBlock(inbuf: array<Sample>, xs: Samples, latency: nat, pos: nat, n: nat)
    requires n <= inbuf.Length && pos + n <= |xs| + latency
    modifies inbuf
    ensures inbuf[..n] == Padded(xs, latency)[pos..pos + n]
  {
    var i := 0;
    while i < n
      invariant i <= n
      invariant inbuf[..i] == Padded(xs, latency)[pos..pos + i]
    {
      inbuf[i] := if pos + i < |xs| then xs[pos + i] else 0.0;
      i := i + 1;
    }
  }

  /** How a render ends. `Panicked`: the slice that copies the input starts past its end. */
  datatype Outcome = Done | Cancelled | SlotFailed | SinkFailed | Panicked

  function Concat(chunks: seq<Samples>): Samples
    decreases |chunks|
  {
    if chunks == [] then [] else Concat(chunks[..|chunks| - 1]) + chunks[|chunks| - 1]
  }

  lemma ConcatSnoc(chunks: seq<Samples>, chunk: Samples)
    ensures Concat(chunks + [chunk]) == Concat(chunks) + chunk
  {
    assert (chunks + [chunk])[..|chunks|] == chunks;
  }

  /** The output positions below `pos` that belong to the time-aligned signal. */
  function Kept(all: Samples, latency: nat, len: nat, pos: nat): Samples
    requires |all| == latency + len && pos <= |all|
  {
    if pos <= latency then [] else all[latency..pos]
  }

  /** One block more keeps exactly the slice handed to the sink. */
  lemma KeptGrows(all: Samples, latency: nat, len: nat, pos: nat, n: nat, part: Samples)
    requires |all| == latency + len && pos + n <= |all| && part == all[pos..pos + n]
    ensures var from := if pos >= latency then pos else latency;
            Kept(all, latency, len, pos + n) ==
              Kept(all, latency, len, pos) + (if from < pos + n then part[from - pos..n] else [])
  {
    var from := if pos >= latency then pos else latency;
    if from < pos + n {
      SliceOfSlice(all, pos, pos + n, from - pos, n);
      assert pos > latency ==> all[latency..pos + n] == all[latency..pos] + all[pos..pos + n];
    }
  }

  lemma KeptEnd(all: Samples, latency: nat, len: nat)
    requires |all| == latency + len
    ensures Kept(all, latency, len, 0) == [] && Kept(all, latency, len, |all|) == all[latency..latency + len]
  {}

  /** What the sink has is a prefix of the batch render, in the end all of it. */
  lemma KeptOfBatch<S>(m: Machine<S>, samples: Samples, latency: nat, pos: nat)
    requires pos <= |samples| + latency
    ensures var all := Outputs(m, m.init, Padded(samples, latency), 0);
            && Kept(all, latency, |samples|, pos) <= Batch(m, samples, latency)
            && (pos == |samples| + latency ==> Kept(all, latency, |samples|, pos) == Batch(m, samples, latency))
            && Kept(all, latency, |samples|, 0) == []
  {}

  lemma NothingYet<S>(m: Machine<S>, input: Samples, base: nat)
    ensures After(m, m.init, input[..0], base) == m.init && !Fails(m, m.init, input[..0], base)
    ensures input[..|input|] == input
  {}

  /** Some block starts strictly between the end of the input and the end of the flush. */
  predicate StartsPastInput(len: nat, latency: nat, block: nat)
    requires block > 0
  {
    (len / block + 1) * block < len + latency
  }

  lemma Scaled(a: nat, b: nat, block: nat)
    requires a <= b
    ensures a * block <= b * block
  {}

  lemma QuotientBelow(len: nat, block: nat, k: nat)
    requires block > 0 && len < k * block
    ensures len / block < k
  {
    if k <= len / block {
      Scaled(k, len / block, block);
      assert false;
    }
  }

  /** Where block number `blocks` starts. */
  function Start(blocks: nat, block: nat): nat {
    blocks * block
  }

  lemma Starts(blocks: nat, block: nat)
    ensures Start(0, block) == 0 && Start(blocks + 1, block) == Start(blocks, block) + block
  {}

  lemma FirstStartPastInput(len: nat, latency: nat, block: nat, blocks: nat)
    requires block > 0 && len < Start(blocks, block) < len + latency
    ensures StartsPastInput(len, latency, block)
  {
    QuotientBelow(len, block, blocks);
    Scaled(len / block + 1, blocks, block);
  }

  /** Every block started within the input, so the first start past it lies beyond the flush. */
  lemma NoStartPastInput(len: nat, latency: nat, block: nat, blocks: nat)
    requires block > 0 && len + latency <= Start(blocks, block)
    requires blocks > 0 ==> Start(blocks - 1, block) <= len
    ensures !StartsPastInput(len, latency, block)
  {
    var k := len / block;
    if k + 1 < blocks {
      Scaled(k + 1, blocks - 1, block);
      assert false;
    }
    Scaled(blocks, k + 1, block);
  }

  /** One block of a run that began at position `base`: the state and outputs of the whole signal. */
  method RenderBlock<S>(
    chain: Chain<S>, inbuf: array<Sample>, outbuf: array<Sample>, samples: Samples, latency: nat, base: nat, pos: nat,
    n: nat)
    returns (part: Samples)
    requires n <= inbuf.Length && n <= outbuf.Length && inbuf != outbuf && pos + n <= |samples| + latency
    requires chain.state == After(chain.machine, chain.machine.init, Padded(samples, latency)[..pos], base)
    requires !chain.failed && !Fails(chain.machine, chain.machine.init, Padded(samples, latency)[..pos], base)
    modifies chain, inbuf, outbuf
    ensures chain.state == After(chain.machine, chain.machine.init, Padded(samples, latency)[..pos + n], base)
    ensures part == Outputs(chain.machine, chain.machine.init, Padded(samples, latency), base)[pos..pos + n]
    ensures chain.failed == Fails(chain.machine, chain.machine.init, Padded(samples, latency)[..pos + n], base)
    ensures chain.failed ==> Fails(chain.machine, chain.machine.init, Padded(samples, latency), base)
  {
    FillBlock(inbuf, samples, latency, pos, n);
    chain.Process(base + pos, inbuf, outbuf, n);
    BlockRuns(chain.machine, Padded(samples, latency), base, pos, n);
    if chain.failed {
      FailsEarly(chain.machine, Padded(samples, latency), base, pos + n);
    }
    part := outbuf[..n];
  }

  /**
   * The streaming render. `cancelAt`: the block before which the flag is seen; `sinkTakes`: how many
   * slices the sink accepts. Whatever happens, what the sink got is a prefix of the batch render; if
   * nothing interferes it is all of it, except that the input slice panics when a block starts past
   * the input's end.
   */
  method RenderProcessed<S>(
    chain: Chain<S>, samples: Samples, latency: nat, block: nat, cancelAt: Option<nat>, sinkTakes: Option<nat>)
    returns (r: Outcome, chunks: seq<Samples>)
    requires block > 0 && chain.state == chain.machine.init && !chain.failed
    modifies chain
    ensures var batch := Batch(chain.machine, samples, latency);
            Concat(chunks) <= batch && (r.Done? ==> Concat(chunks) == batch)
    ensures r.Done? ==> !Fails(chain.machine, chain.machine.init, Padded(samples, latency), 0)
    ensures r.SlotFailed? ==> Fails(chain.machine, chain.machine.init, Padded(samples, latency), 0)
    ensures r.Panicked? ==> StartsPastInput(|samples|, latency, block)
    ensures r.Done? ==> !StartsPastInput(|samples|, latency, block)
    ensures (r.Cancelled? ==> cancelAt.Some?) && (r.SinkFailed? ==> sinkTakes.Some?)
    ensures forall i :: 0 <= i < |chunks| ==> 0 < |chunks[i]| <= block
  {
    hide Concat, Kept, After, Outputs, Fails, Batch, Start, StartsPastInput, Padded, Delivered;
    chunks := [];
    var total := |samples| + latency;
    ghost var m, input := chain.machine, Padded(samples, latency);
    ghost var all := Outputs(m, m.init, input, 0);
    var inbuf := new Sample[block](_ => 0.0);
    var outbuf := new Sample[block](_ => 0.0);
    var pos := 0;
    var blocks := 0;
    NothingYet(m, input, 0);
    Starts(0, block);
    NothingDelivered(all, latency, |samples|, block);
    while pos < total
      invariant pos <= total && pos <= Start(blocks, block) && (pos < total ==> pos == Start(blocks, block))
      invariant blocks > 0 ==> Start(blocks - 1, block) <= |samples|
      invariant chain.state == After(m, m.init, input[..pos], 0)
      invariant !chain.failed && !Fails(m, m.init, input[..pos], 0)
      invariant Delivered(chunks, all, latency, |samples|, pos, block)
      decreases total - pos
    {
      DeliveredIsPrefix(m, samples, latency, chunks, pos, block);
      if cancelAt == Some(blocks) {
        return Cancelled, chunks;
      }
      var n := if block <= total - pos then block else total - pos;
      if pos > |samples| {
        FirstStartPastInput(|samples|, latency, block, blocks);
        return Panicked, chunks;
      }
      var part := RenderBlock(chain, inbuf, outbuf, samples, latency, 0, pos, n);
      if chain.failed {
        return SlotFailed, chunks;
      }
      var from := if pos >= latency then pos else latency;
      DeliveredGrows(chunks, all, latency, |samples|, pos, n, block, part);
      if from < pos + n {
        if sinkTakes == Some(|chunks|) {
          return SinkFailed, chunks;
        }
        chunks := chunks + [part[from - pos..n]];
      }
      Starts(blocks, block);
      pos := pos + n;
      blocks := blocks + 1;
    }
    NoStartPastInput(|samples|, latency, block, blocks);
    DeliveredIsPrefix(m, samples, latency, chunks, total, block);
    NothingYet(m, input, 0);
    return Done, chunks;
  }

  /** The slices handed over so far are what is kept of the first `pos` outputs, in pieces of a block. */
  ghost predicate Delivered(chunks: seq<Samples>, all: Samples, latency: nat, len: nat, pos: nat, block: nat)
    requires |all| == latency + len && pos <= |all|
  {
    && Concat(chunks) == Kept(all, latency, len, pos)
    && forall i :: 0 <= i < |chunks| ==> 0 < |chunks[i]| <= block
  }

  lemma NothingDelivered(all: Samples, latency: nat, len: nat, block: nat)
    requires |all| == latency + len
    ensures Delivered([], all, latency, len, 0, block)
  {
    NoChunks();
    KeptEnd(all, latency, len);
  }

  lemma DeliveredGrows(chunks: seq<Samples>, all: Samples, latency: nat, len: nat, pos: nat, n: nat, block: nat, part: Samples)
    requires |all| == latency + len && pos + n <= |all| && n <= block && part == all[pos..pos + n]
    requires Delivered(chunks, all, latency, len, pos, block)
    ensures var from := if pos >= latency then pos else latency;
            Delivered(if from < pos + n then chunks + [part[from - pos..n]] else chunks, all, latency, len, pos + n, block)
  {
    hide Concat, Kept;
    KeptGrows(all, latency, len, pos, n, part);
    var from := if pos >= latency then pos else latency;
    if from < pos + n {
      ConcatSnoc(chunks, part[from - pos..n]);
    }
  }

  lemma DeliveredIsPrefix<S>(m: Machine<S>, samples: Samples, latency: nat, chunks: seq<Samples>, pos: nat, block: nat)
    requires pos <= |samples| + latency
    requires Delivered(chunks, Outputs(m, m.init, Padded(samples, latency), 0), latency, |samples|, pos, block)
    ensures Concat(chunks) <= Batch(m, samples, latency)
    ensures pos == |samples| + latency ==> Concat(chunks) == Batch(m, samples, latency)
    ensures forall i :: 0 <= i < |chunks| ==> 0 < |chunks[i]| <= block
  {
    hide Concat, Kept, Batch;
    KeptOfBatch(m, samples, latency, pos);
  }

  lemma NoChunks()
    ensures Concat([]) == []
  {}

  /** One block of the run, seen from the whole of it. */
  lemma BlockRuns<S>(m: Machine<S>, input: Samples, base: nat, pos: nat, n: nat)
    requires pos + n <= |input|
    ensures var s, part := After(m, m.init, input[..pos], base), input[pos..pos + n];
            && After(m, s, part, base + pos) == After(m, m.init, input[..pos + n], base)
            && Outputs(m, s, part, base + pos) == Outputs(m, m.init, input, base)[pos..pos + n]
            && Fails(m, m.init, input[..pos + n], base) ==
                 (Fails(m, m.init, input[..pos], base) || Fails(m, s, part, base + pos))
  {
    assert input[..pos + n] == input[..pos] + input[pos..pos + n];
    RunsSplit(m, m.init, input[..pos], input[pos..pos + n], base);
    RunsPrefix(m, m.init, input, pos + n, base);
  }

  lemma FailsEarly<S>(m: Machine<S>, input: Samples, base: nat, n: nat)
    requires n <= |input| && Fails(m, m.init, input[..n], base)
    ensures Fails(m, m.init, input, base)
  {
    RunsPrefix(m, m.init, input, n, base);
  }

  /**
   * The condition in numbers: some latency that no input of this length can be rendered with. With
   * the application's 4096-frame blocks it needs a latency above what is left of the input's block.
   */
  lemma PanicNeedsLatency(len: nat, latency: nat, block: nat)
    requires block > 0
    ensures StartsPastInput(len, latency, block) <==> latency > block - len % block
  {
    assert len == len / block * block + len % block;
  }

  /** The ACX check's buffer: the slices in order. */
  method RenderToBuffer<S>(chain: Chain<S>, samples: Samples, latency: nat, block: nat, cancelAt: Option<nat>)
    returns (r: Outcome, buffer: Samples)
    requires block > 0 && chain.state == chain.machine.init && !chain.failed
    modifies chain
    ensures buffer <= Batch(chain.machine, samples, latency)
    ensures r.Done? ==> buffer == Batch(chain.machine, samples, latency)
    ensures cancelAt.None? && !Fails(chain.machine, chain.machine.init, Padded(samples, latency), 0) ==>
              r == if StartsPastInput(|samples|, latency, block) then Panicked else Done
  {
    var chunks;
    r, chunks := RenderProcessed(chain, samples, latency, block, cancelAt, None);
    buffer := [];
    var i := 0;
    while i < |chunks|
      invariant i <= |chunks|
      invariant buffer == Concat(chunks[..i])
    {
      assert chunks[..i + 1] == chunks[..i] + [chunks[i]];
      ConcatSnoc(chunks[..i], chunks[i]);
      buffer := buffer + chunks[i];
      i := i + 1;
    }
    assert chunks[..|chunks|] == chunks;
  }

  /** The whole-file render: the same loop with the guard the streaming one lacks, so no length panics. */
  method RenderOffline<S>(chain: Chain<S>, samples: Samples, latency: nat, block: nat)
    returns (r: Option<Samples>)
    requires block > 0 && chain.state == chain.machine.init && !chain.failed
    modifies chain
    ensures r == if Fails(chain.machine, chain.machine.init, Padded(samples, latency), 0) then None
                 else Some(Batch(chain.machine, samples, latency))
  {
    var input := Padded(samples, latency);
    var total := |samples| + latency;
    ghost var m := chain.machine;
    var inbuf := new Sample[block](_ => 0.0);
    var outbuf := new Sample[block](_ => 0.0);
    var out: Samples := [];
    var pos := 0;
    while pos < total
      invariant pos <= total
      invariant chain.state == After(m, m.init, input[..pos], 0)
      invariant !chain.failed && !Fails(m, m.init, input[..pos], 0)
      invariant out == Outputs(m, m.init, input, 0)[..pos]
    {
      var n := if block <= total - pos then block else total - pos;
      var part := RenderBlock(chain, inbuf, outbuf, samples, latency, 0, pos, n);
      if chain.failed {
        return None;
      }
      out := out + part;
      pos := pos + n;
    }
    assert input[..total] == input;
    assert out == Outputs(m, m.init, input, 0);
    return Some(out[latency..latency + |samples|]);
  }

  // --- Ranges ---------------------------------------------------------------------------------------

  /** How long a slot rings. */
  datatype Tail = Samples(n: nat) | Infinite

  function TailSum(tails: seq<Tail>): nat
    requires Infinite !in tails
    decreases |tails|
  {
    if tails == [] then 0 else TailSum(tails[..|tails| - 1]) + tails[|tails| - 1].n
  }

  function Clamp(n: nat, low: nat, high: nat): nat
    requires low <= high
  {
    if n < low then low else if n > high then high else n
  }

  /** The pre-roll wanted before a range, for the tails of the slots that are not bypassed. */
  method PreRollSamples(tails: seq<Tail>, low: nat, high: nat) returns (r: nat)
    requires low <= high
    ensures low <= r <= high
    ensures r == if Infinite in tails then high else Clamp(TailSum(tails), low, high)
  {
    var sum := 0;
    for i := 0 to |tails|
      invariant if Infinite in tails[..i] then sum >= high else sum == TailSum(tails[..i])
    {
      assert tails[..i + 1] == tails[..i] + [tails[i]];
      assert tails[..i + 1][..i] == tails[..i];
      match tails[i]
      case Samples(n) => sum := sum + n;
      case Infinite => sum := high;
    }
    assert tails[..|tails|] == tails;
    r := Clamp(sum, low, high);
  }

  /** A range of a signal, the context read around it, and the latency to trim. */
  datatype Window = Window(start: nat, len: nat, preRoll: nat, postRoll: nat, latency: nat) {
    predicate Fits(signal: Samples) {
      && preRoll <= start
      && start + len <= |signal|
      && postRoll == (if |signal| - (start + len) < latency then |signal| - (start + len) else latency)
    }

    /** What the render reads. */
    function Input(signal: Samples): Samples
      requires Fits(signal)
    {
      signal[start - preRoll..start + len + postRoll]
    }
  }

  method PlanWindow(tails: seq<Tail>, low: nat, high: nat, latency: nat, start: nat, len: nat, signalLen: nat)
    returns (w: Window)
    requires low <= high
    ensures w.start == start && w.len == len && w.latency == latency
    ensures forall signal: Samples :: |signal| == signalLen && start + len <= signalLen ==> w.Fits(signal)
    ensures w.preRoll == start || w.preRoll == (if Infinite in tails then high else Clamp(TailSum(tails), low, high))
    ensures w.preRoll <= start && w.preRoll <= (if Infinite in tails then high else Clamp(TailSum(tails), low, high))
    ensures signalLen <= start + len ==> w.postRoll == 0
  {
    var wanted := PreRollSamples(tails, low, high);
    var rest := if signalLen < start + len then 0 else signalLen - (start + len);
    w := Window(start, len, if start < wanted then start else wanted, if rest < latency then rest else latency, latency);
  }

  /** The range's output, from a chain that only saw the window. */
  function Windowed<S>(m: Machine<S>, w: Window, signal: Samples): (r: Samples)
    requires w.Fits(signal)
    ensures |r| == w.len
  {
    var fed := Padded(w.Input(signal), w.latency - w.postRoll);
    Outputs(m, m.init, fed, w.start - w.preRoll)[w.preRoll + w.latency..w.preRoll + w.latency + w.len]
  }

  method RunWindow<S>(chain: Chain<S>, w: Window, signal: Samples, block: nat) returns (r: Option<Samples>)
    requires block > 0 && w.Fits(signal) && chain.state == chain.machine.init && !chain.failed
    modifies chain
    ensures r.Some? ==> r.value == Windowed(chain.machine, w, signal)
    ensures r.None? <==>
              Fails(chain.machine, chain.machine.init, Padded(w.Input(signal), w.latency - w.postRoll), w.start - w.preRoll)
  {
    hide After, Outputs, Fails, Kept, Padded;
    var first := w.start - w.preRoll;
    var total := w.preRoll + w.len + w.latency;
    var keepFrom := w.preRoll + w.latency;
    var keepTo := keepFrom + w.len;
    var read, flush := w.Input(signal), w.latency - w.postRoll;
    ghost var m, fed := chain.machine, Padded(read, flush);
    ghost var all := Outputs(m, m.init, fed, first);
    var inbuf := new Sample[block](_ => 0.0);
    var outbuf := new Sample[block](_ => 0.0);
    var out: Samples := [];
    var pos := 0;
    NothingYet(m, fed, first);
    KeptEnd(all, keepFrom, w.len);
    while pos < total
      invariant pos <= total
      invariant chain.state == After(m, m.init, fed[..pos], first)
      invariant !chain.failed && !Fails(m, m.init, fed[..pos], first)
      invariant out == Kept(all, keepFrom, w.len, pos)
    {
      var n := if block <= total - pos then block else total - pos;
      var part := RenderBlock(chain, inbuf, outbuf, read, flush, first, pos, n);
      if chain.failed {
        return None;
      }
      KeptGrows(all, keepFrom, w.len, pos, n, part);
      var from := if pos < keepFrom then keepFrom else pos;
      var to := if pos + n < keepTo then pos + n else keepTo;
      if from < to {
        out := out + part[from - pos..to - pos];
      }
      pos := pos + n;
    }
    NothingYet(m, fed, first);
    KeptEnd(all, keepFrom, w.len);
    return Some(out);
  }

  /**
   * A range rendered alone equals the same range of the whole render, for any latency, if the chain's
   * memory fits into the pre-roll or the pre-roll reaches the start of the signal.
   */
  lemma WindowIsPartOfWhole<S(!new)>(m: Machine<S>, w: Window, signal: Samples, memory: nat)
    requires w.Fits(signal) && (w.preRoll == w.start || (Forgets(m, memory) && memory <= w.preRoll))
    ensures Windowed(m, w, signal) == Batch(m, signal, w.latency)[w.start..w.start + w.len]
  {
    hide After, Outputs, Forgets, Padded;
    var whole, first := Padded(signal, w.latency), w.start - w.preRoll;
    var last := w.start + w.len + w.latency;
    var fed := Padded(w.Input(signal), w.latency - w.postRoll);
    FedIsPartOfWhole(w, signal);
    StatesAgree(m, whole, first, w.start, memory);
    RunsFromThere(m, m.init, whole, first, w.preRoll, last);
    var all, alone := Outputs(m, m.init, whole, 0), Outputs(m, m.init, fed, first);
    SameSlice(all, alone, w, |signal|);
  }

  /** The planned pre-roll is enough for a chain that rings no longer than its slots say. */
  lemma PlannedWindowIsExact<S(!new)>(m: Machine<S>, w: Window, signal: Samples, tails: seq<Tail>, low: nat, high: nat)
    requires low <= high && w.Fits(signal)
    requires Infinite !in tails && TailSum(tails) <= high && Forgets(m, TailSum(tails))
    requires w.preRoll == w.start || w.preRoll == Clamp(TailSum(tails), low, high)
    ensures Windowed(m, w, signal) == Batch(m, signal, w.latency)[w.start..w.start + w.len]
  {
    hide Windowed, Batch, Forgets;
    WindowIsPartOfWhole(m, w, signal, TailSum(tails));
  }

  /** The window's input and its zeros are a stretch of the whole signal and its zeros. */
  lemma FedIsPartOfWhole(w: Window, signal: Samples)
    requires w.Fits(signal)
    ensures Padded(w.Input(signal), w.latency - w.postRoll) ==
            Padded(signal, w.latency)[w.start - w.preRoll..w.start + w.len + w.latency]
  {}

  lemma SameSlice(all: Samples, alone: Samples, w: Window, len: nat)
    requires w.preRoll <= w.start && w.start + w.len <= len && |all| == len + w.latency
    requires |alone| == w.preRoll + w.len + w.latency
    requires alone[w.preRoll..] == all[w.start..w.start + w.len + w.latency]
    ensures alone[w.preRoll + w.latency..w.preRoll + w.latency + w.len] ==
            all[w.latency..w.latency + len][w.start..w.start + w.len]
  {
    SliceOfSlice(alone, w.preRoll, |alone|, w.latency, w.latency + w.len);
    SliceOfSlice(all, w.start, w.start + w.len + w.latency, w.latency, w.latency + w.len);
    SliceOfSlice(all, w.latency, w.latency + len, w.start, w.start + w.len);
  }

  lemma SliceOfSlice(s: Samples, a: nat, b: nat, c: nat, d: nat)
    requires a + d <= b <= |s| && c <= d
    ensures s[a..b][c..d] == s[a + c..a + d]
    ensures b == |s| ==> s[a..][c..d] == s[a + c..a + d]
  {
    forall i | 0 <= i < d - c ensures s[a..b][c..d][i] == s[a + c..a + d][i] {
      assert s[a..b][c + i] == s[a + c + i];
    }
  }

  /** By the start of the range the chain is where it would be, had it run from the beginning. */
  lemma StatesAgree<S(!new)>(m: Machine<S>, whole: Samples, first: nat, start: nat, memory: nat)
    requires first <= start <= |whole| && (first == 0 || (Forgets(m, memory) && memory <= start - first))
    ensures After(m, After(m, m.init, whole[..first], 0), whole[first..start], first)
         == After(m, m.init, whole[first..start], first)
  {
    if first == 0 {
      assert whole[..first] == [];
    }
  }
}
