/**
 * The effects chain as a machine that takes one sample, at a known position, and gives one sample
 * back (crates/rack: the realtime chain is the offline one). What the modules compute is left open.
 */
module Chains {
  import opened Audio

  datatype Machine<!S> = Machine(
    init: S,
    next: (S, Sample, nat) -> S,
    out: (S, Sample, nat) -> Sample,
    fails: S -> bool)

  /** The state after `xs`, the first of which is at position `pos`. */
  function After<S>(m: Machine<S>, s: S, xs: Samples, pos: nat): S
    decreases |xs|
  {
    if xs == [] then s else After(m, m.next(s, xs[0], pos), xs[1..], pos + 1)
  }

  function Outputs<S>(m: Machine<S>, s: S, xs: Samples, pos: nat): (r: Samples)
    ensures |r| == |xs|
    decreases |xs|
  {
    if xs == [] then [] else [m.out(s, xs[0], pos)] + Outputs(m, m.next(s, xs[0], pos), xs[1..], pos + 1)
  }

  /** Some slot reports a failure on the way through `xs`. */
  predicate Fails<S>(m: Machine<S>, s: S, xs: Samples, pos: nat)
    decreases |xs|
  {
    xs != [] && (m.fails(m.next(s, xs[0], pos)) || Fails(m, m.next(s, xs[0], pos), xs[1..], pos + 1))
  }

  /** Running in two pieces is running in one. */
  lemma {:induction false} RunsSplit<S>(m: Machine<S>, s: S, xs: Samples, ys: Samples, pos: nat)
    ensures After(m, s, xs + ys, pos) == After(m, After(m, s, xs, pos), ys, pos + |xs|)
    ensures Outputs(m, s, xs + ys, pos) == Outputs(m, s, xs, pos) + Outputs(m, After(m, s, xs, pos), ys, pos + |xs|)
    ensures Fails(m, s, xs + ys, pos) == (Fails(m, s, xs, pos) || Fails(m, After(m, s, xs, pos), ys, pos + |xs|))
    decreases |xs|
  {
    if xs == [] {
      assert xs + ys == ys;
    } else {
      assert (xs + ys)[1..] == xs[1..] + ys;
      RunsSplit(m, m.next(s, xs[0], pos), xs[1..], ys, pos + 1);
    }
  }

  /** The outputs of a prefix are the prefix of the outputs. */
  lemma RunsPrefix<S>(m: Machine<S>, s: S, xs: Samples, n: nat, pos: nat)
    requires n <= |xs|
    ensures Outputs(m, s, xs[..n], pos) == Outputs(m, s, xs, pos)[..n]
    ensures Outputs(m, After(m, s, xs[..n], pos), xs[n..], pos + n) == Outputs(m, s, xs, pos)[n..]
    ensures After(m, s, xs, pos) == After(m, After(m, s, xs[..n], pos), xs[n..], pos + n)
    ensures Fails(m, s, xs, pos) == (Fails(m, s, xs[..n], pos) || Fails(m, After(m, s, xs[..n], pos), xs[n..], pos + n))
  {
    assert xs == xs[..n] + xs[n..];
    RunsSplit(m, s, xs[..n], xs[n..], pos);
  }

  /** The part `[first, last)` of a run, without what came before it: equal once the states agree. */
  lemma RunsFromThere<S>(m: Machine<S>, s: S, whole: Samples, first: nat, skip: nat, last: nat)
    requires first + skip <= last <= |whole|
    requires After(m, After(m, s, whole[..first], 0), whole[first..first + skip], first)
          == After(m, s, whole[first..first + skip], first)
    ensures Outputs(m, s, whole[first..last], first)[skip..] == Outputs(m, s, whole, 0)[first + skip..last]
  {
    hide After, Outputs;
    var there, part := After(m, s, whole[..first], 0), whole[first..last];
    assert part[..skip] == whole[first..first + skip];
    RunsPrefix(m, s, part, skip, first);
    RunsPrefix(m, there, part, skip, first);
    assert Outputs(m, s, part, first)[skip..] == Outputs(m, there, part, first)[skip..];
    RunsPrefix(m, s, whole, last, 0);
    assert whole[..last][..first] == whole[..first] && whole[..last][first..] == part;
    RunsPrefix(m, s, whole[..last], first, 0);
    var all := Outputs(m, s, whole, 0);
    assert all[..last][first..] == Outputs(m, there, part, first);
    assert all[..last][first..][skip..] == all[first + skip..last];
  }

  // --- Kinds of chain ---------------------------------------------------------------------------------

  /** After `memory` samples nothing is left of what came before them. */
  ghost predicate Forgets<S(!new)>(m: Machine<S>, memory: nat) {
    forall s, t, xs: Samples, pos: nat :: |xs| >= memory ==> After(m, s, xs, pos) == After(m, t, xs, pos)
  }

  /** The transport position plays no part. */
  ghost predicate Timeless<S(!new)>(m: Machine<S>) {
    && (forall s, x, p: nat, q: nat :: m.next(s, x, p) == m.next(s, x, q))
    && (forall s, x, p: nat, q: nat :: m.out(s, x, p) == m.out(s, x, q))
  }

  lemma {:induction false} TimelessRuns<S(!new)>(m: Machine<S>, s: S, xs: Samples, p: nat, q: nat)
    requires Timeless(m)
    ensures After(m, s, xs, p) == After(m, s, xs, q) && Outputs(m, s, xs, p) == Outputs(m, s, xs, q)
    decreases |xs|
  {
    if xs != [] {
      var x := xs[0];
      assert m.next(s, x, p) == m.next(s, x, q) && m.out(s, x, p) == m.out(s, x, q);
      TimelessRuns(m, m.next(s, xs[0], p), xs[1..], p + 1, q + 1);
    }
  }

  /** A chain that only delays: sample `i` comes out `latency` samples later. */
  ghost predicate Delays<S(!new)>(m: Machine<S>, latency: nat) {
    forall xs: Samples, i: nat :: i < |xs| ==>
      Outputs(m, m.init, xs, 0)[i] == if i < latency then 0.0 else xs[i - latency]
  }

  /** There is one: a queue of `latency` samples. */
  function DelayLine(latency: nat): Machine<Samples> {
    Machine(Silence(latency), (q, x, _) => (q + [x])[1..], (q, x, _) => (q + [x])[0], _ => false)
  }

  lemma {:induction false} DelayLineRuns(latency: nat, q: Samples, xs: Samples, pos: nat)
    ensures Outputs(DelayLine(latency), q, xs, pos) == (q + xs)[..|xs|]
    decreases |xs|
  {
    if xs != [] {
      var m := DelayLine(latency);
      var next := (q + [xs[0]])[1..];
      DelayLineRuns(latency, next, xs[1..], pos + 1);
      assert next + xs[1..] == (q + xs)[1..];
    }
  }

  lemma DelayLineDelays(latency: nat)
    ensures Delays(DelayLine(latency), latency)
  {
    forall xs: Samples, i: nat | i < |xs|
      ensures Outputs(DelayLine(latency), Silence(latency), xs, 0)[i] == if i < latency then 0.0 else xs[i - latency]
    {
      DelayLineRuns(latency, Silence(latency), xs, 0);
    }
  }

  // --- Rendering, all at once -------------------------------------------------------------------------

  /** The whole signal, then `latency` zeros. */
  function Padded(xs: Samples, latency: nat): (r: Samples)
    ensures |r| == |xs| + latency
  {
    xs + Silence(latency)
  }

  /** Run everything, drop the latency, keep the input's length. */
  function Batch<S>(m: Machine<S>, xs: Samples, latency: nat): (r: Samples)
    ensures |r| == |xs|
  {
    Outputs(m, m.init, Padded(xs, latency), 0)[latency..latency + |xs|]
  }

  /** Latency compensation is exact: a chain that only delays by its latency renders its input. */
  lemma DelayRendersInput<S(!new)>(m: Machine<S>, xs: Samples, latency: nat)
    requires Delays(m, latency)
    ensures Batch(m, xs, latency) == xs
  {
    var all := Outputs(m, m.init, Padded(xs, latency), 0);
    forall i | 0 <= i < |xs| ensures Batch(m, xs, latency)[i] == xs[i] {
      assert all[latency + i] == Padded(xs, latency)[i];
    }
  }
}
