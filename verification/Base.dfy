/** Result types shared by every module of the model. */
module Wrappers {
  datatype Option<+T> = None | Some(value: T)

  datatype Result<+T, +E> = Ok(value: T) | Err(error: E)
}

/** Mono audio as a value. A sample is a real number: codecs, dither and rounding are not modelled. */
module Audio {
  type Sample = real
  type Samples = seq<Sample>

  /** Digital silence: exact zeros, no storage. */
  function Silence(n: nat): (r: Samples)
    ensures |r| == n
    ensures forall i :: 0 <= i < n ==> r[i] == 0.0
  {
    seq(n, _ => 0.0)
  }

  /** `a` with `[at, at + removeLen)` replaced by `insert`: what a piece-table delta means. */
  function Splice(a: Samples, at: nat, removeLen: nat, insert: Samples): (r: Samples)
    requires at + removeLen <= |a|
    ensures |r| == |a| - removeLen + |insert|
  {
    a[..at] + insert + a[at + removeLen..]
  }

  /** Putting a removed range back where it was restores the signal. */
  lemma SpliceRestores(a: Samples, at: nat, len: nat)
    requires at + len <= |a|
    ensures Splice(Splice(a, at, len, []), at, 0, a[at..at + len]) == a
  {
    var cut := Splice(a, at, len, []);
    assert cut[..at] == a[..at];
    assert cut[at..] == a[at + len..];
  }
}

/** The effects rack as the document service sees it: an opaque model it loads and snapshots. */
module Racks {
  datatype Slot = Slot(moduleId: string, bypass: bool, settings: string)

  type Rack = seq<Slot>

  /** A rack has something to bake when at least one slot is not bypassed. */
  predicate IsActive(rack: Rack) {
    exists i :: 0 <= i < |rack| && !rack[i].bypass
  }
}
