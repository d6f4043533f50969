/**
 * Waveform peaks while a file is still being imported (src-tauri/src/document.rs `import_peaks`,
 * crates/project/src/peaks_query.rs). The document is the chunks committed so far; a chunk's peak
 * pyramid is fixed when it is committed.
 */
module ImportPeaks {
  import opened Wrappers
  import opened Audio

  datatype Bucket = Bucket(low: Sample, high: Sample)

  const ZERO := Bucket(0.0, 0.0)

  type Chunk = c: Samples | |c| > 0 witness [0.0]

  const RAW_SPP: nat := 1
  const LEVELS: set<nat> := {64, 256, 1024, 4096, 16384, 65536}

  /** Each level is four times as coarse as the one before, from 64 to 65536 samples per bucket. */
  lemma LevelsQuadruple(spp: nat)
    ensures 64 in LEVELS && 65536 in LEVELS && (spp in LEVELS ==> 64 <= spp <= 65536)
    ensures spp in LEVELS && spp != 65536 ==> 4 * spp in LEVELS
    ensures spp in LEVELS && spp != 64 ==> spp % 4 == 0 && spp / 4 in LEVELS
  {}

  predicate ValidSpp(spp: nat) {
    spp == RAW_SPP || spp in LEVELS
  }

  // --- What a peak is -------------------------------------------------------------------------------

  function Join(a: Option<Bucket>, b: Option<Bucket>): Option<Bucket> {
    match (a, b)
    case (None, _) => b
    case (_, None) => a
    case (Some(x), Some(y)) =>
      Some(Bucket(if x.low <= y.low then x.low else y.low, if x.high >= y.high then x.high else y.high))
  }

  /** The least and the greatest sample; `None` of nothing. */
  function Span(xs: Samples): (r: Option<Bucket>)
    ensures r.None? <==> xs == []
    decreases |xs|
  {
    if xs == [] then None
    else Join(Span(xs[..|xs| - 1]), Some(Bucket(xs[|xs| - 1], xs[|xs| - 1])))
  }

  lemma {:induction false} SpanJoins(xs: Samples, ys: Samples)
    ensures Span(xs + ys) == Join(Span(xs), Span(ys))
    decreases |ys|
  {
    if ys == [] {
      assert xs + ys == xs;
    } else {
      assert (xs + ys)[..|xs + ys| - 1] == xs + ys[..|ys| - 1];
      SpanJoins(xs, ys[..|ys| - 1]);
    }
  }

  lemma {:induction false} SpanCovers(xs: Samples, i: nat)
    requires i < |xs|
    ensures Span(xs).value.low <= xs[i] <= Span(xs).value.high
    decreases |xs|
  {
    if i < |xs| - 1 {
      SpanCovers(xs[..|xs| - 1], i);
    }
  }

  /** Both ends of a span are samples. */
  lemma {:induction false} SpanAttained(xs: Samples)
    requires xs != []
    ensures Span(xs).value.low in xs && Span(xs).value.high in xs
    decreases |xs|
  {
    var front := xs[..|xs| - 1];
    if front != [] {
      SpanAttained(front);
    }
    assert forall x :: x in front ==> x in xs;
    assert xs[|xs| - 1] in xs;
  }

  // --- One chunk ------------------------------------------------------------------------------------

  /** Where pyramid bucket `k` of a chunk of `len` samples ends. */
  function BucketEnd(k: nat, spp: nat, len: nat): nat {
    if (k + 1) * spp < len then (k + 1) * spp else len
  }

  lemma BucketBounds(k: nat, spp: nat, len: nat)
    requires spp > 0 && k * spp < len
    ensures k * spp < BucketEnd(k, spp, len) <= len
  {}

  /** Bucket `k` of a chunk's pyramid at `spp` samples per bucket. */
  function LevelBucket(chunk: Chunk, spp: nat, k: nat): Bucket
    requires spp > 0 && k * spp < |chunk|
  {
    BucketBounds(k, spp, |chunk|);
    Span(chunk[k * spp..BucketEnd(k, spp, |chunk|)]).value
  }

  /** The peaks of `[from, to)`, widened to whole pyramid buckets of its chunk. */
  function ChunkPeaks(chunk: Chunk, spp: nat, from: nat, to: nat): Option<Bucket>
    requires spp > 0 && from < to <= |chunk|
  {
    Rounding(spp, from, to, |chunk|);
    Span(chunk[from / spp * spp..BucketEnd((to - 1) / spp, spp, |chunk|)])
  }

  lemma Rounding(spp: nat, from: nat, to: nat, len: nat)
    requires spp > 0 && from < to <= len
    ensures from / spp * spp <= from && to <= BucketEnd((to - 1) / spp, spp, len) <= len
    ensures from / spp <= (to - 1) / spp && (to - 1) / spp * spp < len
  {
    assert (to - 1) / spp * spp <= to - 1 < ((to - 1) / spp + 1) * spp;
    if from / spp > (to - 1) / spp {
      Monotone((to - 1) / spp + 1, from / spp, spp);
      assert false;
    }
  }

  lemma Monotone(a: nat, b: nat, spp: nat)
    requires a <= b
    ensures a * spp <= b * spp
  {}

  lemma BelowLast(k: nat, last: nat, spp: nat, len: nat)
    requires k < last && last * spp < len
    ensures (k + 1) * spp < len && BucketEnd(k, spp, len) == (k + 1) * spp && k * spp <= (k + 1) * spp
  {
    Monotone(k + 1, last, spp);
  }

  /** One bucket more. */
  lemma BucketJoins(chunk: Chunk, spp: nat, low: nat, k: nat, last: nat)
    requires spp > 0 && low <= k * spp && k < last && last * spp < |chunk|
    ensures (k + 1) * spp < |chunk| && low <= (k + 1) * spp < BucketEnd(k + 1, spp, |chunk|) <= |chunk|
    ensures BucketEnd(k, spp, |chunk|) == (k + 1) * spp
    ensures Span(chunk[low..BucketEnd(k + 1, spp, |chunk|)]) ==
            Join(Span(chunk[low..(k + 1) * spp]), Some(LevelBucket(chunk, spp, k + 1)))
  {
    BelowLast(k, last, spp, |chunk|);
    BucketBounds(k + 1, spp, |chunk|);
    var mid, end := (k + 1) * spp, BucketEnd(k + 1, spp, |chunk|);
    assert chunk[low..end] == chunk[low..mid] + chunk[mid..end];
    SpanJoins(chunk[low..mid], chunk[mid..end]);
  }

  /** The union of the stored buckets that overlap the range. */
  method ChunkRangeUnion(chunk: Chunk, spp: nat, from: nat, len: nat) returns (r: Option<Bucket>)
    requires spp > 0 && from + len <= |chunk|
    ensures r == if len == 0 then None else ChunkPeaks(chunk, spp, from, from + len)
  {
    if len == 0 {
      return None;
    }
    Rounding(spp, from, from + len, |chunk|);
    r := BucketsUnion(chunk, spp, from / spp, (from + len - 1) / spp);
  }

  /** The union of buckets `first` to `last`. */
  method BucketsUnion(chunk: Chunk, spp: nat, first: nat, last: nat) returns (r: Option<Bucket>)
    requires spp > 0 && first <= last && last * spp < |chunk|
    ensures first * spp <= BucketEnd(last, spp, |chunk|) <= |chunk|
    ensures r == Span(chunk[first * spp..BucketEnd(last, spp, |chunk|)])
  {
    hide Span, BucketEnd, LevelBucket, Join;
    var k := first;
    var low := first * spp;
    r := Some(LevelBucketAt(chunk, spp, k, last));
    while k < last
      invariant first <= k <= last && low <= k * spp
      invariant low <= BucketEnd(k, spp, |chunk|) <= |chunk|
      invariant r == Span(chunk[low..BucketEnd(k, spp, |chunk|)])
    {
      BucketJoins(chunk, spp, low, k, last);
      r := Join(r, Some(LevelBucket(chunk, spp, k + 1)));
      k := k + 1;
    }
  }

  function LevelBucketAt(chunk: Chunk, spp: nat, k: nat, last: nat): (r: Bucket)
    requires spp > 0 && k <= last && last * spp < |chunk|
    ensures k * spp < BucketEnd(k, spp, |chunk|) <= |chunk|
    ensures Some(r) == Span(chunk[k * spp..BucketEnd(k, spp, |chunk|)])
  {
    Monotone(k, last, spp);
    BucketBounds(k, spp, |chunk|);
    LevelBucket(chunk, spp, k)
  }

  // --- The document -----------------------------------------------------------------------------------

  function Total(chunks: seq<Chunk>): nat
    decreases |chunks|
  {
    if chunks == [] then 0 else |chunks[0]| + Total(chunks[1..])
  }

  function Flat(chunks: seq<Chunk>): (r: Samples)
    ensures |r| == Total(chunks)
    decreases |chunks|
  {
    if chunks == [] then [] else chunks[0] + Flat(chunks[1..])
  }

  function Less(a: nat, b: nat): nat {
    if a < b then 0 else a - b
  }

  /** The peaks of `[lo, hi)` over every chunk it overlaps. */
  function DocPeaks(chunks: seq<Chunk>, spp: nat, lo: nat, hi: nat): Option<Bucket>
    requires spp > 0
    decreases |chunks|
  {
    if chunks == [] then None
    else
      var c := chunks[0];
      var to := if hi < |c| then hi else |c|;
      Join(if lo < to then ChunkPeaks(c, spp, lo, to) else None,
           DocPeaks(chunks[1..], spp, Less(lo, |c|), Less(hi, |c|)))
  }

  lemma {:induction false} NothingBelowZero(chunks: seq<Chunk>, spp: nat, lo: nat)
    requires spp > 0
    ensures DocPeaks(chunks, spp, lo, 0) == None
    decreases |chunks|
  {
    if chunks != [] {
      NothingBelowZero(chunks[1..], spp, Less(lo, |chunks[0]|));
    }
  }

  /** Chunks committed later do not change the peaks of a range that was already committed. */
  lemma {:induction false} PeaksAreFinal(live: seq<Chunk>, more: seq<Chunk>, spp: nat, lo: nat, hi: nat)
    requires spp > 0 && hi <= Total(live)
    ensures DocPeaks(live + more, spp, lo, hi) == DocPeaks(live, spp, lo, hi)
    decreases |live|
  {
    if live == [] {
      assert live + more == more;
      NothingBelowZero(more, spp, lo);
    } else {
      assert (live + more)[1..] == live[1..] + more;
      PeaksAreFinal(live[1..], more, spp, Less(lo, |live[0]|), Less(hi, |live[0]|));
    }
  }

  lemma ChunkPeaksCover(c: Chunk, spp: nat, from: nat, to: nat, i: nat)
    requires spp > 0 && from <= i < to <= |c|
    ensures ChunkPeaks(c, spp, from, to).Some?
    ensures ChunkPeaks(c, spp, from, to).value.low <= c[i] <= ChunkPeaks(c, spp, from, to).value.high
  {
    hide BucketEnd;
    Rounding(spp, from, to, |c|);
    var low, end := from / spp * spp, BucketEnd((to - 1) / spp, spp, |c|);
    assert c[low..end][i - low] == c[i];
    SpanCovers(c[low..end], i - low);
  }

  /** Peaks never under-report: every sample of the range lies between them. */
  lemma {:induction false} PeaksCover(chunks: seq<Chunk>, spp: nat, lo: nat, hi: nat, i: nat)
    requires spp > 0 && lo <= i < hi <= Total(chunks)
    ensures DocPeaks(chunks, spp, lo, hi).Some?
    ensures DocPeaks(chunks, spp, lo, hi).value.low <= Flat(chunks)[i] <= DocPeaks(chunks, spp, lo, hi).value.high
    decreases |chunks|
  {
    hide ChunkPeaks;
    var c := chunks[0];
    if i < |c| {
      var to := if hi < |c| then hi else |c|;
      ChunkPeaksCover(c, spp, lo, to, i);
    } else {
      PeaksCover(chunks[1..], spp, Less(lo, |c|), Less(hi, |c|), i - |c|);
    }
  }

  // --- And no wider than they must be ---------------------------------------------------------------

  /** Samples `i` and `j` lie in one pyramid bucket of one chunk. */
  predicate OneBucket(chunks: seq<Chunk>, spp: nat, i: nat, j: nat)
    requires spp > 0
    decreases |chunks|
  {
    chunks != [] &&
    var n := |chunks[0]|;
    if i < n && j < n then i / spp == j / spp
    else i >= n && j >= n && OneBucket(chunks[1..], spp, i - n, j - n)
  }

  /** `x` is a sample of a pyramid bucket that has samples in `[lo, hi)`. */
  ghost predicate Touched(chunks: seq<Chunk>, spp: nat, lo: nat, hi: nat, x: Sample)
    requires spp > 0
  {
    exists i: nat, j: nat :: i < Total(chunks) && Flat(chunks)[i] == x && lo <= j < hi && OneBucket(chunks, spp, i, j)
  }

  /** A pyramid bucket, a chunk or the document begins or ends at `p`. */
  predicate OnBoundary(chunks: seq<Chunk>, spp: nat, p: nat)
    requires spp > 0
    decreases |chunks|
  {
    if chunks == [] then p == 0
    else if p < |chunks[0]| then p % spp == 0
    else OnBoundary(chunks[1..], spp, p - |chunks[0]|)
  }

  /** `x` is one of the samples that widened peaks of a chunk may name. */
  lemma ChunkTouched(c: Chunk, spp: nat, from: nat, to: nat, x: Sample) returns (i: nat, j: nat)
    requires spp > 0 && from < to <= |c|
    requires x == ChunkPeaks(c, spp, from, to).value.low || x == ChunkPeaks(c, spp, from, to).value.high
    ensures i < |c| && c[i] == x && from <= j < to && i / spp == j / spp
  {
    hide Span;
    Rounding(spp, from, to, |c|);
    var low, end := from / spp * spp, BucketEnd((to - 1) / spp, spp, |c|);
    SpanAttained(c[low..end]);
    var k :| 0 <= k < end - low && c[low..end][k] == x;
    i := low + k;
    assert c[i] == x;
    j := NearestInside(spp, from, to, i, from / spp, (to - 1) / spp);
  }

  lemma NearestInside(spp: nat, from: nat, to: nat, i: nat, a: nat, b: nat) returns (j: nat)
    requires spp > 0 && from < to && a == from / spp && b == (to - 1) / spp && a * spp <= i < (b + 1) * spp
    ensures from <= j < to && i / spp == j / spp
  {
    if i < from {
      j := from;
      FirstBucket(i, from, a, spp);
    } else if i >= to {
      j := to - 1;
      LastBucket(j, i, b, spp);
    } else {
      j := i;
    }
  }

  lemma FirstBucket(i: nat, from: nat, q: nat, spp: nat)
    requires spp > 0 && q == from / spp && q * spp <= i <= from
    ensures i / spp == q
  {
    Above(from, q, spp);
    QuotientIs(i, q, spp);
  }

  lemma Above(j: nat, q: nat, spp: nat)
    requires spp > 0 && q == j / spp
    ensures j < (q + 1) * spp
  {}

  lemma LastBucket(j: nat, i: nat, q: nat, spp: nat)
    requires spp > 0 && q == j / spp && j <= i < (q + 1) * spp
    ensures i / spp == q
  {
    Below(j, q, spp);
    QuotientIs(i, q, spp);
  }

  lemma Below(j: nat, q: nat, spp: nat)
    requires spp > 0 && q == j / spp
    ensures q * spp <= j
  {}

  lemma QuotientIs(i: nat, q: nat, spp: nat)
    requires spp > 0 && q * spp <= i < (q + 1) * spp
    ensures i / spp == q
  {
    var d := i / spp;
    assert d * spp <= i < (d + 1) * spp;
    if d < q {
      Monotone(d + 1, q, spp);
    } else if d > q {
      Monotone(q + 1, d, spp);
    }
  }

  /** Peaks never over-report by more than the bucket: both ends are samples of buckets the range touches. */
  lemma {:induction false} PeaksAttained(chunks: seq<Chunk>, spp: nat, lo: nat, hi: nat, x: Sample)
    requires spp > 0 && DocPeaks(chunks, spp, lo, hi).Some?
    requires x == DocPeaks(chunks, spp, lo, hi).value.low || x == DocPeaks(chunks, spp, lo, hi).value.high
    ensures Touched(chunks, spp, lo, hi, x)
    decreases |chunks|
  {
    hide ChunkPeaks;
    var c, n := chunks[0], |chunks[0]|;
    var to := if hi < n then hi else n;
    var rest := DocPeaks(chunks[1..], spp, Less(lo, n), Less(hi, n));
    if rest.Some? && (x == rest.value.low || x == rest.value.high) {
      PeaksAttained(chunks[1..], spp, Less(lo, n), Less(hi, n), x);
      TouchedBehind(chunks, spp, lo, hi, x);
    } else {
      var i, j := ChunkTouched(c, spp, lo, to, x);
      assert Flat(chunks)[i] == x && OneBucket(chunks, spp, i, j);
    }
  }

  lemma TouchedBehind(chunks: seq<Chunk>, spp: nat, lo: nat, hi: nat, x: Sample)
    requires spp > 0 && chunks != []
    requires Touched(chunks[1..], spp, Less(lo, |chunks[0]|), Less(hi, |chunks[0]|), x)
    ensures Touched(chunks, spp, lo, hi, x)
  {
    var n := |chunks[0]|;
    var i: nat, j: nat :|
      i < Total(chunks[1..]) && Flat(chunks[1..])[i] == x && Less(lo, n) <= j < Less(hi, n) && OneBucket(chunks[1..], spp, i, j);
    assert Flat(chunks)[n + i] == x;
    assert OneBucket(chunks, spp, n + i, n + j);
  }

  /** Between two boundaries there are only whole buckets. */
  lemma {:induction false} BucketsStayInside(chunks: seq<Chunk>, spp: nat, lo: nat, hi: nat, i: nat, j: nat)
    requires spp > 0 && OnBoundary(chunks, spp, lo) && OnBoundary(chunks, spp, hi)
    requires lo <= j < hi && OneBucket(chunks, spp, i, j)
    ensures lo <= i < hi
    decreases |chunks|
  {
    var n := |chunks[0]|;
    if i < n && j < n {
      if lo < n {
        Floors(lo, j, i, spp);
      }
      if hi < n && i >= hi {
        Floors(hi, i, j, spp);
      }
    } else if hi > n || hi == n {
      BucketsStayInside(chunks[1..], spp, if lo < n then 0 else lo - n, hi - n, i - n, j - n) by {
        ZeroOnBoundary(chunks[1..], spp);
      }
    }
  }

  lemma ZeroOnBoundary(chunks: seq<Chunk>, spp: nat)
    requires spp > 0
    ensures OnBoundary(chunks, spp, 0)
  {}

  /** A multiple at or below `j` is at or below everything in `j`'s bucket. */
  lemma Floors(m: nat, j: nat, i: nat, spp: nat)
    requires spp > 0 && m % spp == 0 && m <= j && i / spp == j / spp
    ensures m <= i
  {
    assert m == m / spp * spp;
    if m / spp > j / spp {
      Monotone(j / spp + 1, m / spp, spp);
    }
    Monotone(m / spp, i / spp, spp);
  }

  /** `x` is one of the samples `[lo, hi)`. */
  ghost predicate Inside(xs: Samples, lo: nat, hi: nat, x: Sample) {
    exists i: nat :: lo <= i < hi && i < |xs| && xs[i] == x
  }

  lemma AlignedInside(chunks: seq<Chunk>, spp: nat, lo: nat, hi: nat, x: Sample)
    requires spp > 0 && OnBoundary(chunks, spp, lo) && OnBoundary(chunks, spp, hi) && Touched(chunks, spp, lo, hi, x)
    ensures Inside(Flat(chunks), lo, hi, x)
  {
    var i: nat, j: nat :| i < Total(chunks) && Flat(chunks)[i] == x && lo <= j < hi && OneBucket(chunks, spp, i, j);
    BucketsStayInside(chunks, spp, lo, hi, i, j);
  }

  function Least(a: nat, b: nat): nat {
    if a < b then a else b
  }

  /**
   * What a bucket of `spp` samples from `lo` on says about the document: no sample of it lies outside,
   * both ends are samples, at most one pyramid bucket away in the same chunk, and within the range if
   * it is aligned. Past the end it is zero.
   */
  ghost predicate Tight(chunks: seq<Chunk>, spp: nat, lo: nat, b: Bucket)
    requires spp > 0
  {
    var xs, hi := Flat(chunks), Least(lo + spp, Total(chunks));
    && (lo >= |xs| ==> b == ZERO)
    && (lo < |xs| ==>
          && (forall i :: lo <= i < hi ==> b.low <= xs[i] <= b.high)
          && Touched(chunks, spp, lo, hi, b.low) && Touched(chunks, spp, lo, hi, b.high)
          && (OnBoundary(chunks, spp, lo) && OnBoundary(chunks, spp, hi) ==> Inside(xs, lo, hi, b.low) && Inside(xs, lo, hi, b.high)))
  }

  lemma BucketIsTight(chunks: seq<Chunk>, spp: nat, lo: nat)
    requires spp > 0
    ensures Tight(chunks, spp, lo, BucketAt(chunks, spp, lo))
  {
    hide Touched, Inside, OnBoundary, DocPeaks, Flat;
    if lo < Total(chunks) {
      var hi, b := Least(lo + spp, Total(chunks)), BucketAt(chunks, spp, lo);
      if spp == RAW_SPP {
        RawTouched(chunks, lo);
      } else {
        PeaksCover(chunks, spp, lo, hi, lo);
        PeaksAttained(chunks, spp, lo, hi, b.low);
        PeaksAttained(chunks, spp, lo, hi, b.high);
        forall i | lo <= i < hi ensures b.low <= Flat(chunks)[i] <= b.high {
          PeaksCover(chunks, spp, lo, hi, i);
        }
      }
      if OnBoundary(chunks, spp, lo) && OnBoundary(chunks, spp, hi) {
        AlignedInside(chunks, spp, lo, hi, b.low);
        AlignedInside(chunks, spp, lo, hi, b.high);
      }
    }
  }

  lemma RawTouched(chunks: seq<Chunk>, lo: nat)
    requires lo < Total(chunks)
    ensures Touched(chunks, RAW_SPP, lo, Least(lo + RAW_SPP, Total(chunks)), Flat(chunks)[lo])
  {
    WithItself(chunks, RAW_SPP, lo);
  }

  lemma {:induction false} WithItself(chunks: seq<Chunk>, spp: nat, i: nat)
    requires spp > 0 && i < Total(chunks)
    ensures OneBucket(chunks, spp, i, i)
    decreases |chunks|
  {
    if i >= |chunks[0]| {
      WithItself(chunks[1..], spp, i - |chunks[0]|);
    }
  }

  lemma JoinLaws(a: Option<Bucket>, b: Option<Bucket>, c: Option<Bucket>)
    ensures Join(a, Join(b, c)) == Join(Join(a, b), c) && Join(a, None) == a && Join(None, a) == a
  {}

  lemma FirstChunk(chunks: seq<Chunk>, i: nat, spp: nat, lo: nat, hi: nat)
    requires spp > 0
    ensures i >= |chunks| ==> DocPeaks(chunks[|chunks|..], spp, lo, hi) == None
    ensures i < |chunks| ==>
              var c := chunks[i];
              var to := if hi < |c| then hi else |c|;
              DocPeaks(chunks[i..], spp, lo, hi) ==
                Join(if lo < to then ChunkPeaks(c, spp, lo, to) else None,
                     DocPeaks(chunks[i + 1..], spp, Less(lo, |c|), Less(hi, |c|)))
  {
    if i < |chunks| {
      assert chunks[i..][1..] == chunks[i + 1..];
    }
  }

  /** Walks the chunks from the one that holds `lo`. */
  method BucketUnion(chunks: seq<Chunk>, spp: nat, lo: nat, hi: nat) returns (r: Option<Bucket>)
    requires spp > 0 && lo < hi <= Total(chunks)
    ensures r == DocPeaks(chunks, spp, lo, hi)
  {
    hide Join, DocPeaks, ChunkPeaks;
    r := None;
    var i: nat, from: nat, to: nat := 0, lo, hi;
    assert chunks[0..] == chunks;
    JoinLaws(DocPeaks(chunks, spp, lo, hi), None, None);
    while i < |chunks| && to > 0
      invariant i <= |chunks|
      invariant Join(r, DocPeaks(chunks[i..], spp, from, to)) == DocPeaks(chunks, spp, lo, hi)
    {
      FirstChunk(chunks, i, spp, from, to);
      var c := chunks[i];
      var end := if to < |c| then to else |c|;
      var part: Option<Bucket> := None;
      if from < end {
        part := ChunkRangeUnion(c, spp, from, end - from);
      }
      JoinLaws(r, part, DocPeaks(chunks[i + 1..], spp, Less(from, |c|), Less(to, |c|)));
      r := Join(r, part);
      from, to := Less(from, |c|), Less(to, |c|);
      i := i + 1;
    }
    if i < |chunks| {
      NothingBelowZero(chunks[i..], spp, from);
    } else {
      FirstChunk(chunks, i, spp, from, to);
    }
    JoinLaws(r, None, None);
  }

  // --- A query ------------------------------------------------------------------------------------------

  /** The bucket of `spp` samples from `lo` on; past the end there is silence. */
  function BucketAt(chunks: seq<Chunk>, spp: nat, lo: nat): Bucket
    requires spp > 0
  {
    if lo >= Total(chunks) then ZERO
    else if spp == RAW_SPP then Bucket(Flat(chunks)[lo], Flat(chunks)[lo])
    else
      match DocPeaks(chunks, spp, lo, if lo + spp < Total(chunks) then lo + spp else Total(chunks))
      case Some(b) => b
      case None => ZERO
  }

  datatype QueryError = InvalidArgument

  method Peaks(chunks: seq<Chunk>, spp: nat, start: nat, count: nat) returns (r: Result<seq<Bucket>, QueryError>)
    ensures r.Err? <==> !ValidSpp(spp)
    ensures r.Ok? ==> |r.value| == count && forall b :: 0 <= b < count ==> r.value[b] == BucketAt(chunks, spp, start + b * spp)
    ensures r.Ok? ==> forall b :: 0 <= b < count ==> Tight(chunks, spp, start + b * spp, r.value[b])
  {
    hide DocPeaks, Flat, Total, Tight;
    if !ValidSpp(spp) {
      return Err(InvalidArgument);
    }
    var out: seq<Bucket> := [];
    var len := Total(chunks);
    for b := 0 to count
      invariant |out| == b && forall k :: 0 <= k < b ==> out[k] == BucketAt(chunks, spp, start + k * spp)
    {
      var lo := start + b * spp;
      if lo >= len {
        out := out + [ZERO];
      } else if spp == RAW_SPP {
        out := out + [Bucket(Flat(chunks)[lo], Flat(chunks)[lo])];
      } else {
        var union := BucketUnion(chunks, spp, lo, if lo + spp < len then lo + spp else len);
        out := out + [if union.Some? then union.value else ZERO];
      }
    }
    forall b | 0 <= b < count ensures Tight(chunks, spp, start + b * spp, out[b]) {
      BucketIsTight(chunks, spp, start + b * spp);
    }
    return Ok(out);
  }

  // --- During an import -----------------------------------------------------------------------------------

  function AtLeastOne(n: nat): nat {
    if n == 0 then 1 else n
  }

  /** How many of the buckets from `start` on lie wholly in the committed audio, at most `count`. */
  function ReadyCount(committed: nat, spp: nat, start: nat, count: nat): nat {
    if start >= committed then 0
    else if (committed - start) / AtLeastOne(spp) < count then (committed - start) / AtLeastOne(spp)
    else count
  }

  /** It is exact: a bucket is ready if and only if it ends within the committed audio. */
  lemma ReadyIsWholeBuckets(committed: nat, spp: nat, start: nat, count: nat, b: nat)
    requires b < count
    ensures b < ReadyCount(committed, spp, start, count) <==> start + (b + 1) * AtLeastOne(spp) <= committed
  {
    var width := AtLeastOne(spp);
    if start < committed {
      var whole := (committed - start) / width;
      assert whole * width <= committed - start < (whole + 1) * width;
      if b + 1 <= whole {
        Monotone(b + 1, whole, width);
      } else {
        Monotone(whole + 1, b + 1, width);
      }
    } else {
      Monotone(1, b + 1, width);
    }
  }

  /** `None` stands for the NaN pair of a bucket that is still pending. */
  datatype Reply = Reply(buckets: seq<Option<Bucket>>, partial: bool)

  /** `live`: the chunks of a known import job. An unknown job gets an empty partial reply. */
  method ImportPeaks(live: Option<seq<Chunk>>, spp: nat, start: nat, count: nat) returns (r: Result<Reply, QueryError>)
    ensures live.None? ==> r == Ok(Reply([], true))
    ensures live.Some? ==>
              var ready := ReadyCount(Total(live.value), spp, start, count);
              && (r.Err? <==> ready > 0 && !ValidSpp(spp))
              && (r.Ok? ==>
                    && |r.value.buckets| == count
                    && (r.value.partial <==> ready < count)
                    && (forall b :: 0 <= b < ready ==>
                          && r.value.buckets[b] == Some(BucketAt(live.value, spp, start + b * spp))
                          && Tight(live.value, spp, start + b * spp, r.value.buckets[b].value))
                    && (forall b :: ready <= b < count ==> r.value.buckets[b] == None))
  {
    hide Tight, BucketAt;
    if live.None? {
      return Ok(Reply([], true));
    }
    var ready := ReadyCount(Total(live.value), spp, start, count);
    var buckets: seq<Option<Bucket>> := [];
    if ready > 0 {
      var found := Peaks(live.value, spp, start, ready);
      if found.Err? {
        return Err(found.error);
      }
      buckets := seq(ready, i requires 0 <= i < ready => Some(found.value[i]));
    }
    var partial := ready < count;
    if partial {
      buckets := buckets + seq(count - ready, _ => None);
    }
    return Ok(Reply(buckets, partial));
  }

  lemma {:induction false} FlatAppends(live: seq<Chunk>, more: seq<Chunk>)
    ensures Flat(live + more) == Flat(live) + Flat(more) && Total(live + more) == Total(live) + Total(more)
    decreases |live|
  {
    if live == [] {
      assert live + more == more;
    } else {
      assert (live + more)[1..] == live[1..] + more;
      FlatAppends(live[1..], more);
    }
  }

  /**
   * A ready bucket is final: it equals the bucket of the finished document, and of every later poll,
   * at any number of samples per bucket and from any start, aligned or not.
   */
  lemma ReadyBucketsAreFinal(live: seq<Chunk>, more: seq<Chunk>, spp: nat, start: nat, count: nat, b: nat)
    requires spp > 0 && b < ReadyCount(Total(live), spp, start, count)
    ensures BucketAt(live + more, spp, start + b * spp) == BucketAt(live, spp, start + b * spp)
  {
    hide BucketAt;
    ReadyIsWholeBuckets(Total(live), spp, start, count, b);
    assert start + (b + 1) * spp == start + b * spp + spp;
    RangeIsFinal(live, more, spp, start + b * spp);
  }

  lemma RangeIsFinal(live: seq<Chunk>, more: seq<Chunk>, spp: nat, lo: nat)
    requires spp > 0 && lo + spp <= Total(live)
    ensures BucketAt(live + more, spp, lo) == BucketAt(live, spp, lo)
  {
    hide DocPeaks, Flat, Total;
    FlatAppends(live, more);
    if spp != RAW_SPP {
      PeaksAreFinal(live, more, spp, lo, lo + spp);
    }
  }

  /** Later polls never have fewer ready buckets, and the finished document leaves none of its own out. */
  lemma ReadyGrows(live: seq<Chunk>, more: seq<Chunk>, spp: nat, start: nat, count: nat)
    ensures ReadyCount(Total(live), spp, start, count) <= ReadyCount(Total(live + more), spp, start, count)
  {
    FlatAppends(live, more);
    var ready := ReadyCount(Total(live), spp, start, count);
    if ready > 0 {
      ReadyIsWholeBuckets(Total(live), spp, start, count, ready - 1);
      ReadyIsWholeBuckets(Total(live + more), spp, start, count, ready - 1);
    }
  }
}
