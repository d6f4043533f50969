/**
 * Where markers go when samples are exchanged, said about the old and the new list
 * (crates/project/src/snapshot.rs `shift_markers`, `sort_markers`).
 */
module Markers {
  import opened Wrappers
  import opened Audio
  import opened Racks
  import opened Document
  import opened EditOps

  ghost predicate SortedByPos(ms: seq<Marker>) {
    forall k, l :: 0 <= k < l < |ms| ==> ms[k].pos <= ms[l].pos
  }

  /** Inside a document of `len` samples, and in order. */
  ghost predicate Placed(ms: seq<Marker>, len: nat) {
    MarkersFit(ms, len) && SortedByPos(ms)
  }

  predicate SameMarker(old_: Marker, new_: Marker) {
    new_.id == old_.id && new_.name == old_.name && new_.kind == old_.kind
  }

  function EndOf(m: Marker): nat {
    m.pos + m.len
  }

  /**
   * A marker when `removed` samples at `at` give way to `inserted` others: in front of the change it
   * stays, inside it goes to its start, behind it keeps its distance to what follows. The end of a
   * region goes by the samples in front of it.
   */
  predicate Follows(old_: Marker, new_: Marker, at: nat, removed: nat, inserted: nat) {
    && SameMarker(old_, new_)
    && (old_.pos < at ==> new_.pos == old_.pos)
    && (at <= old_.pos < at + removed ==> new_.pos == at)
    && (at + removed <= old_.pos ==> new_.pos == old_.pos - removed + inserted)
    && (old_.len == 0 ==> new_.len == 0)
    && (old_.len > 0 && EndOf(old_) <= at ==> EndOf(new_) == EndOf(old_))
    && (old_.len > 0 && at < EndOf(old_) <= at + removed ==> EndOf(new_) == at)
    && (old_.len > 0 && at + removed < EndOf(old_) ==> EndOf(new_) == EndOf(old_) - removed + inserted)
  }

  /** The sample at `p` of `before` is the one at `q` of `after`. */
  predicate SameSample(before: Samples, after: Samples, p: nat, q: nat) {
    p < |before| ==> q < |after| && after[q] == before[p]
  }

  /** Outside the change a marker sits on the sample it sat on, and a region ends with the sample it ended with. */
  predicate OnItsSample(old_: Marker, new_: Marker, before: Samples, after: Samples, at: nat, removed: nat) {
    && (!(at <= old_.pos < at + removed) ==> SameSample(before, after, old_.pos, new_.pos))
    && (old_.len > 0 && !(at < EndOf(old_) <= at + removed) && EndOf(new_) > 0 ==>
          SameSample(before, after, EndOf(old_) - 1, EndOf(new_) - 1))
  }

  /** `from[k]`: where the `k`-th marker of the new list was in the old one. */
  ghost predicate Reorders(from: seq<nat>, n: nat) {
    && |from| == n
    && (forall k :: 0 <= k < n ==> from[k] < n)
    && (forall k, l :: 0 <= k < l < n ==> from[k] != from[l])
  }

  /** Sorted, and equal positions in their old order. */
  ghost predicate StablySorted(ms: seq<Marker>, from: seq<nat>) {
    && |from| == |ms|
    && SortedByPos(ms)
    && (forall k, l :: 0 <= k < l < |ms| && ms[k].pos == ms[l].pos ==> from[k] < from[l])
  }

  /** Every marker of `before` follows the change into `after`, which is sorted; none is lost or added. */
  ghost predicate MovedBy(before: Content, after: Content, at: nat, removed: nat, inserted: nat, from: seq<nat>) {
    && |after.markers| == |before.markers| && Reorders(from, |before.markers|)
    && StablySorted(after.markers, from)
    && (forall k :: 0 <= k < |from| ==>
          && Follows(before.markers[from[k]], after.markers[k], at, removed, inserted)
          && OnItsSample(before.markers[from[k]], after.markers[k], before.audio, after.audio, at, removed))
  }

  ghost predicate Moved(before: Content, after: Content, at: nat, removed: nat, inserted: nat) {
    && (exists from :: MovedBy(before, after, at, removed, inserted, from))
    && (SortedByPos(before.markers) ==> MovedBy(before, after, at, removed, inserted, Unmoved(|before.markers|)))
  }

  /** The list order itself. */
  function Unmoved(n: nat): (r: seq<nat>)
    ensures |r| == n && forall k :: 0 <= k < n ==> r[k] == k
  {
    seq(n, k => k)
  }

  // --- The sort -----------------------------------------------------------------------------------

  /** `x` put in at index `i`. */
  function Put<T>(a: seq<T>, x: T, i: nat): (r: seq<T>)
    requires i <= |a|
    ensures |r| == |a| + 1 && r[i] == x
    ensures forall k :: 0 <= k < i ==> r[k] == a[k]
    ensures forall k :: i < k < |r| ==> r[k] == a[k - 1]
  {
    a[..i] + [x] + a[i..]
  }

  lemma {:induction false} InsertsBehind(m: Marker, sorted: seq<Marker>) returns (i: nat)
    requires SortedByPos(sorted)
    ensures i <= |sorted| && InsertByPos(m, sorted) == Put(sorted, m, i)
    ensures forall k :: 0 <= k < i ==> sorted[k].pos <= m.pos
    ensures forall k :: i <= k < |sorted| ==> m.pos < sorted[k].pos
    decreases |sorted|
  {
    if sorted == [] {
      i := 0;
    } else {
      RestSorted(sorted);
      InsertUnfolds(m, sorted);
      hide SortedByPos, InsertByPos, Put;
      if m.pos < sorted[0].pos {
        i := 0;
      } else {
        var j := InsertsBehind(m, sorted[1..]);
        i := j + 1;
        assert forall k :: 0 < k < |sorted| ==> sorted[k] == sorted[1..][k - 1];
        PutBehindFirst(sorted, m, j);
      }
    }
  }

  lemma InsertUnfolds(m: Marker, sorted: seq<Marker>)
    requires sorted != []
    ensures m.pos < sorted[0].pos ==> InsertByPos(m, sorted) == Put(sorted, m, 0)
    ensures m.pos >= sorted[0].pos ==> InsertByPos(m, sorted) == [sorted[0]] + InsertByPos(m, sorted[1..])
  {
    assert [m] + sorted == Put(sorted, m, 0);
  }

  lemma PutBehindFirst(xs: seq<Marker>, m: Marker, j: nat)
    requires xs != [] && j <= |xs| - 1
    ensures [xs[0]] + Put(xs[1..], m, j) == Put(xs, m, j + 1)
  {}

  lemma RestSorted(ms: seq<Marker>)
    requires SortedByPos(ms) && ms != []
    ensures SortedByPos(ms[1..]) && forall k :: 0 <= k < |ms| ==> ms[0].pos <= ms[k].pos
  {}

  /** Sorting is a stable reordering. */
  lemma {:induction false} SortsStably(ms: seq<Marker>) returns (from: seq<nat>)
    ensures Reorders(from, |ms|) && |SortMarkers(ms)| == |ms|
    ensures forall k :: 0 <= k < |ms| ==> SortMarkers(ms)[k] == ms[from[k]]
    ensures StablySorted(SortMarkers(ms), from)
    decreases |ms|
  {
    if ms == [] {
      from := [];
    } else {
      hide Reorders, StablySorted, SortedByPos, SortMarkers, InsertByPos;
      var n := |ms| - 1;
      var rest := SortsStably(ms[..n]);
      var sorted := SortMarkers(ms[..n]);
      FromSorted(sorted, rest);
      var i := InsertsBehind(ms[n], sorted);
      from := PutStably(ms, sorted, rest, n, i);
      LastIsInserted(ms, n);
    }
  }

  lemma LastIsInserted(ms: seq<Marker>, n: nat)
    requires |ms| == n + 1
    ensures SortMarkers(ms) == InsertByPos(ms[n], SortMarkers(ms[..n]))
  {}

  lemma FromSorted(ms: seq<Marker>, from: seq<nat>)
    requires StablySorted(ms, from)
    ensures SortedByPos(ms)
  {}

  lemma PutStably(ms: seq<Marker>, sorted: seq<Marker>, rest: seq<nat>, n: nat, i: nat) returns (from: seq<nat>)
    requires |ms| == n + 1 && Reorders(rest, n) && StablySorted(sorted, rest) && i <= n == |sorted|
    requires forall k :: 0 <= k < n ==> sorted[k] == ms[rest[k]]
    requires forall k :: 0 <= k < i ==> sorted[k].pos <= ms[n].pos
    requires forall k :: i <= k < n ==> ms[n].pos < sorted[k].pos
    ensures Reorders(from, n + 1) && StablySorted(sorted[..i] + [ms[n]] + sorted[i..], from)
    ensures forall k :: 0 <= k <= n ==> (sorted[..i] + [ms[n]] + sorted[i..])[k] == ms[from[k]]
  {
    from := Put(rest, n, i);
    var list := Put(sorted, ms[n], i);
    PutReorders(rest, n, i);
    PutSorts(sorted, rest, ms[n], n, i);
    hide Put, Reorders, StablySorted;
    assert list == sorted[..i] + [ms[n]] + sorted[i..] by { PutIs(sorted, ms[n], i); }
    forall k | 0 <= k <= n ensures list[k] == ms[from[k]] {
      if k < i {
        assert list[k] == sorted[k] && from[k] == rest[k];
      } else if k > i {
        assert list[k] == sorted[k - 1] && from[k] == rest[k - 1];
      }
    }
  }

  lemma PutIs<T>(a: seq<T>, x: T, i: nat)
    requires i <= |a|
    ensures Put(a, x, i) == a[..i] + [x] + a[i..]
  {}

  lemma PutReorders(rest: seq<nat>, n: nat, i: nat)
    requires Reorders(rest, n) && i <= n
    ensures Reorders(Put(rest, n, i), n + 1)
  {
    hide Put;
  }

  lemma PutSorts(sorted: seq<Marker>, rest: seq<nat>, m: Marker, n: nat, i: nat)
    requires Reorders(rest, n) && StablySorted(sorted, rest) && i <= n == |sorted|
    requires forall k :: 0 <= k < i ==> sorted[k].pos <= m.pos
    requires forall k :: i <= k < |sorted| ==> m.pos < sorted[k].pos
    ensures StablySorted(Put(sorted, m, i), Put(rest, n, i))
  {
    hide Put;
  }

  lemma {:induction false} LastStays(m: Marker, front: seq<Marker>)
    requires forall k :: 0 <= k < |front| ==> front[k].pos <= m.pos
    ensures InsertByPos(m, front) == front + [m]
    decreases |front|
  {
    if front != [] {
      LastStays(m, front[1..]);
    }
  }

  lemma FrontSorted(ms: seq<Marker>, n: nat)
    requires SortedByPos(ms) && |ms| == n + 1
    ensures SortedByPos(ms[..n]) && forall k :: 0 <= k < n ==> ms[..n][k].pos <= ms[n].pos
    ensures ms[..n] + [ms[n]] == ms
  {}

  lemma {:induction false} SortedStays(ms: seq<Marker>)
    requires SortedByPos(ms)
    ensures SortMarkers(ms) == ms
    decreases |ms|
  {
    if ms != [] {
      hide SortMarkers, InsertByPos, SortedByPos;
      var n := |ms| - 1;
      FrontSorted(ms, n);
      SortedStays(ms[..n]);
      LastIsInserted(ms, n);
      LastStays(ms[n], ms[..n]);
    }
  }

  // --- One replace --------------------------------------------------------------------------------

  lemma ShiftFollows(m: Marker, at: nat, removed: nat, inserted: nat)
    ensures Follows(m, ShiftMarker(m, at, removed, inserted), at, removed, inserted)
  {}

  lemma FollowsOnSample(old_: Marker, new_: Marker, before: Samples, at: nat, removed: nat, insert: Samples)
    requires at + removed <= |before| && Follows(old_, new_, at, removed, |insert|)
    ensures OnItsSample(old_, new_, before, Splice(before, at, removed, insert), at, removed)
  {}

  /** Nothing passes anything else. */
  lemma FollowsInOrder(a: Marker, b: Marker, c: Marker, d: Marker, at: nat, removed: nat, inserted: nat)
    requires Follows(a, c, at, removed, inserted) && Follows(b, d, at, removed, inserted) && a.pos <= b.pos
    ensures c.pos <= d.pos
  {}

  /** The markers of a list before the sort, each where the replace sends it. */
  ghost predicate EachFollows(ms: seq<Marker>, shifted: seq<Marker>, at: nat, removed: nat, inserted: nat) {
    |shifted| == |ms| && forall k :: 0 <= k < |ms| ==> Follows(ms[k], shifted[k], at, removed, inserted)
  }

  lemma ShiftedFollow(ms: seq<Marker>, at: nat, removed: nat, inserted: nat) returns (shifted: seq<Marker>)
    ensures EachFollows(ms, shifted, at, removed, inserted)
    ensures ShiftMarkers(ms, at, removed, inserted) == SortMarkers(shifted)
    ensures SortedByPos(ms) ==> SortedByPos(shifted)
  {
    hide SortMarkers, Follows, ShiftMarker;
    shifted := seq(|ms|, i requires 0 <= i < |ms| => ShiftMarker(ms[i], at, removed, inserted));
    forall k | 0 <= k < |ms| ensures Follows(ms[k], shifted[k], at, removed, inserted) {
      ShiftFollows(ms[k], at, removed, inserted);
    }
    if SortedByPos(ms) {
      forall k, l | 0 <= k < l < |ms| ensures shifted[k].pos <= shifted[l].pos {
        FollowsInOrder(ms[k], ms[l], shifted[k], shifted[l], at, removed, inserted);
      }
    }
  }

  /** One replace alone, after the sort of the prepared revision. */
  lemma OneReplace(audio: Samples, ms: seq<Marker>, op: EditOp, att: Option<BakeAttachment>)
    requires op.at + op.removeLen <= |audio| && op.ChangesAudio() && op.mapping == Shift
    ensures var p := Prepare(audio, ms, Edit([op], [], att));
            p.Ok? && p.value.audio == Splice(audio, op.at, op.removeLen, op.insert) &&
            p.value.markers == SortMarkers(ShiftMarkers(ms, op.at, op.removeLen, |op.insert|))
  {
    hide SortMarkers, Splice, ShiftMarkers;
    var w := Work(audio, ms, false);
    assert [op][1..] == [];
    assert ApplyOps(w, [op]) == ApplyOps(ApplyOp(w, op).value, []);
  }

  /** An edit of one shifting replace: the markers follow it. */
  lemma ReplaceMoves(audio: Samples, ms: seq<Marker>, op: EditOp, att: Option<BakeAttachment>)
    requires op.at + op.removeLen <= |audio| && op.ChangesAudio() && op.mapping == Shift
    ensures var p := Prepare(audio, ms, Edit([op], [], att));
            p.Ok? && Moved(Content(audio, ms), Content(p.value.audio, p.value.markers), op.at, op.removeLen, |op.insert|)
  {
    hide SortMarkers, Splice, ShiftMarkers, Prepare, MovedBy;
    OneReplace(audio, ms, op, att);
    var shifted := ShiftedFollow(ms, op.at, op.removeLen, |op.insert|);
    var from := SortsStably(shifted);
    SortedStays(SortMarkers(shifted)) by { FromSorted(SortMarkers(shifted), from); }
    MovedAs(audio, ms, op, shifted, from);
    if SortedByPos(ms) {
      SortedStays(shifted);
      UnmovedIsStable(shifted);
      MovedAs(audio, ms, op, shifted, Unmoved(|ms|));
    }
  }

  lemma UnmovedIsStable(ms: seq<Marker>)
    requires SortedByPos(ms)
    ensures Reorders(Unmoved(|ms|), |ms|) && StablySorted(ms, Unmoved(|ms|))
  {}

  lemma MovedAs(audio: Samples, ms: seq<Marker>, op: EditOp, shifted: seq<Marker>, from: seq<nat>)
    requires op.at + op.removeLen <= |audio| && EachFollows(ms, shifted, op.at, op.removeLen, |op.insert|)
    requires Reorders(from, |ms|) && |SortMarkers(shifted)| == |ms| && StablySorted(SortMarkers(shifted), from)
    requires forall k :: 0 <= k < |ms| ==> SortMarkers(shifted)[k] == shifted[from[k]]
    ensures MovedBy(Content(audio, ms), Content(Splice(audio, op.at, op.removeLen, op.insert), SortMarkers(shifted)),
                    op.at, op.removeLen, |op.insert|, from)
  {
    hide SortMarkers, Splice, Follows, OnItsSample, StablySorted;
    forall k | 0 <= k < |ms|
      ensures OnItsSample(ms[from[k]], shifted[from[k]], audio, Splice(audio, op.at, op.removeLen, op.insert), op.at, op.removeLen)
    {
      FollowsOnSample(ms[from[k]], shifted[from[k]], audio, op.at, op.removeLen, op.insert);
    }
  }

  /**
   * A replace that is to move no marker is accepted exactly if it keeps the length, or makes the
   * document longer at its end.
   */
  lemma IdentityMoves(audio: Samples, ms: seq<Marker>, op: EditOp, att: Option<BakeAttachment>)
    requires op.ChangesAudio() && op.mapping == Identity
    ensures var p := Prepare(audio, ms, Edit([op], [], att));
            && (p.Ok? <==>
                  || (op.at + op.removeLen <= |audio| && |op.insert| == op.removeLen)
                  || (op.at + op.removeLen == |audio| && |op.insert| > op.removeLen))
            && (p.Ok? ==> SameList(ms, p.value.markers))
  {
    hide SortMarkers, Splice;
    var w := Work(audio, ms, false);
    assert [op][1..] == [];
    if ApplyOp(w, op).Ok? {
      assert ApplyOps(w, [op]) == ApplyOps(ApplyOp(w, op).value, []);
    }
    SortedIsSame(ms);
  }

  /** The same markers, sorted; a sorted list is the same list. */
  ghost predicate SameList(ms: seq<Marker>, ns: seq<Marker>) {
    && SortedByPos(ns) && multiset(ns) == multiset(ms)
    && (SortedByPos(ms) ==> ns == ms)
  }

  lemma SortedIsSame(ms: seq<Marker>)
    ensures SameList(ms, SortMarkers(ms))
  {
    var from := SortsStably(ms);
    if SortedByPos(ms) {
      SortedStays(ms);
    }
  }

  // --- One marker put in -----------------------------------------------------------------------------

  /**
   * `after` is `rest` with `m` at its position: behind the markers in front of it, and among those at
   * its own position behind the first `home` of the list.
   */
  ghost predicate InPlace(rest: seq<Marker>, m: Marker, home: nat, after: seq<Marker>) {
    exists j: nat :: PutAt(rest, m, home, after, j)
  }

  ghost predicate PutAt(rest: seq<Marker>, m: Marker, home: nat, after: seq<Marker>, j: nat) {
    && j <= |rest| && after == Put(rest, m, j)
    && (forall k :: 0 <= k < j ==> rest[k].pos < m.pos || (rest[k].pos == m.pos && k < home))
    && (forall k :: j <= k < |rest| ==> m.pos < rest[k].pos || (rest[k].pos == m.pos && home <= k))
  }

  /** One marker out of its place in a sorted list is moved to its place, past none of its equals. */
  lemma {:induction false} FindsItsPlace(rest: seq<Marker>, m: Marker, home: nat) returns (j: nat)
    requires SortedByPos(rest) && home <= |rest|
    ensures PutAt(rest, m, home, SortMarkers(Put(rest, m, home)), j)
    decreases |rest|
  {
    hide SortMarkers, InsertByPos, SortedByPos, PutAt, Put;
    var n := |rest|;
    LastIsInserted(Put(rest, m, home), n);
    if home == n {
      assert Put(rest, m, n)[..n] == rest;
      SortedStays(rest);
      j := GoesBehind(rest, m);
    } else {
      FrontSorted(rest, n - 1);
      PutFront(rest, m, home);
      var i := FindsItsPlace(rest[..n - 1], m, home);
      PutAtIs(rest[..n - 1], m, home, SortMarkers(Put(rest[..n - 1], m, home)), i);
      j := Grows(rest[..n - 1], rest[n - 1], m, home, i);
    }
  }

  lemma PutAtIs(rest: seq<Marker>, m: Marker, home: nat, after: seq<Marker>, j: nat)
    requires PutAt(rest, m, home, after, j)
    ensures j <= |rest| && after == Put(rest, m, j)
  {}

  lemma GoesBehind(rest: seq<Marker>, m: Marker) returns (j: nat)
    requires SortedByPos(rest)
    ensures PutAt(rest, m, |rest|, InsertByPos(m, rest), j)
  {
    j := InsertsBehind(m, rest);
  }

  lemma PutFront(rest: seq<Marker>, m: Marker, home: nat)
    requires home < |rest|
    ensures Put(rest, m, home)[..|rest|] == Put(rest[..|rest| - 1], m, home)
  {}

  /** A marker behind all others of a list is sorted in behind or right in front of the one put in. */
  lemma Grows(front: seq<Marker>, x: Marker, m: Marker, home: nat, i: nat) returns (j: nat)
    requires home <= |front| && i <= |front| && PutAt(front, m, home, Put(front, m, i), i)
    requires forall k :: 0 <= k < |front| ==> front[k].pos <= x.pos
    ensures PutAt(front + [x], m, home, InsertByPos(x, Put(front, m, i)), j)
  {
    if i < |front| || m.pos <= x.pos {
      j := i;
      assert i < |front| ==> m.pos <= front[i].pos <= x.pos;
      LastStays(x, Put(front, m, i));
      assert Put(front, m, i) + [x] == Put(front + [x], m, i);
    } else {
      j := |front| + 1;
      LastButOne(x, front, m);
      assert Put(front, m, i) == front + [m];
      assert front + [x, m] == Put(front + [x], m, j);
    }
  }

  lemma {:induction false} LastButOne(x: Marker, front: seq<Marker>, m: Marker)
    requires x.pos < m.pos && forall k :: 0 <= k < |front| ==> front[k].pos <= x.pos
    ensures InsertByPos(x, front + [m]) == front + [x, m]
    decreases |front|
  {
    if front != [] {
      assert (front + [m])[1..] == front[1..] + [m];
      LastButOne(x, front[1..], m);
      assert [front[0]] + (front[1..] + [x, m]) == front + [x, m];
    }
  }

  /** Every accepted edit, whatever its operations, leaves the markers in order. */
  lemma PreparedSorted(audio: Samples, ms: seq<Marker>, edit: Edit)
    requires Prepare(audio, ms, edit).Ok?
    ensures SortedByPos(Prepare(audio, ms, edit).value.markers)
  {
    hide SortMarkers, SortedByPos;
    var w := ApplyOps(Work(audio, ms, false), edit.ops).value;
    SortedIsSame(ApplyMarkerOps(w.markers, |w.audio|, edit.markerOps).value);
  }

  lemma SortPlaces(ms: seq<Marker>, len: nat)
    requires MarkersFit(ms, len)
    ensures Placed(SortMarkers(ms), len)
  {
    hide SortedByPos;
    SortedIsSame(ms);
    SameElements(SortMarkers(ms), ms);
  }

  // --- A trim -------------------------------------------------------------------------------------

  function Clamped(p: nat, start: nat, end: nat): nat
    requires start <= end
  {
    if p < start then 0 else if p < end then p - start else end - start
  }

  /** A marker under a trim to `[start, end)`: inside it keeps its sample, outside it goes to the nearer end. */
  predicate Trimmed(old_: Marker, new_: Marker, start: nat, end: nat)
    requires start <= end
  {
    && SameMarker(old_, new_)
    && new_.pos == Clamped(old_.pos, start, end)
    && (old_.len == 0 ==> new_.len == 0)
    && (old_.len > 0 ==> EndOf(new_) == Clamped(EndOf(old_), start, end))
  }

  ghost predicate TrimmedBy(ms: seq<Marker>, ns: seq<Marker>, start: nat, end: nat, from: seq<nat>)
    requires start <= end
  {
    && |ns| == |ms| && Reorders(from, |ms|) && SortedByPos(ns)
    && (forall k :: 0 <= k < |ms| ==> Trimmed(ms[from[k]], ns[k], start, end))
  }

  ghost predicate TrimsMarkers(ms: seq<Marker>, ns: seq<Marker>, start: nat, end: nat)
    requires start <= end
  {
    && (exists from :: TrimmedBy(ms, ns, start, end, from))
    && (SortedByPos(ms) ==> TrimmedBy(ms, ns, start, end, Unmoved(|ms|)))
  }

  /** Nothing happens to markers under an empty replace, so both parts of a trim are one rule. */
  lemma FollowTwice(a: Marker, b: Marker, c: Marker, start: nat, end: nat, len: nat)
    requires start <= end <= len && EndOf(a) <= len
    requires Follows(a, b, end, len - end, 0) && Follows(b, c, 0, start, 0)
    ensures Trimmed(a, c, start, end)
  {}

  lemma FollowsNothing(m: Marker, at: nat)
    ensures Follows(m, m, at, 0, 0)
  {}

  /** One part of a trim. */
  lemma TailMoves(w: Work, at: nat, removed: nat) returns (from: seq<nat>)
    requires at + removed <= |w.audio|
    ensures var r := ApplyOp(w, Replace(at, removed, [], Shift));
            r.Ok? && Carried(w.markers, r.value.markers, at, removed, from)
  {
    hide SortMarkers, Splice, Follows, ShiftMarkers;
    var ms := w.markers;
    if removed == 0 {
      from := Unmoved(|ms|);
      forall k | 0 <= k < |ms| ensures Follows(ms[k], ms[k], at, removed, 0) {
        FollowsNothing(ms[k], at);
      }
    } else {
      var shifted := ShiftedFollow(ms, at, removed, 0);
      from := SortsStably(shifted);
      if SortedByPos(ms) {
        SortedStays(shifted);
        from := Unmoved(|ms|);
      }
    }
  }

  ghost predicate Carried(ms: seq<Marker>, ns: seq<Marker>, at: nat, removed: nat, from: seq<nat>) {
    && |ns| == |ms| && Reorders(from, |ms|)
    && (forall k :: 0 <= k < |ms| ==> Follows(ms[from[k]], ns[k], at, removed, 0))
    && (SortedByPos(ms) ==> SortedByPos(ns) && from == Unmoved(|ms|))
  }

  lemma Composed(f: seq<nat>, g: seq<nat>, n: nat) returns (h: seq<nat>)
    requires Reorders(f, n) && Reorders(g, n)
    ensures Reorders(h, n) && forall k :: 0 <= k < n ==> h[k] == f[g[k]]
    ensures f == g == Unmoved(n) ==> h == Unmoved(n)
  {
    h := seq(n, k requires 0 <= k < n => f[g[k]]);
  }

  lemma BothParts(ms: seq<Marker>, mid: seq<Marker>, ns: seq<Marker>, f: seq<nat>, g: seq<nat>, start: nat, end: nat, len: nat)
    returns (from: seq<nat>)
    requires start <= end <= len && MarkersFit(ms, len)
    requires Carried(ms, mid, end, len - end, f) && Carried(mid, ns, 0, start, g)
    ensures |ns| == |ms| && Reorders(from, |ms|) && (SortedByPos(ms) ==> SortedByPos(ns) && from == Unmoved(|ms|))
    ensures forall k :: 0 <= k < |ms| ==> Trimmed(ms[from[k]], ns[k], start, end)
  {
    hide Follows, Trimmed, SortedByPos;
    from := Composed(f, g, |ms|);
    forall k | 0 <= k < |ms| ensures Trimmed(ms[from[k]], ns[k], start, end) {
      assert ms[from[k]] in ms;
      FollowTwice(ms[from[k]], mid[g[k]], ns[k], start, end, len);
    }
  }

  lemma TrimOps(audio: Samples, ms: seq<Marker>, r: Range)
    requires r.start < r.end <= |audio| && TrimEdit(r, |audio|).Some?
    ensures var p := Prepare(audio, ms, TrimEdit(r, |audio|).value);
            var first := ApplyOp(Work(audio, ms, false), Replace(r.end, |audio| - r.end, [], Shift));
            && p.Ok? && first.Ok? && r.start <= |first.value.audio|
            && var second := ApplyOp(first.value, Replace(0, r.start, [], Shift));
               second.Ok? && p.value.markers == SortMarkers(second.value.markers)
  {
    hide SortMarkers, ShiftMarkers;
    TrimKeepsRange(audio, ms, r);
    var ops := TrimEdit(r, |audio|).value.ops;
    var w0 := Work(audio, ms, false);
    var w1 := ApplyOp(w0, ops[0]).value;
    var w2 := ApplyOp(w1, ops[1]).value;
    assert ops[1..] == [ops[1]] && [ops[1]][1..] == [];
    assert ApplyOps(w1, [ops[1]]) == ApplyOps(w2, []);
    assert ApplyOps(w0, ops) == ApplyOps(w1, ops[1..]);
  }

  lemma TrimMoves(audio: Samples, ms: seq<Marker>, r: Range)
    requires r.start < r.end <= |audio| && TrimEdit(r, |audio|).Some? && MarkersFit(ms, |audio|)
    ensures var p := Prepare(audio, ms, TrimEdit(r, |audio|).value);
            p.Ok? && TrimsMarkers(ms, p.value.markers, r.start, r.end)
  {
    hide Prepare, ApplyOp, Trimmed, SortMarkers, MarkersFit, TrimEdit, Carried;
    TrimOps(audio, ms, r);
    var w0 := Work(audio, ms, false);
    var w1 := ApplyOp(w0, Replace(r.end, |audio| - r.end, [], Shift)).value;
    var w2 := ApplyOp(w1, Replace(0, r.start, [], Shift)).value;
    var first := TailMoves(w0, r.end, |audio| - r.end);
    var second := TailMoves(w1, 0, r.start);
    var inner := BothParts(ms, w1.markers, w2.markers, first, second, r.start, r.end, |audio|);
    var third := SortsStably(w2.markers);
    var from := Composed(inner, third, |ms|);
    assert TrimmedBy(ms, SortMarkers(w2.markers), r.start, r.end, from);
    if SortedByPos(ms) {
      SortedStays(w2.markers);
      assert TrimmedBy(ms, w2.markers, r.start, r.end, Unmoved(|ms|));
    }
  }
}
