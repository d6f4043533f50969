/**
 * What a saved document is opened with: the audio of its file, and the markers of its sidecar as
 * long as the file's cues still are theirs.
 */
module Reopening {
  import opened Wrappers
  import opened Audio
  import opened Racks
  import opened Document
  import opened Histories
  import opened Ledgers
  import opened EditOps
  import opened Markers
  import opened Service
  import opened World
  import opened Evolution
  import opened SaveSafety
  import opened CueSafety

  /** The same place, length and name; ids and kinds are not in a cue. */
  predicate SameCue(m: Marker, n: Marker) {
    m.pos == n.pos && m.len == n.len && m.name == n.name
  }

  /** `ns` is `ms` in some order, up to ids and kinds. */
  ghost predicate SameCues(ms: seq<Marker>, ns: seq<Marker>) {
    exists from :: Matches(ms, ns, from)
  }

  ghost predicate Matches(ms: seq<Marker>, ns: seq<Marker>, from: seq<nat>) {
    && |ns| == |ms| && Reorders(from, |ms|)
    && (forall k :: 0 <= k < |ns| ==> SameCue(ms[from[k]], ns[k]))
  }

  // --- Cues -----------------------------------------------------------------------------------------

  function Without<T>(xs: seq<T>, i: nat): (r: seq<T>)
    requires i < |xs|
    ensures |r| == |xs| - 1
    ensures forall k :: 0 <= k < i ==> r[k] == xs[k]
    ensures forall k :: i <= k < |r| ==> r[k] == xs[k + 1]
  {
    xs[..i] + xs[i + 1..]
  }

  function Cues(ms: seq<Marker>): (r: seq<Cue>)
    ensures |r| == |ms| && multiset(r) == CuesOf(ms)
    ensures forall k :: 0 <= k < |ms| ==> r[k] == CueOf(ms[k])
  {
    seq(|ms|, k requires 0 <= k < |ms| => CueOf(ms[k]))
  }

  lemma CuesWithout(ms: seq<Marker>, i: nat)
    requires i < |ms|
    ensures CuesOf(ms) == CuesOf(Without(ms, i)) + multiset{CueOf(ms[i])}
    ensures CuesOf(Without(ms, i)) == CuesOf(ms) - multiset{CueOf(ms[i])}
  {
    hide Cues, CuesOf, Without;
    var rest := Without(ms, i);
    var cues, less := Cues(ms), Cues(rest);
    assert less == cues[..i] + cues[i + 1..];
    assert cues == cues[..i] + [cues[i]] + cues[i + 1..];
    assert multiset(cues) == multiset(less) + multiset{cues[i]};
  }

  lemma HasCue(ms: seq<Marker>, c: Cue) returns (i: nat)
    requires c in CuesOf(ms)
    ensures i < |ms| && CueOf(ms[i]) == c
  {
    assert c in Cues(ms);
    i :| i < |ms| && Cues(ms)[i] == c;
  }

  /** Two lists leave the same cues exactly if they are the same up to order, ids and kinds. */
  lemma SameCuesExactly(ms: seq<Marker>, ns: seq<Marker>)
    ensures CuesOf(ms) == CuesOf(ns) <==> SameCues(ms, ns)
  {
    if CuesOf(ms) == CuesOf(ns) {
      var from := MatchCues(ms, ns);
    }
    if SameCues(ms, ns) {
      var from :| Matches(ms, ns, from);
      MatchedCues(ms, ns, from);
    }
  }

  lemma {:induction false} MatchCues(ms: seq<Marker>, ns: seq<Marker>) returns (from: seq<nat>)
    requires CuesOf(ms) == CuesOf(ns)
    ensures Matches(ms, ns, from)
    decreases |ns|
  {
    hide CuesOf;
    CueCount(ms);
    CueCount(ns);
    if ns == [] {
      from := [];
    } else {
      var n := |ns| - 1;
      CuesWithout(ns, n);
      var i := HasCue(ms, CueOf(ns[n]));
      CuesWithout(ms, i);
      var rest := MatchCues(Without(ms, i), Without(ns, n));
      from := seq(n + 1, k requires 0 <= k <= n => if k == n then i else Past(rest[k], i));
    }
  }

  /** An index of a list without its `i`-th element, in the whole list. */
  function Past(k: nat, i: nat): nat {
    if k < i then k else k + 1
  }

  lemma {:induction false} MatchedCues(ms: seq<Marker>, ns: seq<Marker>, from: seq<nat>)
    requires Matches(ms, ns, from)
    ensures CuesOf(ms) == CuesOf(ns)
    decreases |ns|
  {
    if ns != [] {
      hide CuesOf;
      var n := |ns| - 1;
      var i := from[n];
      CuesWithout(ns, n);
      CuesWithout(ms, i);
      MatchedCues(Without(ms, i), Without(ns, n), seq(n, k requires 0 <= k < n => if from[k] < i then from[k] else from[k] - 1));
    }
  }

  // --- Opening ----------------------------------------------------------------------------------------

  /** The sidecar's markers count unless the file has readable cues that are not theirs. */
  ghost predicate UsesSidecar(image: FileImage, fileMarkers: seq<Marker>, sidecar: Option<seq<Marker>>) {
    sidecar.Some? && (image.cues.None? || SameCues(fileMarkers, sidecar.value))
  }

  /** The document that opens: the file's audio, the chosen markers in order, both unmodified and remembered as written. */
  lemma OpensWith(
    w: World, path: Path, fileMarkers: seq<Marker>, sidecar: Option<seq<Marker>>, rate: nat, format: Format,
    rack: Option<Rack>, io: bool)
    requires CanOpen(w, path, fileMarkers, sidecar) && !Recording(w.svc)
    ensures var v := StepOpen(w, path, fileMarkers, sidecar, rate, format, rack, io);
            && v.svc.open.Some?
            && var d := v.svc.open.value;
               && d.session == w.nextSession && v.nextSession == w.nextSession + 1
               && d.path == Some(path) && d.rateHz == rate && d.format == format && !d.recording && !d.Dirty()
               && d.hist.current.audio == w.files[path].audio && d.hist.undo == [] && d.hist.redo == []
               && SameList(if UsesSidecar(w.files[path], fileMarkers, sidecar) then sidecar.value else fileMarkers,
                           d.hist.current.markers)
               && d.sidecar == SidecarState(d.hist.current.audioRev, d.hist.current.markers, w.files[path].stamp)
               && v.svc.rack == if rack.Some? then rack.value else w.svc.rack
  {
    hide CuesOf, SameCues, SortMarkers;
    if sidecar.Some? {
      SameCuesExactly(fileMarkers, sidecar.value);
    }
    SortedIsSame(ChosenMarkers(w.files[path], fileMarkers, sidecar));
  }

  /**
   * What a save wrote is what opening reads: the audio, and with the sidecar it wrote every marker
   * with id and kind. Without a sidecar a WAV gives the markers back up to ids and kinds, and any
   * other container none.
   */
  lemma SavedThenOpened(prep: SavePrep, stamp: nat, fileMarkers: seq<Marker>, sidecar: Option<seq<Marker>>)
    requires var cues := WrittenImage(prep, stamp).cues;
             if cues.Some? then CuesOf(fileMarkers) == cues.value else fileMarkers == []
    requires sidecar.Some? ==> sidecar.value == prep.snapshot.markers
    ensures var image := WrittenImage(prep, stamp);
            && image.audio == prep.snapshot.audio
            && (sidecar.Some? ==> SameList(prep.snapshot.markers, OpenedMarkers(image, fileMarkers, sidecar)))
            && (sidecar.None? && prep.format.container == Wav ==>
                  SameCues(prep.snapshot.markers, OpenedMarkers(image, fileMarkers, sidecar)))
            && (sidecar.None? && prep.format.container != Wav ==> OpenedMarkers(image, fileMarkers, sidecar) == [])
  {
    hide CuesOf, SameCues;
    var image := WrittenImage(prep, stamp);
    var chosen := ChosenMarkers(image, fileMarkers, sidecar);
    SortedIsSame(chosen);
    SortedCues(chosen);
    SameCuesExactly(prep.snapshot.markers, OpenedMarkers(image, fileMarkers, sidecar));
  }
}
