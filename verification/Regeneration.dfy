/**
 * Writing generated sections again (scripts/docs/check.py `replace_section`, run by `--write`):
 * when doing it twice is doing it once. The new content must not disturb the scan itself; then it
 * fails exactly if the section swallowed the only END marker of one that began before it.
 */
module Regeneration {
  import opened Wrappers
  import opened Text
  import opened Fences
  import opened Masking
  import opened Sections

  // --- A stretch behind a BEGIN marker, exchanged ----------------------------------------------------------

  /** In `s`, a BEGIN marker at `at` stops at `start`, and `end` starts another marker. */
  ghost predicate Framed(s: string, at: nat, start: nat, end: nat) {
    && start <= end < |s| && s[end] == '<'
    && MarkerAt(Begin, s, at).Some? && MarkerAt(Begin, s, at).value.end == start
  }

  ghost predicate NoMarkers(s: string) {
    forall k: Kind, p: nat :: k.Plain() ==> MarkerAt(k, s, p).None?
  }

  /** Where the text behind the exchanged stretch starts now. */
  function Behind(start: nat, mid: string): nat {
    start + |mid| + 2
  }

  lemma SplicedParts(s: string, start: nat, end: nat, mid: string)
    requires start <= end <= |s|
    ensures var t, b := Spliced(s, start, end, mid), Behind(start, mid);
            && |t| == b + |s| - end
            && t[..start] == s[..start] && t[start] == '\n' && t[start + 1..b - 1] == mid && t[b - 1] == '\n' && t[b..] == s[end..]
  {}

  lemma AgreeFront(s: string, start: nat, end: nat, mid: string, p: nat, n: nat)
    requires start <= end <= |s| && p + n <= start
    ensures Agree(s, p, Spliced(s, start, end, mid), p, n) && Agree(Spliced(s, start, end, mid), p, s, p, n)
  {
    hide Spliced;
    SplicedParts(s, start, end, mid);
    SameSlice(s, Spliced(s, start, end, mid), start, p, p + n);
  }

  lemma SameSlice(s: string, t: string, n: nat, p: nat, q: nat)
    requires p <= q <= n <= |s| && n <= |t| && s[..n] == t[..n]
    ensures s[p..q] == t[p..q]
  {
    SliceOfSlice(s, 0, n, p, q);
    SliceOfSlice(t, 0, n, p, q);
  }

  lemma AgreeBack(s: string, start: nat, end: nat, mid: string, p: nat, n: nat)
    requires start <= end <= |s| && end <= p && p + n <= |s|
    ensures var t, q := Spliced(s, start, end, mid), p - end + Behind(start, mid);
            Agree(s, p, t, q, n) && Agree(t, q, s, p, n)
  {
    var t, b := Spliced(s, start, end, mid), Behind(start, mid);
    SplicedParts(s, start, end, mid);
    hide Spliced;
    var q := p - end + b;
    SliceOfSlice(s, end, |s|, p - end, p - end + n);
    SliceOfSlice(t, b, |t|, q - b, q - b + n);
  }

  lemma AgreeMid(s: string, start: nat, end: nat, mid: string, q: nat, n: nat)
    requires start <= end <= |s| && q + n <= |mid|
    ensures Agree(Spliced(s, start, end, mid), start + 1 + q, mid, q, n)
  {
    var t, b := Spliced(s, start, end, mid), Behind(start, mid);
    SplicedParts(s, start, end, mid);
    hide Spliced;
    SliceOfSlice(t, start + 1, b - 1, q, q + n);
  }

  /** No marker starts inside another one, so one that starts before `start` stops by then. */
  lemma StopsBefore(s: string, at: nat, start: nat, k: Kind, p: nat)
    requires MarkerAt(Begin, s, at).Some? && MarkerAt(Begin, s, at).value.end == start
    requires p < start && k.Plain() && MarkerAt(k, s, p).Some?
    ensures MarkerAt(k, s, p).value.end <= start && p <= at
  {
    hide MarkerAt;
    MarkerShape(Begin, s, at);
    MarkerShape(k, s, p);
    if p == at && k.End? {
      BeginIsNoEnd(s, p, k.name);
    }
  }

  lemma MarkersInFront(s: string, at: nat, start: nat, end: nat, mid: string, k: Kind, p: nat)
    requires Framed(s, at, start, end) && p < start && k.Plain()
    ensures MarkerAt(k, Spliced(s, start, end, mid), p) == MarkerAt(k, s, p)
  {
    hide MarkerAt, Spliced, Agree;
    var t := Spliced(s, start, end, mid);
    AgreeFront(s, start, end, mid, at, start - at);
    MarkerLocal(Begin, s, at, t, at);
    if MarkerAt(k, s, p).Some? {
      StopsBefore(s, at, start, k, p);
      AgreeFront(s, start, end, mid, p, MarkerAt(k, s, p).value.end - p);
      MarkerLocal(k, s, p, t, p);
    } else if MarkerAt(k, t, p).Some? {
      StopsBefore(t, at, start, k, p);
      AgreeFront(s, start, end, mid, p, MarkerAt(k, t, p).value.end - p);
      MarkerLocal(k, t, p, s, p);
    }
  }

  lemma NoMarkersBetween(s: string, start: nat, end: nat, mid: string, k: Kind, p: nat)
    requires start <= end < |s| && s[end] == '<' && NoMarkers(mid)
    requires start <= p < Behind(start, mid) && k.Plain()
    ensures MarkerAt(k, Spliced(s, start, end, mid), p).None?
  {
    hide MarkerAt, Spliced, Agree;
    var t, b := Spliced(s, start, end, mid), Behind(start, mid);
    SplicedParts(s, start, end, mid);
    assert t[b] == t[b..][0] == s[end..][0] == '<';
    if MarkerAt(k, t, p).Some? {
      MarkerShape(k, t, p);
      var stop := MarkerAt(k, t, p).value.end;
      if stop < b {
        AgreeMid(s, start, end, mid, p - start - 1, stop - p);
        MarkerLocal(k, t, p, mid, p - start - 1);
      }
    }
  }

  lemma MarkersBehind(s: string, start: nat, end: nat, mid: string, k: Kind, p: nat)
    requires start <= end <= p && end <= |s|
    ensures var b := Behind(start, mid);
            MarkerAt(k, Spliced(s, start, end, mid), p - end + b) ==
              match MarkerAt(k, s, p) case None => None case Some(m) => Some(Found(m.name, m.end - end + b))
  {
    hide MarkerAt, Spliced, Agree;
    var t, b := Spliced(s, start, end, mid), Behind(start, mid);
    SplicedParts(s, start, end, mid);
    var q := p - end + b;
    if MarkerAt(k, s, p).Some? {
      AgreeBack(s, start, end, mid, p, MarkerAt(k, s, p).value.end - p);
      MarkerLocal(k, s, p, t, q);
    } else if MarkerAt(k, t, q).Some? {
      AgreeBack(s, start, end, mid, p, MarkerAt(k, t, q).value.end - q);
      MarkerLocal(k, t, q, s, p);
    }
  }

  // --- Sections by their markers ---------------------------------------------------------------------------

  predicate BeginsNamed(s: string, p: nat, name: string) {
    MarkerAt(Begin, s, p).Some? && MarkerAt(Begin, s, p).value.name == name
  }

  /** The first BEGIN marker of that name. */
  function FirstBegin(s: string, from: nat, name: string): (r: Option<nat>)
    ensures r.Some? ==> from <= r.value < |s| && BeginsNamed(s, r.value, name)
    ensures forall p :: from <= p < (if r.Some? then r.value else |s|) ==> !BeginsNamed(s, p, name)
    decreases |s| - from
  {
    if from >= |s| then None else if BeginsNamed(s, from, name) then Some(from) else FirstBegin(s, from + 1, name)
  }

  predicate Closed(s: string, p: nat) {
    MarkerAt(Begin, s, p).Some? ==>
      NextMarker(End(MarkerAt(Begin, s, p).value.name), s, MarkerAt(Begin, s, p).value.end).Some?
  }

  lemma NoBeginInside(s: string, p: nat, q: nat)
    requires MarkerAt(Begin, s, p).Some? && p < q < MarkerAt(Begin, s, p).value.end
    ensures MarkerAt(Begin, s, q).None?
  {
    hide MarkerAt;
    MarkerShape(Begin, s, p);
    if MarkerAt(Begin, s, q).Some? {
      MarkerShape(Begin, s, q);
    }
  }

  /** The scan succeeds exactly if every BEGIN marker has an END marker behind it. */
  lemma {:induction false} OkExactly(s: string, from: nat)
    ensures SectionsFrom(s, from).Ok? <==> forall p :: from <= p < |s| ==> Closed(s, p)
    decreases |s| - from
  {
    hide MarkerAt, NextMarker, SectionsFrom;
    SectionsStep(s, from);
    var next := NextMarker(Begin, s, from);
    if next.Some? {
      var m := MarkerAt(Begin, s, next.value).value;
      var stop := m.end;
      OkExactly(s, stop);
      assert Closed(s, next.value) <==> NextMarker(End(m.name), s, stop).Some?;
      forall p | from <= p < stop && p != next.value ensures Closed(s, p) {
        if next.value < p {
          NoBeginInside(s, next.value, p);
        }
      }
    } else {
      forall p | from <= p < |s| ensures Closed(s, p) {
        assert MarkerAt(Begin, s, p).None?;
      }
    }
  }

  /** The section that is found by name is the one its first BEGIN marker opens. */
  lemma {:induction false} FoundIsFirst(s: string, from: nat, name: string)
    requires SectionsFrom(s, from).Ok?
    ensures FindNamed(SectionsFrom(s, from).value, name) ==
            match FirstBegin(s, from, name)
            case None => None
            case Some(p) =>
              var stop := MarkerAt(Begin, s, p).value.end;
              match NextMarker(End(name), s, stop)
              case None => None
              case Some(e) => Some(Section(name, stop, e))
    ensures FirstBegin(s, from, name).Some? ==> Closed(s, FirstBegin(s, from, name).value)
    decreases |s| - from
  {
    hide MarkerAt, NextMarker, SectionsFrom, FirstBegin;
    SectionsStep(s, from);
    OkExactly(s, from);
    var next := NextMarker(Begin, s, from);
    if next.Some? {
      var m := MarkerAt(Begin, s, next.value).value;
      FoundIsFirst(s, m.end, name);
      if m.name != name {
        FirstIsLater(s, from, next.value, name);
        var rest := SectionsFrom(s, m.end).value;
        assert ([Section(m.name, m.end, NextMarker(End(m.name), s, m.end).value)] + rest)[1..] == rest;
      } else {
        FirstIs(s, from, next.value, name);
      }
    } else {
      NoFirst(s, from, name);
    }
  }

  lemma FirstIs(s: string, from: nat, p: nat, name: string)
    requires from <= p && BeginsNamed(s, p, name) && forall q :: from <= q < p ==> !BeginsNamed(s, q, name)
    ensures FirstBegin(s, from, name) == Some(p)
  {
    hide MarkerAt;
    var r := FirstBegin(s, from, name);
    assert MarkerAt(Begin, s, p).value.end <= |s|;
  }

  lemma NoFirst(s: string, from: nat, name: string)
    requires NextMarker(Begin, s, from) == None
    ensures FirstBegin(s, from, name) == None
  {
    hide MarkerAt;
  }

  lemma FirstIsLater(s: string, from: nat, p: nat, name: string)
    requires NextMarker(Begin, s, from) == Some(p) && MarkerAt(Begin, s, p).value.name != name
    ensures FirstBegin(s, from, name) == FirstBegin(s, MarkerAt(Begin, s, p).value.end, name)
  {
    hide MarkerAt;
    var stop := MarkerAt(Begin, s, p).value.end;
    forall q | from <= q < stop ensures !BeginsNamed(s, q, name) {
      if p < q {
        NoBeginInside(s, p, q);
      } else if q < p {
        assert MarkerAt(Begin, s, q).None?;
      }
    }
    var r := FirstBegin(s, stop, name);
    if r.Some? {
      FirstIs(s, from, r.value, name);
    }
  }

  // --- Writing a section twice -------------------------------------------------------------------------------

  /** Each section begun before `at` has an END marker outside [start, end). */
  ghost predicate StillClosed(s: string, at: nat, start: nat, end: nat) {
    forall p :: 0 <= p < at && MarkerAt(Begin, s, p).Some? ==> ClosedOutside(s, p, start, end)
  }

  ghost predicate ClosedOutside(s: string, p: nat, start: nat, end: nat)
    requires MarkerAt(Begin, s, p).Some?
  {
    var m := MarkerAt(Begin, s, p).value;
    exists q :: m.end <= q && (q < start || end <= q) && MarkerAt(End(m.name), s, q).Some?
  }

  lemma ClosedBy(s: string, p: nat, q: nat)
    requires MarkerAt(Begin, s, p).Some?
    requires MarkerAt(Begin, s, p).value.end <= q && MarkerAt(End(MarkerAt(Begin, s, p).value.name), s, q).Some?
    ensures Closed(s, p)
  {
    hide MarkerAt;
    assert MarkerAt(End(MarkerAt(Begin, s, p).value.name), s, q).value.end <= |s|;
  }

  /** After the exchange every BEGIN marker has its END marker, exactly if the earlier ones kept theirs. */
  lemma StillClosedExactly(s: string, at: nat, start: nat, end: nat, mid: string)
    requires Framed(s, at, start, end) && NoMarkers(mid)
    requires NextMarker(End(MarkerAt(Begin, s, at).value.name), s, start) == Some(end)
    requires forall p :: 0 <= p < |s| ==> Closed(s, p)
    ensures var t := Spliced(s, start, end, mid);
            (forall p :: 0 <= p < |t| ==> Closed(t, p)) <==> StillClosed(s, at, start, end)
  {
    hide MarkerAt, NextMarker, Spliced, NoMarkers;
    var t, b := Spliced(s, start, end, mid), Behind(start, mid);
    SplicedParts(s, start, end, mid);
    if StillClosed(s, at, start, end) {
      forall p | 0 <= p < |t| ensures Closed(t, p) {
        ClosedAfter(s, at, start, end, mid, p);
      }
    }
    if forall p :: 0 <= p < |t| ==> Closed(t, p) {
      forall p | 0 <= p < at && MarkerAt(Begin, s, p).Some? ensures ClosedOutside(s, p, start, end) {
        assert Closed(t, p);
        ClosedBefore(s, at, start, end, mid, p);
      }
    }
  }

  lemma ClosedAfter(s: string, at: nat, start: nat, end: nat, mid: string, p: nat)
    requires Framed(s, at, start, end) && NoMarkers(mid) && StillClosed(s, at, start, end)
    requires NextMarker(End(MarkerAt(Begin, s, at).value.name), s, start) == Some(end)
    requires forall q :: 0 <= q < |s| ==> Closed(s, q)
    ensures Closed(Spliced(s, start, end, mid), p)
  {
    hide MarkerAt, NextMarker, Spliced, NoMarkers;
    var t, b := Spliced(s, start, end, mid), Behind(start, mid);
    if MarkerAt(Begin, t, p).Some? {
      if p < start {
        MarkersInFront(s, at, start, end, mid, Begin, p);
        StopsBefore(s, at, start, Begin, p);
        MarkerShape(Begin, s, p);
        var m := MarkerAt(Begin, s, p).value;
        if p == at {
          MarkersBehind(s, start, end, mid, End(m.name), end);
          ClosedBy(t, p, b);
        } else {
          var q :| m.end <= q && (q < start || end <= q) && MarkerAt(End(m.name), s, q).Some?;
          if q < start {
            MarkersInFront(s, at, start, end, mid, End(m.name), q);
            ClosedBy(t, p, q);
          } else {
            MarkersBehind(s, start, end, mid, End(m.name), q);
            ClosedBy(t, p, q - end + b);
          }
        }
      } else if p < b {
        NoMarkersBetween(s, start, end, mid, Begin, p);
      } else {
        MarkersBehind(s, start, end, mid, Begin, p - b + end);
        var m := MarkerAt(Begin, s, p - b + end).value;
        assert Closed(s, p - b + end);
        var q := NextMarker(End(m.name), s, m.end).value;
        MarkersBehind(s, start, end, mid, End(m.name), q);
        ClosedBy(t, p, q - end + b);
      }
    }
  }

  lemma ClosedBefore(s: string, at: nat, start: nat, end: nat, mid: string, p: nat)
    requires Framed(s, at, start, end) && NoMarkers(mid) && p < at && MarkerAt(Begin, s, p).Some?
    requires Closed(Spliced(s, start, end, mid), p)
    ensures ClosedOutside(s, p, start, end)
  {
    hide MarkerAt, NextMarker, Spliced, NoMarkers;
    var t, b := Spliced(s, start, end, mid), Behind(start, mid);
    MarkerShape(Begin, s, p);
    MarkersInFront(s, at, start, end, mid, Begin, p);
    var m := MarkerAt(Begin, s, p).value;
    var k := End(m.name);
    var q := NextMarker(k, t, m.end).value;
    if q < start {
      MarkersInFront(s, at, start, end, mid, k, q);
      assert MarkerAt(k, s, q).Some?;
    } else if q < b {
      NoMarkersBetween(s, start, end, mid, k, q);
    } else {
      MarkersBehind(s, start, end, mid, k, q - b + end);
      assert MarkerAt(k, s, q - b + end).Some?;
    }
  }

  /** Content that neither leaves a fence open nor shows a marker. */
  ghost predicate Quiet(content: string) {
    OpenAfter(content) == None && NoMarkers(MaskOf(content))
  }

  /** The section that is replaced, in the masked text. */
  lemma WhereReplaced(text: string, name: string, content: string) returns (at: nat, start: nat, end: nat)
    requires Replaced(text, name, content).Ok?
    ensures var s := MaskOf(text);
            && |s| == |text| && Framed(s, at, start, end)
            && FirstBegin(s, 0, name) == Some(at) && NextMarker(End(name), s, start) == Some(end)
            && (forall p :: 0 <= p < |s| ==> Closed(s, p))
            && Replaced(text, name, content) == Ok(Spliced(text, start, end, Trimmed(content)))
  {
    hide MarkerAt, NextMarker, SectionsFrom, FirstBegin, MaskOf, Spliced;
    var s := MaskOf(text);
    MaskLength(text);
    FoundIsFirst(s, 0, name);
    OkExactly(s, 0);
    at := FirstBegin(s, 0, name).value;
    start := MarkerAt(Begin, s, at).value.end;
    MarkerShape(Begin, s, at);
    end := NextMarker(End(name), s, start).value;
    MarkerShape(End(name), s, end);
  }

  /** With quiet content the masked text changes as the text does. */
  lemma MaskFollows(text: string, at: nat, start: nat, end: nat, content: string)
    requires Framed(MaskOf(text), at, start, end) && |MaskOf(text)| == |text| && OpenAfter(content) == None
    ensures MaskOf(Spliced(text, start, end, content)) == Spliced(MaskOf(text), start, end, MaskOf(content))
    ensures |MaskOf(content)| == |content|
  {
    hide MarkerAt, MaskOf, OpenAfter;
    var s := MaskOf(text);
    MaskLength(text);
    MaskLength(content);
    MarkerShape(Begin, s, at);
    MaskSplices(text, start, end, content);
  }

  lemma NextIs(k: Kind, s: string, from: nat, p: nat)
    requires from <= p && MarkerAt(k, s, p).Some? && forall q :: from <= q < p ==> MarkerAt(k, s, q).None?
    ensures NextMarker(k, s, from) == Some(p)
  {
    hide MarkerAt;
    var r := NextMarker(k, s, from);
    assert p < MarkerAt(k, s, p).value.end <= |s|;
  }

  /** The section is found again at the same place, with an end that moved. */
  lemma FoundAgain(s: string, name: string, at: nat, start: nat, end: nat, mid: string)
    requires Framed(s, at, start, end) && NoMarkers(mid)
    requires FirstBegin(s, 0, name) == Some(at) && NextMarker(End(name), s, start) == Some(end)
    ensures var t := Spliced(s, start, end, mid);
            && FirstBegin(t, 0, name) == Some(at) && MarkerAt(Begin, t, at) == Some(Found(name, start))
            && NextMarker(End(name), t, start) == Some(Behind(start, mid))
  {
    hide MarkerAt, NextMarker, FirstBegin, Spliced, NoMarkers;
    var t, b := Spliced(s, start, end, mid), Behind(start, mid);
    MarkerShape(Begin, s, at);
    MarkersInFront(s, at, start, end, mid, Begin, at);
    forall q | 0 <= q < at ensures !BeginsNamed(t, q, name) {
      MarkersInFront(s, at, start, end, mid, Begin, q);
      assert !BeginsNamed(s, q, name);
    }
    FirstIs(t, 0, at, name);
    forall q | start <= q < b ensures MarkerAt(End(name), t, q).None? {
      NoMarkersBetween(s, start, end, mid, End(name), q);
    }
    MarkersBehind(s, start, end, mid, End(name), end);
    NextIs(End(name), t, start, b);
  }

  lemma SplicedTwice(text: string, start: nat, end: nat, content: string)
    requires start <= end <= |text|
    ensures var t, b := Spliced(text, start, end, content), Behind(start, content);
            start <= b <= |t| && Spliced(t, start, b, content) == t
  {
    SplicedParts(text, start, end, content);
  }

  lemma WrittenAgain(text: string, name: string, content: string, at: nat, start: nat, end: nat)
    requires var s := MaskOf(text);
             && |s| == |text| && Framed(s, at, start, end)
             && FirstBegin(s, 0, name) == Some(at) && NextMarker(End(name), s, start) == Some(end)
             && (forall p :: 0 <= p < |s| ==> Closed(s, p))
    requires Quiet(Trimmed(content))
    ensures var t := Spliced(text, start, end, Trimmed(content));
            && (Replaced(t, name, content).Ok? <==> StillClosed(MaskOf(text), at, start, end))
            && (Replaced(t, name, content).Ok? ==> Replaced(t, name, content) == Ok(t))
  {
    hide MarkerAt, NextMarker, FirstBegin, Spliced, NoMarkers, MaskOf, OpenAfter, SectionsFrom, StillClosed, Closed, Trimmed;
    var s, c := MaskOf(text), Trimmed(content);
    var t := Spliced(text, start, end, c);
    var u := MaskOf(t);
    BeginIsNamed(s, at, name);
    MaskFollows(text, at, start, end, c);
    StillClosedExactly(s, at, start, end, MaskOf(c));
    OkExactly(u, 0);
    FoundAgain(s, name, at, start, end, MaskOf(c));
    SplicedTwice(text, start, end, c);
    if SectionsFrom(u, 0).Ok? {
      FoundIsFirst(u, 0, name);
    }
  }

  lemma BeginIsNamed(s: string, at: nat, name: string)
    requires FirstBegin(s, 0, name) == Some(at)
    ensures MarkerAt(Begin, s, at).Some? && MarkerAt(Begin, s, at).value.name == name
  {
    hide MarkerAt;
  }

  /**
   * Writing a section a second time changes nothing. It still finds its sections, so succeeds, exactly
   * if no earlier section had its only END marker in the stretch that was replaced.
   */
  lemma WrittenTwice(text: string, name: string, content: string)
    requires Replaced(text, name, content).Ok? && Quiet(Trimmed(content))
    ensures var once := Replaced(text, name, content).value;
            var twice := Replaced(once, name, content);
            && (twice.Ok? <==> KeepsEnds(MaskOf(text), name))
            && (twice.Ok? ==> twice == Ok(once))
  {
    hide *;
    var at, start, end := WhereReplaced(text, name, content);
    WrittenAgain(text, name, content, at, start, end);
    KeepsEndsMeans(MaskOf(text), name, at, start, end);
  }

  /** Every section begun before the first one of that name ends outside it, or ends again behind it. */
  ghost predicate KeepsEnds(s: string, name: string) {
    var at := FirstBegin(s, 0, name);
    at.Some? ==>
      var start := MarkerAt(Begin, s, at.value).value.end;
      var end := NextMarker(End(name), s, start);
      end.Some? ==> StillClosed(s, at.value, start, end.value)
  }

  lemma KeepsEndsMeans(s: string, name: string, at: nat, start: nat, end: nat)
    requires FirstBegin(s, 0, name) == Some(at) && Framed(s, at, start, end) && NextMarker(End(name), s, start) == Some(end)
    ensures KeepsEnds(s, name) <==> StillClosed(s, at, start, end)
  {
    hide MarkerAt, NextMarker, FirstBegin, StillClosed;
  }

  /** What was written is what the next check reads between the markers. */
  lemma WrittenIsRead(text: string, name: string, content: string)
    requires Replaced(text, name, content).Ok? && Quiet(Trimmed(content)) && KeepsEnds(MaskOf(text), name)
    ensures var once := Replaced(text, name, content).value;
            var found := SectionsFrom(MaskOf(once), 0);
            && found.Ok? && FindNamed(found.value, name).Some?
            && var sec := FindNamed(found.value, name).value;
               sec.start <= sec.end <= |once| && once[sec.start..sec.end] == "\n" + Trimmed(content) + "\n"
  {
    hide *;
    var at, start, end := WhereReplaced(text, name, content);
    KeepsEndsMeans(MaskOf(text), name, at, start, end);
    ReadBack(text, name, Trimmed(content), at, start, end);
  }

  lemma ReadBack(text: string, name: string, c: string, at: nat, start: nat, end: nat)
    requires var s := MaskOf(text);
             && |s| == |text| && Framed(s, at, start, end) && StillClosed(s, at, start, end)
             && FirstBegin(s, 0, name) == Some(at) && NextMarker(End(name), s, start) == Some(end)
             && (forall p :: 0 <= p < |s| ==> Closed(s, p))
    requires Quiet(c)
    ensures var t := Spliced(text, start, end, c);
            var found := SectionsFrom(MaskOf(t), 0);
            && found.Ok? && FindNamed(found.value, name) == Some(Section(name, start, Behind(start, c)))
            && start <= Behind(start, c) <= |t| && t[start..Behind(start, c)] == "\n" + c + "\n"
  {
    hide MarkerAt, NextMarker, FirstBegin, NoMarkers, MaskOf, OpenAfter, SectionsFrom, StillClosed, Closed;
    var s := MaskOf(text);
    var u := MaskOf(Spliced(text, start, end, c));
    BeginIsNamed(s, at, name);
    MaskFollows(text, at, start, end, c);
    StillClosedExactly(s, at, start, end, MaskOf(c));
    OkExactly(u, 0);
    FoundAgain(s, name, at, start, end, MaskOf(c));
    FoundIsFirst(u, 0, name);
  }

  // --- Two sections that overlap -----------------------------------------------------------------------------

  /** Four markers in a row and nothing else: BEGIN a, BEGIN b, END a, END b. */
  ghost predicate Overlap(s: string, a: string, b: string, p: nat, q: nat, r: nat) {
    && a != b && '<' !in a && '<' !in b && 0 < p < q < r < |s|
    && MarkerAt(Begin, s, 0) == Some(Found(a, p)) && MarkerAt(Begin, s, p) == Some(Found(b, q))
    && MarkerAt(End(a), s, q) == Some(Found(a, r)) && MarkerAt(End(b), s, r) == Some(Found(b, |s|))
    && MarkerAt(End(b), s, q).None? && MarkerAt(End(a), s, r).None?
  }

  lemma OnlyThere(s: string, a: string, b: string, p: nat, q: nat, r: nat, k: Kind, i: nat)
    requires Overlap(s, a, b, p, q, r) && k.Plain() && MarkerAt(k, s, i).Some?
    ensures i == 0 || i == p || i == q || i == r
    ensures (i == 0 || i == p) <==> k.Begin?
  {
    hide MarkerAt;
    MarkerShape(Begin, s, 0);
    MarkerShape(Begin, s, p);
    MarkerShape(End(a), s, q);
    MarkerShape(End(b), s, r);
    MarkerShape(k, s, i);
    if k.End? {
      if i == 0 || i == p { BeginIsNoEnd(s, i, k.name); }
    } else {
      if i == q { BeginIsNoEnd(s, i, a); }
      if i == r { BeginIsNoEnd(s, i, b); }
    }
  }

  /** Every BEGIN marker has its END marker, but replacing b takes the one of a along. */
  lemma OverlapLosesAnEnd(s: string, a: string, b: string, p: nat, q: nat, r: nat)
    requires Overlap(s, a, b, p, q, r)
    ensures SectionsFrom(s, 0).Ok? && FirstBegin(s, 0, b) == Some(p) && NextMarker(End(b), s, q) == Some(r)
    ensures !KeepsEnds(s, b)
  {
    hide MarkerAt, NextMarker, SectionsFrom, FirstBegin;
    forall i | 0 <= i < |s| ensures Closed(s, i) {
      if MarkerAt(Begin, s, i).Some? {
        OnlyThere(s, a, b, p, q, r, Begin, i);
        ClosedBy(s, i, if i == 0 then q else r);
      }
    }
    OkExactly(s, 0);
    forall i | 0 <= i < p ensures !BeginsNamed(s, i, b) {
      if MarkerAt(Begin, s, i).Some? { OnlyThere(s, a, b, p, q, r, Begin, i); }
    }
    FirstIs(s, 0, p, b);
    forall i | q <= i < r ensures MarkerAt(End(b), s, i).None? {
      if MarkerAt(End(b), s, i).Some? { OnlyThere(s, a, b, p, q, r, End(b), i); }
    }
    NextIs(End(b), s, q, r);
    MarkerShape(End(b), s, r);
    KeepsEndsMeans(s, b, p, q, r);
    if ClosedOutside(s, 0, q, r) {
      var i :| p <= i && (i < q || r <= i) && MarkerAt(End(a), s, i).Some?;
      OnlyThere(s, a, b, p, q, r, End(a), i);
      assert false;
    }
    assert MarkerAt(Begin, s, 0).Some? && !ClosedOutside(s, 0, q, r);
  }

  /** Text without a line break, a back-tick or a tilde is not masked at all. */
  lemma NothingToMask(text: string)
    requires '\n' !in text && '`' !in text && '~' !in text
    ensures MaskOf(text) == text && OpenAfter(text) == None
  {
    assert text[..|text|] == text;
    FirstNewlineIs(text, |text|);
    SplitLast(text);
    NoFenceWithout(text);
    NoSpans(text);
    hide FenceOf, BlankInlineCode, MaskedLine;
    FirstLine(text, []);
    assert [text] + [] == [text];
    assert MaskedLines([text]) == [text];
    OpenStep([text], 0);
  }

  lemma NoFenceWithout(line: string)
    requires forall i :: 0 <= i < |line| ==> line[i] != '`' && line[i] != '~'
    ensures FenceOf(line).None?
  {
    hide IsSpace, RunOf;
    var d := Indent(line);
    assert d < |line| ==> line[d..][0] == line[d];
  }

  lemma NoSpans(line: string)
    requires forall i :: 0 <= i < |line| ==> line[i] != '`'
    ensures BlankInlineCode(line) == line
  {
    hide BlankFrom, Hidden;
    forall i | 0 <= i < |line| ensures BlankFrom(line, 0)[i] == line[i] {
      BlankFromAt(line, 0, i);
      NeverHidden(line, 0, i);
    }
  }

  lemma {:induction false} NeverHidden(line: string, p: nat, i: nat)
    requires p <= i < |line| && forall j :: 0 <= j < |line| ==> line[j] != '`'
    ensures !Hidden(line, p, i)
    decreases i - p
  {
    hide SpanAt, RunOf;
    assert line[p..][0] == line[p];
    TickRunTicks(line, p);
    NoSpanWithoutTicks(line, p);
    if p < i {
      NeverHidden(line, p + 1, i);
    }
  }

  lemma NoSpanWithoutTicks(line: string, p: nat)
    ensures p <= |line| ==> SpanAt(line, p, 0) == None
  {}

  function BeginTag(c: char): string {
    "<!-- BEGIN GENERATED: " + [c] + " -->"
  }

  function EndTag(c: char): string {
    "<!-- END GENERATED: " + [c] + " -->"
  }

  lemma BeginKeywordLit(tag: string, c: char)
    requires tag == BeginTag(c)
    ensures Lit(tag, 5, "BEGIN GENERATED:")
  {
    assert tag[5] == 'B' && tag[6] == 'E' && tag[7] == 'G' && tag[8] == 'I' && tag[9] == 'N' && tag[10] == ' ' &&
           tag[11] == 'G' && tag[12] == 'E' && tag[13] == 'N' && tag[14] == 'E' && tag[15] == 'R' &&
           tag[16] == 'A' && tag[17] == 'T' && tag[18] == 'E' && tag[19] == 'D' && tag[20] == ':';
    assert tag[5..21] == "BEGIN GENERATED:";
  }

  lemma BeginLits(tag: string, c: char)
    requires tag == BeginTag(c)
    ensures |tag| == 27 && Lit(tag, 0, OPEN) && Lit(tag, 24, CLOSE)
    ensures tag[4] == ' ' && tag[5] == 'B' && tag[21] == ' ' && tag[22] == c && tag[23] == ' ' && tag[24] == '-'
  {
    assert tag[0..4] == OPEN;
    assert tag[24..27] == CLOSE;
  }

  lemma EndKeywordLit(tag: string, c: char)
    requires tag == EndTag(c)
    ensures Lit(tag, 5, "END GENERATED:")
  {
    assert tag[5] == 'E' && tag[6] == 'N' && tag[7] == 'D' && tag[8] == ' ' && tag[9] == 'G' && tag[10] == 'E' &&
           tag[11] == 'N' && tag[12] == 'E' && tag[13] == 'R' && tag[14] == 'A' && tag[15] == 'T' &&
           tag[16] == 'E' && tag[17] == 'D' && tag[18] == ':';
    assert tag[5..19] == "END GENERATED:";
  }

  lemma EndLits(tag: string, c: char)
    requires tag == EndTag(c)
    ensures |tag| == 25 && Lit(tag, 0, OPEN) && Lit(tag, 22, CLOSE)
    ensures tag[4] == ' ' && tag[5] == 'E' && tag[19] == ' ' && tag[20] == c && tag[21] == ' ' && tag[22] == '-'
  {
    assert tag[0..4] == OPEN;
    assert tag[22..25] == CLOSE;
  }

  lemma BeginTagIs(tag: string, c: char)
    requires tag == BeginTag(c) && (c == 'a' || c == 'b')
    ensures |tag| == 27 && MarkerAt(Begin, tag, 0) == Some(Found([c], 27))
  {
    BeginLits(tag, c);
    BeginKeywordLit(tag, c);
    BeginTagParts(tag, c);
  }

  lemma BeginTagParts(tag: string, c: char)
    requires |tag| == 27 && Lit(tag, 0, OPEN) && Lit(tag, 5, "BEGIN GENERATED:") && Lit(tag, 24, CLOSE) && (c == 'a' || c == 'b')
    requires tag[4] == ' ' && tag[5] == 'B' && tag[21] == ' ' && tag[22] == c && tag[23] == ' ' && tag[24] == '-'
    ensures MarkerAt(Begin, tag, 0) == Some(Found([c], 27))
  {
    hide Lit;
    SkipIs(tag, 4, 5);
    SkipIs(tag, 21, 22);
    NameEndIs(tag, 22, 23);
    SkipIs(tag, 23, 24);
    hide SkipSpace, NameEnd;
    assert tag[22..23] == [c];
  }

  lemma EndTagIs(tag: string, c: char)
    requires tag == EndTag(c) && (c == 'a' || c == 'b')
    ensures |tag| == 25 && MarkerAt(End([c]), tag, 0) == Some(Found([c], 25))
    ensures forall d :: d != c ==> MarkerAt(End([d]), tag, 0).None?
  {
    EndLits(tag, c);
    EndKeywordLit(tag, c);
    EndTagParts(tag, c);
  }

  lemma EndTagParts(tag: string, c: char)
    requires |tag| == 25 && Lit(tag, 0, OPEN) && Lit(tag, 5, "END GENERATED:") && Lit(tag, 22, CLOSE) && (c == 'a' || c == 'b')
    requires tag[4] == ' ' && tag[5] == 'E' && tag[19] == ' ' && tag[20] == c && tag[21] == ' ' && tag[22] == '-'
    ensures MarkerAt(End([c]), tag, 0) == Some(Found([c], 25))
    ensures forall d :: d != c ==> MarkerAt(End([d]), tag, 0).None?
  {
    SkipIs(tag, 4, 5);
    SkipIs(tag, 19, 20);
    SkipIs(tag, 21, 22);
    assert tag[20..21] == [c];
    hide Lit, SkipSpace;
    assert Lit(tag, 20, [c]) by { OneChar(tag, 20); }
    forall d | d != c ensures MarkerAt(End([d]), tag, 0).None? {
      LitFirst(tag, 20, [d]);
    }
  }

  lemma OneChar(s: string, p: nat)
    requires p < |s|
    ensures Lit(s, p, [s[p]])
  {
    assert s[p..p + 1] == [s[p]];
  }

  lemma AgreeIn(s: string, x: string, y: string, z: string, n: nat)
    requires s == x + y + z && n <= |y|
    ensures Agree(s, |x|, y, 0, n) && Agree(y, 0, s, |x|, n)
  {
    assert s[|x|..|x| + n] == y[..n] == y[0..n];
  }

  /** A marker that is missing in `y` is missing where `y` stands in a longer text, before a '<' or the end. */
  lemma StillNoMarker(s: string, x: string, y: string, z: string, k: Kind)
    requires s == x + y + z && (z != [] ==> z[0] == '<') && y != [] && k.Plain() && MarkerAt(k, y, 0).None?
    ensures MarkerAt(k, s, |x|).None?
  {
    hide MarkerAt, Agree;
    if MarkerAt(k, s, |x|).Some? {
      MarkerShape(k, s, |x|);
      assert z != [] ==> s[|x| + |y|] == '<';
      var n := MarkerAt(k, s, |x|).value.end - |x|;
      AgreeIn(s, x, y, z, n);
      MarkerLocal(k, s, |x|, y, 0);
    }
  }

  lemma MarkerIn(s: string, x: string, y: string, z: string, k: Kind, name: string)
    requires s == x + y + z && MarkerAt(k, y, 0) == Some(Found(name, |y|))
    ensures MarkerAt(k, s, |x|) == Some(Found(name, |x| + |y|))
  {
    hide MarkerAt, Agree;
    AgreeIn(s, x, y, z, |y|);
    MarkerLocal(k, y, 0, s, |x|);
  }

  lemma Regroup(x: string, y: string, z: string, w: string)
    ensures var s := x + y + z + w;
            s == [] + x + (y + z + w) && s == x + y + (z + w) && s == (x + y) + z + w && s == (x + y + z) + w + []
  {
    assert x + y + (z + w) == x + y + z + w;
    assert [] + x == x && x + (y + z + w) == x + y + z + w;
    assert (x + y + z) + w + [] == x + y + z + w;
  }

  lemma MarkersInARow(x: string, y: string, z: string, w: string, a: string, b: string)
    requires a != b && '<' !in a && '<' !in b
    requires MarkerAt(Begin, x, 0) == Some(Found(a, |x|)) && MarkerAt(Begin, y, 0) == Some(Found(b, |y|))
    requires MarkerAt(End(a), z, 0) == Some(Found(a, |z|)) && MarkerAt(End(b), w, 0) == Some(Found(b, |w|))
    requires MarkerAt(End(b), z, 0).None? && MarkerAt(End(a), w, 0).None?
    ensures Overlap(x + y + z + w, a, b, |x|, |x| + |y|, |x| + |y| + |z|)
  {
    hide MarkerAt;
    var s := x + y + z + w;
    Regroup(x, y, z, w);
    MarkerShape(End(b), w, 0);
    MarkerIn(s, [], x, y + z + w, Begin, a);
    MarkerIn(s, x, y, z + w, Begin, b);
    MarkerIn(s, x + y, z, w, End(a), a);
    MarkerIn(s, x + y + z, w, [], End(b), b);
    StillNoMarker(s, x + y, z, w, End(b));
    StillNoMarker(s, x + y + z, w, [], End(a));
  }

  predicate Unmaskable(text: string) {
    '\n' !in text && '`' !in text && '~' !in text
  }

  lemma TagsAreNotMasked(c: char)
    requires c == 'a' || c == 'b'
    ensures Unmaskable(BeginTag(c)) && Unmaskable(EndTag(c))
  {
    assert Unmaskable("<!-- BEGIN GENERATED: ") && Unmaskable("<!-- END GENERATED: ") && Unmaskable(" -->");
  }

  lemma JoinedUnmaskable(x: string, y: string)
    requires Unmaskable(x) && Unmaskable(y)
    ensures Unmaskable(x + y)
  {}

  lemma OneLetterIsQuiet(c: string)
    requires |c| == 1 && c[0] != '\n' && c[0] != '`' && c[0] != '~'
    ensures Trimmed(c) == c && Quiet(c)
  {
    hide MaskOf, OpenAfter, NoMarkers;
    NothingToMask(c);
    ShortShowsNothing(c);
  }

  lemma ShortShowsNothing(s: string)
    requires |s| < 4
    ensures NoMarkers(s)
  {
    hide NameAt;
  }

  lemma CanReplace(text: string, name: string, content: string, at: nat, start: nat, end: nat)
    requires MaskOf(text) == text && SectionsFrom(text, 0).Ok? && FirstBegin(text, 0, name) == Some(at)
    requires MarkerAt(Begin, text, at) == Some(Found(name, start)) && NextMarker(End(name), text, start) == Some(end)
    ensures Replaced(text, name, content).Ok?
  {
    hide MaskOf, SectionsFrom, FirstBegin, MarkerAt, NextMarker;
    FoundIsFirst(text, 0, name);
  }

  const OVERLAP := BeginTag('a') + BeginTag('b') + EndTag('a') + EndTag('b')

  lemma OverlapIsOne()
    ensures Overlap(OVERLAP, "a", "b", 27, 54, 79) && Unmaskable(OVERLAP)
  {
    hide MarkerAt, BeginTag, EndTag, Unmaskable, Overlap;
    var x, y, z, w := BeginTag('a'), BeginTag('b'), EndTag('a'), EndTag('b');
    BeginTagIs(x, 'a');
    BeginTagIs(y, 'b');
    EndTagIs(z, 'a');
    EndTagIs(w, 'b');
    TagsAreNotMasked('a');
    TagsAreNotMasked('b');
    MarkersInARow(x, y, z, w, "a", "b");
    JoinedUnmaskable(x, y);
    JoinedUnmaskable(x + y, z);
    JoinedUnmaskable(x + y + z, w);
  }

  /** Two sections that overlap: the second can be written once, and then the document is refused. */
  lemma OverlapIsRefused()
    ensures Replaced(OVERLAP, "b", "x").Ok? && Replaced(Replaced(OVERLAP, "b", "x").value, "b", "x").Err?
  {
    hide MarkerAt, BeginTag, EndTag, MaskOf, Replaced, KeepsEnds, Quiet, Trimmed, SectionsFrom, FirstBegin, NextMarker;
    OverlapIsOne();
    NothingToMask(OVERLAP);
    OverlapLosesAnEnd(OVERLAP, "a", "b", 27, 54, 79);
    OneLetterIsQuiet("x");
    CanReplace(OVERLAP, "b", "x", 27, 54, 79);
    WrittenTwice(OVERLAP, "b", "x");
  }
}
