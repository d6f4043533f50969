/** Paths that a case-insensitive file system confuses (scripts/check_case_collisions.py). */
module Collisions {
  import opened Sorting

  predicate EndsWith(s: string, suffix: string) {
    |suffix| <= |s| && s[|s| - |suffix|..] == suffix
  }

  /** A bundler finds a path by itself and, for a `.ts` module, also without the extension. */
  function ResolutionCandidates(path: string): (r: set<string>)
    ensures path in r
  {
    if EndsWith(path, ".ts") && !EndsWith(path, ".d.ts") then {path, path[..|path| - 3]} else {path}
  }

  /** A path answers to its own name and, without being a `.d.ts`, to what it is once `.ts` is put behind it. */
  lemma CandidatesExactly(path: string, c: string)
    ensures c in ResolutionCandidates(path) <==>
            c == path || (path == c + ".ts" && !exists stem: string :: path == stem + ".d.ts")
  {
    if EndsWith(path, ".ts") {
      assert path[..|path| - 3] + ".ts" == path;
    }
    if EndsWith(path, ".d.ts") {
      assert path == path[..|path| - 5] + ".d.ts";
    }
    if path == c + ".ts" {
      assert path[|path| - 3..] == ".ts" && path[..|path| - 3] == c;
    }
    if stem: string :| path == stem + ".d.ts" {
      assert path[|path| - 5..] == ".d.ts";
    }
  }

  function Lowered(path: string, lower: string -> string): set<string> {
    set c | c in ResolutionCandidates(path) :: lower(c)
  }

  /** Two paths share a candidate once case is ignored. */
  predicate Collide(a: string, b: string, lower: string -> string) {
    Lowered(a, lower) * Lowered(b, lower) != {}
  }

  datatype Collision = Collision(shared: string, first: string, second: string)

  function Pair(c: Collision): (string, string) {
    (c.first, c.second)
  }

  predicate Before(a: Collision, b: Collision) {
    if a.shared != b.shared then AtMost(a.shared, b.shared)
    else if a.first != b.first then AtMost(a.first, b.first)
    else AtMost(a.second, b.second)
  }

  lemma CollisionsOrdered()
    ensures TotalOrder(Before)
  {
    StringsOrdered();
    forall a: Collision, b: Collision ensures Before(a, b) || Before(b, a) {}
    forall a: Collision, b: Collision | Before(a, b) && Before(b, a) ensures a == b {}
    forall a: Collision, b: Collision, c: Collision | Before(a, b) && Before(b, c) ensures Before(a, c) {}
  }

  function SetOf(paths: seq<string>): set<string> {
    set p | p in paths
  }

  // --- The index ------------------------------------------------------------------------------------------

  /** Lowered candidates in the order they came up, and the paths each could resolve to. */
  datatype Index = Index(keys: seq<string>, sources: map<string, seq<string>>)

  predicate NoRepeats(s: seq<string>) {
    forall i, j :: 0 <= i < j < |s| ==> s[i] != s[j]
  }

  /** Every key once, with exactly the paths among `paths` that lower to it, each once. */
  ghost predicate Indexes(ix: Index, paths: set<string>, lower: string -> string) {
    && NoRepeats(ix.keys)
    && (forall k :: k in ix.keys <==> k in ix.sources)
    && (forall k :: k in ix.sources ==> NoRepeats(ix.sources[k]))
    && (forall k, p :: k in ix.sources && p in ix.sources[k] ==> p in paths && k in Lowered(p, lower))
    && (forall p, k :: p in paths && k in Lowered(p, lower) ==> k in ix.sources && p in ix.sources[k])
  }

  /** `Indexes` while the candidates of `path` are being added: those in `done` are in. */
  ghost predicate Indexing(ix: Index, paths: set<string>, lower: string -> string, path: string, done: set<string>) {
    && NoRepeats(ix.keys)
    && (forall k :: k in ix.keys <==> k in ix.sources)
    && (forall k :: k in ix.sources ==> NoRepeats(ix.sources[k]))
    && (forall k, p :: k in ix.sources && p in ix.sources[k] ==> (p in paths || p == path) && k in Lowered(p, lower))
    && (forall p, k :: p in paths && k in Lowered(p, lower) ==> k in ix.sources && p in ix.sources[k])
    && (forall c :: c in done ==> lower(c) in ix.sources && path in ix.sources[lower(c)])
  }

  function Added(ix: Index, key: string, path: string): Index {
    var at := if key in ix.sources then ix.sources[key] else [];
    Index(if key in ix.sources then ix.keys else ix.keys + [key],
          ix.sources[key := if path in at then at else at + [path]])
  }

  /** What adding `path` under `key` does to the index, key by key. */
  lemma AddedSources(ix: Index, key: string, path: string)
    ensures var more := Added(ix, key, path);
            && (forall k :: k in more.sources <==> k in ix.sources || k == key)
            && (forall k :: k in ix.sources && k != key ==> more.sources[k] == ix.sources[k])
            && (forall p :: p in more.sources[key] <==> p == path || (key in ix.sources && p in ix.sources[key]))
  {}

  lemma AddedDistinct(ix: Index, key: string, path: string)
    requires NoRepeats(ix.keys) && (forall k :: k in ix.keys <==> k in ix.sources)
    requires forall k :: k in ix.sources ==> NoRepeats(ix.sources[k])
    ensures var more := Added(ix, key, path);
            && NoRepeats(more.keys) && (forall k :: k in more.keys <==> k in more.sources)
            && (forall k :: k in more.sources ==> NoRepeats(more.sources[k]))
  {}

  lemma AddedIndexes(ix: Index, paths: set<string>, lower: string -> string, path: string, done: set<string>, c: string)
    requires Indexing(ix, paths, lower, path, done) && c in ResolutionCandidates(path)
    ensures Indexing(Added(ix, lower(c), path), paths, lower, path, done + {c})
  {
    hide ResolutionCandidates, Lowered, Added, NoRepeats;
    LoweredHas(path, lower, c);
    AddedSources(ix, lower(c), path);
    AddedDistinct(ix, lower(c), path);
  }

  lemma LoweredHas(path: string, lower: string -> string, c: string)
    requires c in ResolutionCandidates(path)
    ensures lower(c) in Lowered(path, lower)
  {}

  lemma IndexingStarts(ix: Index, paths: set<string>, lower: string -> string, path: string)
    requires Indexes(ix, paths, lower)
    ensures Indexing(ix, paths, lower, path, {})
  {}

  lemma IndexingEnds(ix: Index, paths: set<string>, lower: string -> string, path: string)
    requires Indexing(ix, paths, lower, path, ResolutionCandidates(path))
    ensures Indexes(ix, paths + {path}, lower)
  {}

  /** Fills the index; the candidates of a path come in no particular order. */
  method BuildIndex(paths: seq<string>, lower: string -> string) returns (ix: Index)
    ensures Indexes(ix, SetOf(paths), lower)
  {
    hide Indexes, Indexing, Added, ResolutionCandidates;
    ix := Index([], map[]);
    EmptyIndex(lower);
    ghost var seen: set<string> := {};
    for i := 0 to |paths|
      invariant Indexes(ix, seen, lower) && seen == SetOf(paths[..i])
    {
      var path := paths[i];
      var todo := ResolutionCandidates(path);
      ghost var done: set<string> := {};
      IndexingStarts(ix, seen, lower, path);
      while todo != {}
        invariant done + todo == ResolutionCandidates(path) && Indexing(ix, seen, lower, path, done)
        decreases todo
      {
        var c :| c in todo;
        AddedIndexes(ix, seen, lower, path, done, c);
        ix := Added(ix, lower(c), path);
        todo := todo - {c};
        done := done + {c};
      }
      IndexingEnds(ix, seen, lower, path);
      seen := seen + {path};
      assert paths[..i + 1] == paths[..i] + [path];
    }
    assert paths[..|paths|] == paths;
  }

  lemma EmptyIndex(lower: string -> string)
    ensures Indexes(Index([], map[]), {}, lower)
  {}

  // --- The report -----------------------------------------------------------------------------------------

  /** Sound: distinct pairs of indexed paths in order, each with a candidate both share. */
  ghost predicate Sound(out: seq<Collision>, paths: set<string>, lower: string -> string) {
    && (forall c :: c in out ==>
          && c.first in paths && c.second in paths && c.first != c.second && AtMost(c.first, c.second)
          && c.shared in Lowered(c.first, lower) && c.shared in Lowered(c.second, lower))
    && (forall i, j :: 0 <= i < j < |out| ==> Pair(out[i]) != Pair(out[j]))
  }

  ghost predicate PairsAre(out: seq<Collision>, seen: set<(string, string)>) {
    forall p :: p in seen <==> exists c :: c in out && Pair(c) == p
  }

  /** Every pair of `names` that comes before position (`i`, `j`) has been reported. */
  ghost predicate Covered(names: seq<string>, i: int, j: int, seen: set<(string, string)>) {
    forall x, y :: 0 <= x < y < |names| && (x < i || (x == i && y < j)) ==> (names[x], names[y]) in seen
  }

  lemma PairsGrow(out: seq<Collision>, seen: set<(string, string)>, c: Collision)
    requires PairsAre(out, seen)
    ensures PairsAre(out + [c], seen + {Pair(c)})
  {
    forall p ensures p in seen + {Pair(c)} <==> exists d :: d in out + [c] && Pair(d) == p {
      if p in seen {
        var d :| d in out && Pair(d) == p;
        assert d in out + [c];
      }
      if p == Pair(c) {
        assert c in out + [c];
      }
    }
  }

  lemma SoundGrows(out: seq<Collision>, seen: set<(string, string)>, c: Collision, paths: set<string>, lower: string -> string)
    requires Sound(out, paths, lower) && PairsAre(out, seen) && Pair(c) !in seen
    requires c.first in paths && c.second in paths && c.first != c.second && AtMost(c.first, c.second)
    requires c.shared in Lowered(c.first, lower) && c.shared in Lowered(c.second, lower)
    ensures Sound(out + [c], paths, lower)
  {
    var more := out + [c];
    forall i, j | 0 <= i < j < |more| ensures Pair(more[i]) != Pair(more[j]) {
      if j == |out| {
        assert more[i] in out;
      }
    }
  }

  /** The pairs under one lowered name. */
  method ReportPairs(
    lowered: string, names: seq<string>, out0: seq<Collision>, seen0: set<(string, string)>, ghost paths: set<string>,
    ghost lower: string -> string)
    returns (out: seq<Collision>, seen: set<(string, string)>)
    requires Sound(out0, paths, lower) && PairsAre(out0, seen0)
    requires NoRepeats(names) && IsSorted(AtMost, names)
    requires forall p :: p in names ==> p in paths && lowered in Lowered(p, lower)
    ensures Sound(out, paths, lower) && PairsAre(out, seen) && seen0 <= seen
    ensures Covered(names, |names|, 0, seen)
  {
    hide Sound, PairsAre, Lowered, AtMost;
    out, seen := out0, seen0;
    for i := 0 to |names|
      invariant Sound(out, paths, lower) && PairsAre(out, seen) && seen0 <= seen
      invariant Covered(names, i, 0, seen)
    {
      for j := i + 1 to |names|
        invariant Sound(out, paths, lower) && PairsAre(out, seen) && seen0 <= seen
        invariant Covered(names, i, j, seen)
      {
        var pair := (names[i], names[j]);
        if pair !in seen {
          var c := Collision(lowered, names[i], names[j]);
          assert names[i] in names && names[j] in names;
          SoundGrows(out, seen, c, paths, lower);
          PairsGrow(out, seen, c);
          seen := seen + {pair};
          out := out + [c];
        }
      }
    }
  }

  /** All pairs under the first `n` keys have been reported. */
  ghost predicate Reported(ix: Index, n: nat, seen: set<(string, string)>) {
    var done := ix.keys[..if n <= |ix.keys| then n else |ix.keys|];
    forall k, a, b :: k in done && k in ix.sources && a in ix.sources[k] && b in ix.sources[k] && a != b && AtMost(a, b) ==>
      (a, b) in seen
  }

  lemma CoversKey(names: seq<string>, sources: seq<string>, seen: set<(string, string)>)
    requires multiset(names) == multiset(sources) && IsSorted(AtMost, names) && Covered(names, |names|, 0, seen)
    ensures forall a, b :: a in sources && b in sources && a != b && AtMost(a, b) ==> (a, b) in seen
  {
    SameMembers(names, sources);
    forall a, b | a in sources && b in sources && a != b && AtMost(a, b) ensures (a, b) in seen {
      var x :| 0 <= x < |names| && names[x] == a;
      var y :| 0 <= y < |names| && names[y] == b;
      AtMostTotal(a, b);
    }
  }

  lemma SortedNoRepeats(s: seq<string>, t: seq<string>)
    requires NoRepeats(s) && multiset(s) == multiset(t)
    ensures NoRepeats(t)
  {
    forall i, j | 0 <= i < j < |t| ensures t[i] != t[j] {
      if t[i] == t[j] {
        TwiceIn(t, i, j);
        OnceIn(s, t[i]);
        assert false;
      }
    }
  }

  lemma TwiceIn(t: seq<string>, i: nat, j: nat)
    requires i < j < |t| && t[i] == t[j]
    ensures multiset(t)[t[i]] >= 2
  {
    assert t == t[..j] + [t[j]] + t[j + 1..];
    assert t[..j][i] == t[i];
  }

  lemma {:induction false} OnceIn(s: seq<string>, x: string)
    requires NoRepeats(s)
    ensures multiset(s)[x] <= 1
    decreases |s|
  {
    if s != [] {
      assert s == [s[0]] + s[1..];
      OnceIn(s[1..], x);
      if s[0] == x {
        assert x !in s[1..];
      }
    }
  }

  /**
   * The index finds exactly what comparing every pair of paths would: each colliding pair once, under
   * a name that both lower to, in sorted order.
   */
  method FindCollisions(paths: seq<string>, lower: string -> string) returns (out: seq<Collision>)
    ensures Sound(out, SetOf(paths), lower)
    ensures forall a, b :: a in paths && b in paths && a != b && AtMost(a, b) ==>
              (Collide(a, b, lower) <==> exists c :: c in out && Pair(c) == (a, b))
    ensures IsSorted(Before, out)
  {
    hide Indexes, Lowered, Sound, PairsAre, AtMost, Sort, Collide, Reported, Covered, NoRepeats, Before, IsSorted;
    var ix := BuildIndex(paths, lower);
    ghost var all := SetOf(paths);
    var found: seq<Collision> := [];
    var seen: set<(string, string)> := {};
    NothingFound(ix, all, lower);
    for n := 0 to |ix.keys|
      invariant Sound(found, all, lower) && PairsAre(found, seen) && Reported(ix, n, seen)
    {
      IndexAt(ix, all, lower, n);
      var lowered := ix.keys[n];
      var sources := ix.sources[lowered];
      if |sources| < 2 {
        FewSources(ix, n, seen);
        continue;
      }
      var names := Sort(AtMost, sources);
      StringsOrdered();
      SortSorts(AtMost, sources);
      SortedNoRepeats(sources, names);
      SameMembers(names, sources);
      ghost var before := seen;
      found, seen := ReportPairs(lowered, names, found, seen, all, lower);
      CoversKey(names, sources, seen);
      ReportedGrows(ix, n, before, seen);
    }
    out := Sort(Before, found);
    CollisionsOrdered();
    SortSorts(Before, found);
    SortKeepsSound(found, out, seen, all, lower);
    Complete(ix, all, lower, out, seen);
  }

  lemma NothingFound(ix: Index, all: set<string>, lower: string -> string)
    ensures Sound([], all, lower) && PairsAre([], {}) && Reported(ix, 0, {})
  {}

  lemma IndexAt(ix: Index, all: set<string>, lower: string -> string, n: nat)
    requires Indexes(ix, all, lower) && n < |ix.keys|
    ensures ix.keys[n] in ix.sources && NoRepeats(ix.sources[ix.keys[n]])
    ensures forall p :: p in ix.sources[ix.keys[n]] ==> p in all && ix.keys[n] in Lowered(p, lower)
  {
    assert ix.keys[n] in ix.keys;
  }

  lemma ReportedGrows(ix: Index, n: nat, before: set<(string, string)>, seen: set<(string, string)>)
    requires n < |ix.keys| && ix.keys[n] in ix.sources && Reported(ix, n, before) && before <= seen
    requires var sources := ix.sources[ix.keys[n]];
             forall a, b :: a in sources && b in sources && a != b && AtMost(a, b) ==> (a, b) in seen
    ensures Reported(ix, n + 1, seen)
  {
    hide AtMost;
    assert ix.keys[..n + 1] == ix.keys[..n] + [ix.keys[n]];
  }

  lemma FewSources(ix: Index, n: nat, seen: set<(string, string)>)
    requires n < |ix.keys| && ix.keys[n] in ix.sources && Reported(ix, n, seen) && |ix.sources[ix.keys[n]]| < 2
    ensures Reported(ix, n + 1, seen)
  {
    hide AtMost;
    ReportedGrows(ix, n, seen, seen);
  }

  lemma SortKeepsSound(found: seq<Collision>, out: seq<Collision>, seen: set<(string, string)>, all: set<string>, lower: string -> string)
    requires Sound(found, all, lower) && PairsAre(found, seen) && multiset(out) == multiset(found)
    ensures Sound(out, all, lower) && PairsAre(out, seen)
  {
    hide AtMost, Lowered;
    SameMembers(found, out);
    forall i, j | 0 <= i < j < |out| ensures Pair(out[i]) != Pair(out[j]) {
      PairsDistinct(found, out, i, j);
    }
    forall p ensures p in seen <==> exists c :: c in out && Pair(c) == p {
      if p in seen {
        var c :| c in found && Pair(c) == p;
        assert c in out;
      }
      if c :| c in out && Pair(c) == p {
        assert c in found;
      }
    }
  }

  /** Equal pairs would need two equal entries, or two entries of `found` with one pair. */
  lemma PairsDistinct(found: seq<Collision>, out: seq<Collision>, i: nat, j: nat)
    requires multiset(out) == multiset(found) && i < j < |out|
    requires forall x, y :: 0 <= x < y < |found| ==> Pair(found[x]) != Pair(found[y])
    ensures Pair(out[i]) != Pair(out[j])
  {
    SameMembers(found, out);
    assert out[i] in found && out[j] in found;
    var x :| 0 <= x < |found| && found[x] == out[i];
    var y :| 0 <= y < |found| && found[y] == out[j];
    if x == y {
      CountTwice(out, i, j);
      CountOnce(found, found[x]);
      assert false;
    }
  }

  lemma CountTwice(t: seq<Collision>, i: nat, j: nat)
    requires i < j < |t| && t[i] == t[j]
    ensures multiset(t)[t[i]] >= 2
  {
    assert t == t[..j] + [t[j]] + t[j + 1..];
    assert t[..j][i] == t[i];
  }

  lemma {:induction false} CountOnce(s: seq<Collision>, c: Collision)
    requires forall x, y :: 0 <= x < y < |s| ==> Pair(s[x]) != Pair(s[y])
    ensures multiset(s)[c] <= 1
    decreases |s|
  {
    if s != [] {
      assert s == [s[0]] + s[1..];
      forall x, y | 0 <= x < y < |s[1..]| ensures Pair(s[1..][x]) != Pair(s[1..][y]) {
        assert Pair(s[x + 1]) != Pair(s[y + 1]);
      }
      CountOnce(s[1..], c);
      if s[0] == c {
        assert c !in s[1..];
      }
    }
  }

  lemma Complete(ix: Index, all: set<string>, lower: string -> string, out: seq<Collision>, seen: set<(string, string)>)
    requires Indexes(ix, all, lower) && Reported(ix, |ix.keys|, seen) && PairsAre(out, seen) && Sound(out, all, lower)
    ensures forall a, b :: a in all && b in all && a != b && AtMost(a, b) ==>
              (Collide(a, b, lower) <==> exists c :: c in out && Pair(c) == (a, b))
  {
    hide AtMost, Lowered;
    assert ix.keys[..|ix.keys|] == ix.keys;
    forall a, b | a in all && b in all && a != b && AtMost(a, b)
      ensures Collide(a, b, lower) <==> exists c :: c in out && Pair(c) == (a, b)
    {
      if Collide(a, b, lower) {
        var k :| k in Lowered(a, lower) * Lowered(b, lower);
        assert k in ix.sources && a in ix.sources[k] && b in ix.sources[k] && k in ix.keys;
        assert (a, b) in seen;
      }
      if c :| c in out && Pair(c) == (a, b) {
        assert c.shared in Lowered(a, lower) * Lowered(b, lower);
      }
    }
  }
}
