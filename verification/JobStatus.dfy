/**
 * The bounded cache of last known job states (src-tauri/src/job_status.rs), shared by every job
 * service. For a capacity of at least one it is an unbounded map cut down to the last `cap` ids.
 */
module JobStatus {
  import opened Wrappers

  datatype JobKind = BakeJob | PeakJob | LufsJob | ExportJob | LoudnessJob

  datatype JobState = Running | Done | Cancelled | Failed

  datatype Progress = Progress(id: nat, kind: JobKind, state: JobState, fraction: real)

  /** Entries by id, and the ids in the order they came in. */
  datatype Cache = Cache(byId: map<nat, Progress>, order: seq<nat>)

  const EMPTY := Cache(map[], [])

  /** What recording `p` means: a new id goes to the end, the oldest ids go while there are too many. */
  function Recorded(cap: nat, c: Cache, p: Progress): Cache {
    if p.id in c.byId then Cache(c.byId[p.id := p], c.order)
    else
      var kept := Evicted(cap, Cache(c.byId, c.order + [p.id]));
      Cache(kept.byId[p.id := p], kept.order)
  }

  function Evicted(cap: nat, c: Cache): Cache
    decreases |c.order|
  {
    if |c.order| <= cap then c
    else Evicted(cap, Cache(c.byId - {c.order[0]}, c.order[1..]))
  }

  class JobStatusRegistry {
    const cap: nat
    var byId: map<nat, Progress>
    var order: seq<nat>

    ghost function Abs(): Cache
      reads this
    {
      Cache(byId, order)
    }

    constructor (capacity: nat)
      ensures cap == capacity && Abs() == EMPTY
    {
      cap, byId, order := capacity, map[], [];
    }

    method Record(p: Progress)
      modifies this
      ensures Abs() == Recorded(cap, old(Abs()), p)
      ensures Get(p.id) == Some(p)
    {
      if p.id !in byId {
        order := order + [p.id];
        while |order| > cap
          invariant Evicted(cap, Abs()) == Evicted(cap, Cache(old(byId), old(order) + [p.id]))
          decreases |order|
        {
          byId := byId - {order[0]};
          order := order[1..];
        }
      }
      byId := byId[p.id := p];
    }

    function Get(id: nat): Option<Progress>
      reads this
    {
      if id in byId then Some(byId[id]) else None
    }
  }

  // --- What it keeps, over any sequence of records ----------------------------------------------------

  function RecordAll(cap: nat, ps: seq<Progress>): Cache
    decreases |ps|
  {
    if ps == [] then EMPTY else Recorded(cap, RecordAll(cap, ps[..|ps| - 1]), ps[|ps| - 1])
  }

  /** The unbounded map: the last record of every id. */
  function Last(ps: seq<Progress>, id: nat): Option<Progress>
    decreases |ps|
  {
    if ps == [] then None
    else if ps[|ps| - 1].id == id then Some(ps[|ps| - 1])
    else Last(ps[..|ps| - 1], id)
  }

  /** Every time an id entered the cache: at its first record, and again after it was evicted. */
  function Entries(cap: nat, ps: seq<Progress>): seq<nat>
    decreases |ps|
  {
    if ps == [] then []
    else
      var before := Entries(cap, ps[..|ps| - 1]);
      if ps[|ps| - 1].id in RecordAll(cap, ps[..|ps| - 1]).byId then before else before + [ps[|ps| - 1].id]
  }

  predicate Distinct(ids: seq<nat>) {
    forall i, j :: 0 <= i < j < |ids| ==> ids[i] != ids[j]
  }

  /** The keys are exactly the ids in order, each once, and there are at most `cap`. */
  ghost predicate Consistent(cap: nat, c: Cache) {
    && Distinct(c.order)
    && |c.order| <= cap
    && (forall id :: id in c.order <==> id in c.byId)
  }

  function Suffix(ids: seq<nat>, n: nat): seq<nat> {
    if |ids| <= n then ids else ids[|ids| - n..]
  }

  /** One record evicts at most the one oldest id. */
  lemma EvictsOldest(cap: nat, c: Cache, id: nat)
    requires cap > 0 && Consistent(cap, c) && id !in c.byId
    ensures Evicted(cap, Cache(c.byId, c.order + [id])) ==
            (if |c.order| < cap then Cache(c.byId, c.order + [id])
             else Cache(c.byId - {c.order[0]}, c.order[1..] + [id]))
  {
    var more := Cache(c.byId, c.order + [id]);
    if |c.order| == cap {
      assert more.order[1..] == c.order[1..] + [id];
      assert Evicted(cap, more) == Evicted(cap, Cache(c.byId - {c.order[0]}, more.order[1..]));
    }
  }

  lemma RecordedConsistent(cap: nat, c: Cache, p: Progress)
    requires cap > 0 && Consistent(cap, c)
    ensures Consistent(cap, Recorded(cap, c, p)) && p.id in Recorded(cap, c, p).byId
    ensures p.id !in c.byId ==> Recorded(cap, c, p).order == Suffix(c.order + [p.id], cap)
    ensures p.id in c.byId ==> Recorded(cap, c, p).order == c.order
    ensures Recorded(cap, c, p).byId[p.id] == p
    ensures forall id :: id in Recorded(cap, c, p).byId && id != p.id ==> id in c.byId && Recorded(cap, c, p).byId[id] == c.byId[id]
  {
    if p.id !in c.byId {
      EvictsOldest(cap, c, p.id);
      var r := Recorded(cap, c, p);
      if |c.order| == cap {
        assert (c.order + [p.id])[1..] == c.order[1..] + [p.id];
      }
      forall id ensures id in r.order <==> id in r.byId {
        assert id in c.order <==> id in c.byId;
        if id in c.order {
          var i :| 0 <= i < |c.order| && c.order[i] == id;
          assert |c.order| == cap && i > 0 ==> c.order[1..][i - 1] == id;
        }
      }
    }
  }

  /** The cache after `ps`, against the unbounded map and against what entered. */
  ghost predicate KeepsLatest(cap: nat, ps: seq<Progress>, c: Cache) {
    && Consistent(cap, c)
    && c.order == Suffix(Entries(cap, ps), cap)
    && (forall id :: id in c.byId ==> Last(ps, id) == Some(c.byId[id]))
    && (ps != [] ==> ps[|ps| - 1].id in c.byId)
  }

  /**
   * The cache against the unbounded map: a value it has is the last one recorded under its id, and
   * the ids it has are the last `cap` that entered. So an id goes only once `cap` other, distinct ids
   * have entered after it.
   */
  lemma {:induction false} CacheKeepsTheLatest(cap: nat, ps: seq<Progress>)
    requires cap > 0
    ensures KeepsLatest(cap, ps, RecordAll(cap, ps))
    decreases |ps|
  {
    if ps != [] {
      hide KeepsLatest, RecordAll;
      var before, p := ps[..|ps| - 1], ps[|ps| - 1];
      CacheKeepsTheLatest(cap, before);
      assert before + [p] == ps;
      LatestStep(cap, before, p, RecordAll(cap, before));
    }
  }

  lemma SuffixGrows(ids: seq<nat>, id: nat, cap: nat)
    requires cap > 0
    ensures Suffix(Suffix(ids, cap) + [id], cap) == Suffix(ids + [id], cap)
  {}

  lemma LatestStep(cap: nat, before: seq<Progress>, p: Progress, c: Cache)
    requires cap > 0 && c == RecordAll(cap, before) && KeepsLatest(cap, before, c)
    ensures KeepsLatest(cap, before + [p], RecordAll(cap, before + [p]))
  {
    hide Consistent, Suffix, Recorded;
    var ps := before + [p];
    assert ps[..|ps| - 1] == before;
    RecordedConsistent(cap, c, p);
    SuffixGrows(Entries(cap, before), p.id, cap);
    assert RecordAll(cap, ps) == Recorded(cap, c, p);
  }

  /** Nothing that fits is ever forgotten: with at most `cap` ids the cache is the unbounded map. */
  lemma {:induction false} NothingEvictedWhileItFits(cap: nat, ps: seq<Progress>)
    requires cap > 0 && |Entries(cap, ps)| <= cap
    ensures forall id :: Last(ps, id) == (if id in RecordAll(cap, ps).byId then Some(RecordAll(cap, ps).byId[id]) else None)
    decreases |ps|
  {
    CacheKeepsTheLatest(cap, ps);
    if ps != [] {
      var before, p := ps[..|ps| - 1], ps[|ps| - 1];
      CacheKeepsTheLatest(cap, before);
      NothingEvictedWhileItFits(cap, before);
      RecordedConsistent(cap, RecordAll(cap, before), p);
      forall id | id in RecordAll(cap, before).byId ensures id in RecordAll(cap, ps).byId {
        assert id in RecordAll(cap, before).order;
      }
    }
  }

  /**
   * Each job service numbers its jobs from 1 and all share one cache, so the query for a job answers
   * with its own last state exactly if no record under the same number came after it.
   */
  lemma {:induction false} AnswersTheLatestWriter(cap: nat, before: seq<Progress>, own: Progress, after: seq<Progress>)
    requires cap > 0 && own.id in RecordAll(cap, before + [own] + after).byId
    ensures RecordAll(cap, before + [own] + after).byId[own.id] == own <==>
            Last(after, own.id) == None || Last(after, own.id) == Some(own)
    decreases |after|
  {
    var ps := before + [own] + after;
    CacheKeepsTheLatest(cap, ps);
    LastOfConcat(before + [own], after, own.id);
    assert (before + [own])[..|before|] == before;
  }

  lemma {:induction false} LastOfConcat(a: seq<Progress>, b: seq<Progress>, id: nat)
    ensures Last(a + b, id) == if Last(b, id).Some? then Last(b, id) else Last(a, id)
    decreases |b|
  {
    if b == [] {
      assert a + b == a;
    } else {
      assert (a + b)[..|a + b| - 1] == a + b[..|b| - 1];
      LastOfConcat(a, b[..|b| - 1], id);
    }
  }

  /** With a capacity of zero the first record already breaks it: a key that is in no order. */
  lemma {:induction false} ConsistentExactly(cap: nat, ps: seq<Progress>)
    ensures Consistent(cap, RecordAll(cap, ps)) <==> cap > 0 || ps == []
    decreases |ps|
  {
    if cap > 0 {
      CacheKeepsTheLatest(cap, ps);
    } else if ps != [] {
      var before := ps[..|ps| - 1];
      ZeroKeepsNoOrder(before);
      ZeroKeepsNoOrder(ps);
      assert ps[|ps| - 1].id in RecordAll(0, ps).byId;
    }
  }

  lemma {:induction false} ZeroKeepsNoOrder(ps: seq<Progress>)
    ensures RecordAll(0, ps).order == []
    decreases |ps|
  {
    if ps != [] {
      ZeroKeepsNoOrder(ps[..|ps| - 1]);
      var c := RecordAll(0, ps[..|ps| - 1]);
      var id := ps[|ps| - 1].id;
      assert ([] + [id])[1..] == [];
      assert Evicted(0, Cache(c.byId, c.order + [id])).order == Evicted(0, Cache(c.byId - {id}, [])).order;
    }
  }
}
