/**
 * Pieces and the chunk store they point into (crates/project/src/snapshot.rs `Piece`,
 * crates/project/src/store/mod.rs `location`, crates/project/src/session.rs `validate_piece_refs`).
 * A chunk id is an index into one session's store; nothing in a piece says whose.
 */
module Stores {
  import opened Wrappers
  import opened Audio

  /** The chunks of one session by id; `None` is a hole compaction left. */
  type Store = seq<Option<Samples>>

  datatype Piece = Chunk(id: nat, offset: nat, len: nat) | Silent(len: nat)

  /** What a piece stands for: silence, or a stretch of a chunk that is there and long enough. */
  function Read(p: Piece, store: Store): (r: Option<Samples>)
    ensures r.Some? ==> |r.value| == p.len
  {
    match p
    case Silent(n) => Some(Silence(n))
    case Chunk(id, offset, n) =>
      if id < |store| && store[id].Some? && offset + n <= |store[id].value| then
        Some(store[id].value[offset..offset + n])
      else None
  }

  /** A piece table read through a store; `None` if any of its pieces is refused. */
  function Lookup(table: seq<Piece>, store: Store): (r: Option<Samples>)
    ensures r.Some? ==> |r.value| == Length(table)
    decreases |table|
  {
    if table == [] then Some([])
    else
      match Read(table[0], store)
      case None => None
      case Some(first) =>
        match Lookup(table[1..], store)
        case None => None
        case Some(rest) => Some(first + rest)
  }

  function Length(table: seq<Piece>): nat
    decreases |table|
  {
    if table == [] then 0 else table[0].len + Length(table[1..])
  }

  /** Silence, or a stretch inside a chunk of the store. */
  predicate LiesIn(p: Piece, store: Store) {
    p.Chunk? ==> p.id < |store| && store[p.id].Some? && p.offset + p.len <= |store[p.id].value|
  }

  /** A table is accepted exactly if each of its pieces lies in the store. */
  lemma {:induction false} AcceptedExactly(table: seq<Piece>, store: Store)
    ensures Lookup(table, store).Some? <==> forall i :: 0 <= i < |table| ==> LiesIn(table[i], store)
    decreases |table|
  {
    if table != [] {
      AcceptedExactly(table[1..], store);
      assert forall i :: 0 < i < |table| ==> table[i] == table[1..][i - 1];
      if forall i :: 0 <= i < |table| ==> LiesIn(table[i], store) {
        assert LiesIn(table[0], store);
      }
    }
  }

  /** The `k`-th sample of the `i`-th piece stands behind all samples of the pieces in front of it. */
  lemma {:induction false} ReadsInOrder(table: seq<Piece>, store: Store, i: nat, k: nat)
    requires Lookup(table, store).Some? && i < |table| && k < table[i].len
    ensures var r, at := Lookup(table, store).value, Length(table[..i]) + k;
            && LiesIn(table[i], store) && at < |r|
            && r[at] == if table[i].Silent? then 0.0 else store[table[i].id].value[table[i].offset + k]
    decreases |table|
  {
    if i > 0 {
      ReadsInOrder(table[1..], store, i - 1, k);
      assert table[..i][1..] == table[1..][..i - 1];
    } else {
      assert table[..0] == [];
    }
  }

  /** Two stores give a readable table the same samples exactly if they do so piece by piece. */
  lemma {:induction false} SameExactly(table: seq<Piece>, a: Store, b: Store)
    requires Lookup(table, a).Some?
    ensures Lookup(table, b) == Lookup(table, a) <==>
            forall i :: 0 <= i < |table| ==> Read(table[i], b) == Read(table[i], a)
    decreases |table|
  {
    if table != [] {
      var rest := table[1..];
      SameExactly(rest, a, b);
      assert forall i :: 0 < i < |table| ==> table[i] == rest[i - 1];
      if Lookup(table, b) == Lookup(table, a) {
        var x, y := Read(table[0], a).value, Read(table[0], b).value;
        var s, t := Lookup(rest, a).value, Lookup(rest, b).value;
        assert x == (x + s)[..table[0].len] == (y + t)[..table[0].len] == y;
        assert s == (x + s)[table[0].len..] == (y + t)[table[0].len..] == t;
      }
    }
  }

  /** Silence needs no store. */
  lemma SilenceIsEverywhere(table: seq<Piece>, a: Store, b: Store)
    requires forall i :: 0 <= i < |table| ==> table[i].Silent?
    ensures Lookup(table, a).Some? && Lookup(table, b) == Lookup(table, a)
  {
    AcceptedExactly(table, a);
    SameExactly(table, a, b);
  }

  /** Chunks that are added change nothing that was there. */
  lemma GrowingKeeps(table: seq<Piece>, store: Store, more: Store)
    requires Lookup(table, store).Some?
    ensures Lookup(table, store + more) == Lookup(table, store)
  {
    AcceptedExactly(table, store);
    SameExactly(table, store, store + more);
  }
}
